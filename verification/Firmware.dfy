/** How the host cuts an image into chunks, and what flash holds once chunks have been written. */
module Firmware {
  import opened Flash
  import opened OtaDevice

  /** Room between the image's base address and the end of flash. */
  const MAX_IMAGE_SIZE := FLASH_SIZE - SWARMIT_BASE_ADDRESS

  /** The images an update is for: those that fit. */
  type Image = fw: seq<bv8> | |fw| <= MAX_IMAGE_SIZE

  datatype DataChunk = DataChunk(index: nat, size: nat, sha: Digest, data: ChunkBytes)

  function ChunksCount(length: nat): (r: nat)
    ensures r <= length
  {
    length / SWRMT_OTA_CHUNK_SIZE + if length % SWRMT_OTA_CHUNK_SIZE != 0 then 1 else 0
  }

  function ChunkSize(length: nat, index: nat): (r: nat)
    requires index < ChunksCount(length)
    ensures 1 <= r <= SWRMT_OTA_CHUNK_SIZE && SWRMT_OTA_CHUNK_SIZE * index + r <= length
  {
    if index == ChunksCount(length) - 1 && length % SWRMT_OTA_CHUNK_SIZE != 0 then length % SWRMT_OTA_CHUNK_SIZE
    else SWRMT_OTA_CHUNK_SIZE
  }

  function ChunkData(fw: seq<bv8>, index: nat): (r: ChunkBytes)
    requires index < ChunksCount(|fw|)
    ensures |r| == ChunkSize(|fw|, index)
  {
    fw[SWRMT_OTA_CHUNK_SIZE * index..SWRMT_OTA_CHUNK_SIZE * index + ChunkSize(|fw|, index)]
  }

  function ChunkOf(fw: seq<bv8>, index: nat, sha: DigestFunction): DataChunk
    requires index < ChunksCount(|fw|)
  {
    var data := ChunkData(fw, index);
    DataChunk(index, ChunkSize(|fw|, index), sha(data), data)
  }

  function Chunks(fw: seq<bv8>, sha: DigestFunction): seq<DataChunk> {
    seq(ChunksCount(|fw|), i requires 0 <= i < ChunksCount(|fw|) => ChunkOf(fw, i, sha))
  }

  function Joined(chunks: seq<DataChunk>): seq<bv8> {
    if chunks == [] then [] else Joined(chunks[..|chunks| - 1]) + chunks[|chunks| - 1].data
  }

  lemma {:induction false} JoinedPrefix(fw: seq<bv8>, sha: DigestFunction, k: nat)
    requires k <= ChunksCount(|fw|)
    ensures Joined(Chunks(fw, sha)[..k]) == fw[..if k < ChunksCount(|fw|) then SWRMT_OTA_CHUNK_SIZE * k else |fw|]
  {
    var chunks := Chunks(fw, sha);
    if k > 0 {
      JoinedPrefix(fw, sha, k - 1);
      assert chunks[..k][..k - 1] == chunks[..k - 1];
    }
  }

  /** The chunks tile the image: they join to it, none is empty, only the last may be short. */
  lemma ChunksTileImage(fw: seq<bv8>, sha: DigestFunction)
    ensures var chunks := Chunks(fw, sha); var n := |chunks|;
      && Joined(chunks) == fw
      && SWRMT_OTA_CHUNK_SIZE * (n - 1) < |fw| <= SWRMT_OTA_CHUNK_SIZE * n
      && (forall i :: 0 <= i < n ==>
            chunks[i].index == i && 1 <= |chunks[i].data| == chunks[i].size <= SWRMT_OTA_CHUNK_SIZE)
      && (forall i :: 0 <= i < n - 1 ==> chunks[i].size == SWRMT_OTA_CHUNK_SIZE)
  {
    var chunks := Chunks(fw, sha);
    JoinedPrefix(fw, sha, |chunks|);
    assert chunks[..|chunks|] == chunks;
  }

  // ----- what flash holds

  /** Bytes of the image that whole-word writes can reach. */
  function WrittenLength(fw: seq<bv8>): nat {
    4 * (|fw| / 4)
  }

  /** Whether flash byte `a` belongs to one of the chunks in `which`. */
  predicate InChunks(a: int, fw: Image, which: set<nat>) {
    0 <= a - SWARMIT_BASE_ADDRESS < WrittenLength(fw) && (a - SWARMIT_BASE_ADDRESS) / SWRMT_OTA_CHUNK_SIZE in which
  }

  /** `mem` after clearing, once each, the bits the chunks in `which` have clear. */
  function WriteOnce(mem: seq<bv8>, fw: Image, which: set<nat>): (r: seq<bv8>)
    ensures |r| == |mem|
  {
    seq(|mem|, a requires 0 <= a < |mem| =>
      if InChunks(a, fw, which) then mem[a] & fw[a - SWARMIT_BASE_ADDRESS] else mem[a])
  }

  predicate InImagePages(a: int, pages: nat) {
    SWARMIT_BASE_ADDRESS <= a < SWARMIT_BASE_ADDRESS + FLASH_PAGE_SIZE * pages
  }

  /** The pages of the image hold the chunks in `which` and are blank elsewhere. */
  ghost predicate HoldsChunks(mem: seq<bv8>, fw: Image, which: set<nat>) {
    forall a :: 0 <= a < |mem| && InImagePages(a, PagesCount(|fw|)) ==>
      mem[a] == if InChunks(a, fw, which) then fw[a - SWARMIT_BASE_ADDRESS] else 0xFF
  }

  ghost predicate Blank(mem: seq<bv8>, pages: nat) {
    forall a :: 0 <= a < |mem| && InImagePages(a, pages) ==> mem[a] == 0xFF
  }

  /** The image is in flash, up to the last whole word, and the rest of its pages is blank. */
  ghost predicate HoldsImage(mem: seq<bv8>, fw: Image) {
    && |mem| == FLASH_SIZE
    && mem[SWARMIT_BASE_ADDRESS..SWARMIT_BASE_ADDRESS + WrittenLength(fw)] == fw[..WrittenLength(fw)]
    && forall a :: SWARMIT_BASE_ADDRESS + WrittenLength(fw) <= a < |mem| && InImagePages(a, PagesCount(|fw|)) ==>
       mem[a] == 0xFF
  }

  ghost predicate Complete(which: set<nat>, fw: seq<bv8>) {
    forall i: nat :: i < ChunksCount(|fw|) ==> i in which
  }

  lemma AllChunksAreTheImage(mem: seq<bv8>, fw: Image, which: set<nat>)
    requires |mem| == FLASH_SIZE && Complete(which, fw) && HoldsChunks(mem, fw, which)
    ensures HoldsImage(mem, fw)
  {
    forall o | 0 <= o < WrittenLength(fw) ensures mem[SWARMIT_BASE_ADDRESS + o] == fw[o] {
      assert o / SWRMT_OTA_CHUNK_SIZE in which;
      assert InImagePages(SWARMIT_BASE_ADDRESS + o, PagesCount(|fw|));
    }
  }

  /** The bytes programmed for chunk `index` are exactly the bytes of that chunk in the image. */
  lemma ChunkBytesAt(fw: Image, index: nat, a: int)
    requires index < ChunksCount(|fw|) && 0 <= a < FLASH_SIZE
    ensures var o := Offset(a, ChunkAddress(index));
      && (o < 4 * (ChunkSize(|fw|, index) / 4) <==> InChunks(a, fw, {index}))
      && (InChunks(a, fw, {index}) ==> o == a - SWARMIT_BASE_ADDRESS - SWRMT_OTA_CHUNK_SIZE * index)
  {
    var start := SWARMIT_BASE_ADDRESS + SWRMT_OTA_CHUNK_SIZE * index;
    assert ChunkAddress(index) == start;
    if a < start { OffsetBelow(a, start); } else { OffsetInRange(a, start); }
    hide Offset, ChunkAddress, ChunkSize;
    ChunkEnd(|fw|, index);
  }

  /** The whole words of a chunk end with the chunk, or with the last whole word of the image. */
  lemma ChunkEnd(length: nat, index: nat)
    requires index < ChunksCount(length)
    ensures var next := SWRMT_OTA_CHUNK_SIZE * (index + 1);
      SWRMT_OTA_CHUNK_SIZE * index + 4 * (ChunkSize(length, index) / 4) ==
      if 4 * (length / 4) < next then 4 * (length / 4) else next
  {
    var rest := length - SWRMT_OTA_CHUNK_SIZE * index;
    assert length / 4 == 32 * index + rest / 4;
    assert ChunkSize(length, index) == if rest < SWRMT_OTA_CHUNK_SIZE then rest else SWRMT_OTA_CHUNK_SIZE;
    hide ChunkSize, ChunksCount;
  }

  lemma ClearTwice(x: bv8, y: bv8)
    ensures x & y & y == x & y
  {
  }

  /** Writing one more verified chunk, new or repeated, adds it to the chunks written once. */
  lemma WritingAChunk(mem: seq<bv8>, fw: Image, which: set<nat>, index: nat, buffer: seq<bv8>)
    requires |mem| == FLASH_SIZE && index < ChunksCount(|fw|)
    requires |buffer| >= ChunkSize(|fw|, index)
    requires buffer[..ChunkSize(|fw|, index)] == ChunkData(fw, index)
    ensures Programmed(WriteOnce(mem, fw, which), ChunkAddress(index), buffer, ChunkSize(|fw|, index) / 4)
         == WriteOnce(mem, fw, which + {index})
  {
    var size := ChunkSize(|fw|, index);
    var before, after := WriteOnce(mem, fw, which), WriteOnce(mem, fw, which + {index});
    var written := Programmed(before, ChunkAddress(index), buffer, size / 4);
    forall a {:trigger Offset(a, ChunkAddress(index))} | 0 <= a < |mem| ensures written[a] == after[a] {
      ChunkBytesAt(fw, index, a);
      if InChunks(a, fw, {index}) {
        var o := Offset(a, ChunkAddress(index));
        assert buffer[o] == buffer[..size][o] == fw[a - SWARMIT_BASE_ADDRESS];
        ClearTwice(mem[a], fw[a - SWARMIT_BASE_ADDRESS]);
      }
    }
  }

  /** Where the image pages were blank, chunks written once can be read back. */
  lemma OnBlankPages(mem: seq<bv8>, fw: Image, which: set<nat>)
    requires |mem| == FLASH_SIZE && Blank(mem, PagesCount(|fw|))
    ensures HoldsChunks(WriteOnce(mem, fw, which), fw, which)
  {
    forall a | 0 <= a < |mem| && InChunks(a, fw, which)
      ensures WriteOnce(mem, fw, which)[a] == fw[a - SWARMIT_BASE_ADDRESS]
    {
      assert InImagePages(a, PagesCount(|fw|));
      ClearBlank(fw[a - SWARMIT_BASE_ADDRESS]);
    }
  }

  /** Pages holding some chunks are what writing those chunks once leaves unchanged. */
  lemma HeldChunksStay(mem: seq<bv8>, fw: Image, which: set<nat>)
    requires |mem| == FLASH_SIZE && HoldsChunks(mem, fw, which)
    ensures WriteOnce(mem, fw, which) == mem
  {
    forall a | 0 <= a < |mem| && InChunks(a, fw, which) ensures WriteOnce(mem, fw, which)[a] == mem[a] {
      assert InImagePages(a, PagesCount(|fw|));
      ClearSelf(mem[a]);
    }
  }

  lemma ClearBlank(x: bv8)
    ensures 0xFF & x == x
  {
  }

  lemma ClearSelf(x: bv8)
    ensures x & x == x
  {
  }

  lemma AddingAChunk(mem: seq<bv8>, fw: Image, which: set<nat>, index: nat, buffer: seq<bv8>)
    requires |mem| == FLASH_SIZE && index < ChunksCount(|fw|) && HoldsChunks(mem, fw, which)
    requires |buffer| >= ChunkSize(|fw|, index)
    requires buffer[..ChunkSize(|fw|, index)] == ChunkData(fw, index)
    ensures HoldsChunks(Programmed(mem, ChunkAddress(index), buffer, ChunkSize(|fw|, index) / 4), fw, which + {index})
  {
    HeldChunksStay(mem, fw, which);
    WritingAChunk(mem, fw, which, index, buffer);
    var after := WriteOnce(mem, fw, which + {index});
    forall a | 0 <= a < |mem| && InImagePages(a, PagesCount(|fw|))
      ensures after[a] == if InChunks(a, fw, which + {index}) then fw[a - SWARMIT_BASE_ADDRESS] else 0xFF
    {
      if InChunks(a, fw, which + {index}) {
        var x := fw[a - SWARMIT_BASE_ADDRESS];
        ClearSelf(x);
        ClearBlank(x);
      }
    }
  }

  /** Erasing pages of the image area blanks them; nothing else changes while they fit the flash. */
  lemma {:induction false} ErasingPages(mem: seq<bv8>, count: nat)
    requires |mem| == FLASH_SIZE
    ensures Blank(ErasedPages(mem, count), count)
    ensures FLASH_PAGE_SIZE * count <= MAX_IMAGE_SIZE ==>
      forall a :: 0 <= a < |mem| && !InImagePages(a, count) ==> ErasedPages(mem, count)[a] == mem[a]
  {
    if count > 0 {
      ErasingPages(mem, count - 1);
      var start := (count - 1 + IMAGE_FIRST_PAGE) * FLASH_PAGE_SIZE;
      var before, after := ErasedPages(mem, count - 1), ErasedPages(mem, count);
      forall a | 0 <= a < |mem|
        ensures InImagePages(a, count) ==> after[a] == 0xFF
        ensures FLASH_PAGE_SIZE * count <= MAX_IMAGE_SIZE && !InImagePages(a, count) ==> after[a] == before[a] == mem[a]
      {
        if start <= a < start + FLASH_PAGE_SIZE {
          OffsetInRange(a, start);
        } else if start < FLASH_SIZE {
          if a < start { OffsetBelow(a, start); } else { OffsetInRange(a, start); }
        } else {
          assert InImagePages(a, count) ==> InImagePages(a, count - 1);
        }
      }
    }
  }
}
