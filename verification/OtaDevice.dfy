/** The over-the-air update half of the bootloader. `Receive`, `ServiceStart` and `ServiceChunk`
    say what one packet and the two request flags do to the device; class `Bootloader` is the
    code itself, on mutable fields and buffers, proved against them. */
module OtaDevice {
  import opened Flash

  const SWARMIT_BASE_ADDRESS := 0x10000
  const SWRMT_OTA_CHUNK_SIZE := 128
  const IMAGE_FIRST_PAGE := 16

  /** A received digest, and the digest function: SHA-256 cut to its first eight bytes. */
  type Digest = seq<bv8>
  type DigestFunction = seq<bv8> -> Digest

  /** The bytes of a chunk packet; the packet has room for one chunk. */
  type ChunkBytes = s: seq<bv8> | |s| <= SWRMT_OTA_CHUNK_SIZE

  datatype Status = Ready | Running | Stopping | Resetting | Programming

  datatype Request =
    | OtaStart(imageSize: u32, chunkCount: u32)
    | OtaChunk(index: u32, data: ChunkBytes, sha: Digest)

  datatype Ack = StartAck | ChunkAck(index: u32)

  /** Everything the update code keeps. `covered` is history: the pages of the last erase. */
  datatype Device = Device(
    status: Status, imageSize: u32, chunkCount: u32, chunkIndex: u32, chunkSize: nat, chunk: seq<bv8>,
    lastAcked: int, requireErase: bool, startRequest: bool, chunkRequest: bool, flash: seq<bv8>, covered: nat)
  {
    predicate Valid() {
      |chunk| == SWRMT_OTA_CHUNK_SIZE && chunkSize <= SWRMT_OTA_CHUNK_SIZE && |flash| == FLASH_SIZE
    }

    predicate AcceptsUpdate() {
      status == Ready || status == Programming
    }

    /** No request flag is waiting for the main loop. */
    predicate Quiet() {
      !startRequest && !chunkRequest
    }
  }

  datatype Outcome = Outcome(dev: Device, acks: seq<Ack>)

  /** The cast of an unsigned index to `int32_t`. */
  function ToInt32(x: u32): int {
    if x < 0x8000_0000 then x else x - ADDRESS_SPACE
  }

  function PagesCount(imageSize: u32): nat {
    imageSize / FLASH_PAGE_SIZE + if imageSize % FLASH_PAGE_SIZE != 0 then 1 else 0
  }

  /** As many pages as the image reaches into, and no more. */
  lemma PagesCountExact(imageSize: u32)
    ensures PagesCount(0) == 0
    ensures imageSize > 0 ==> 4096 * (PagesCount(imageSize) - 1) < imageSize <= 4096 * PagesCount(imageSize)
  {
  }

  /** The cast keeps the value modulo 2^32 and fits 32 signed bits. */
  lemma ToInt32Exact(x: u32)
    ensures -0x8000_0000 <= ToInt32(x) < 0x8000_0000 && (ToInt32(x) - x) % 0x1_0000_0000 == 0
  {
  }

  function ChunkAddress(index: u32): (r: u32)
    ensures r % 4 == 0
  {
    var address := SWARMIT_BASE_ADDRESS + index * SWRMT_OTA_CHUNK_SIZE;
    assert address % ADDRESS_SPACE == 4 * (0x4000 + 32 * index - 0x4000_0000 * (address / ADDRESS_SPACE));
    address % ADDRESS_SPACE
  }

  /** Flash after erasing the first `count` pages of the image area, in order. */
  function ErasedPages(mem: seq<bv8>, count: nat): (r: seq<bv8>)
    ensures |r| == |mem|
  {
    if count == 0 then mem else Erased(ErasedPages(mem, count - 1), count - 1 + IMAGE_FIRST_PAGE)
  }

  /** Handling of one received packet, up to raising a request flag. */
  function Receive(d: Device, req: Request, sha: DigestFunction): (r: Device)
    requires d.Valid()
    ensures r.Valid()
  {
    if !d.AcceptsUpdate() then d
    else match req
      case OtaStart(size, count) =>
        d.(lastAcked := -1, status := Programming, imageSize := size, chunkCount := count, startRequest := true)
      case OtaChunk(index, data, digest) =>
        if index >= d.chunkCount then d.(chunkIndex := index)
        else if d.lastAcked == ToInt32(index) then d.(chunkIndex := index, chunkRequest := true)
        else d.(chunkIndex := index, chunkSize := |data|, chunk := data + d.chunk[|data|..],
                chunkRequest := d.chunkRequest || sha(data) == digest)
  }

  /** The main loop's answer to a START: erase if needed, then acknowledge. */
  function ServiceStart(d: Device): (r: Outcome)
    requires d.Valid()
    ensures r.dev.Valid()
  {
    if !d.startRequest then Outcome(d, [])
    else if !d.requireErase then Outcome(d.(startRequest := false), [StartAck])
    else
      var pages := PagesCount(d.imageSize);
      Outcome(d.(startRequest := false, flash := ErasedPages(d.flash, pages), requireErase := false, covered := pages),
              [StartAck])
  }

  /** The main loop's answer to a chunk: write it unless it was the last one acked, then acknowledge. */
  function ServiceChunk(d: Device): (r: Outcome)
    requires d.Valid()
    ensures r.dev.Valid()
  {
    if !d.chunkRequest then Outcome(d, [])
    else
      var written := if d.lastAcked == ToInt32(d.chunkIndex) then d else
        d.(flash := Programmed(d.flash, ChunkAddress(d.chunkIndex), d.chunk, d.chunkSize / 4), requireErase := true);
      var last := d.chunkIndex == (d.chunkCount - 1) % ADDRESS_SPACE;
      Outcome(written.(chunkRequest := false, lastAcked := ToInt32(d.chunkIndex),
                       status := if last then Ready else d.status),
              [ChunkAck(d.chunkIndex)])
  }

  /** The two request blocks of the main loop, one after the other. */
  function Service(d: Device): (r: Outcome)
    requires d.Valid()
    ensures r.dev.Valid()
  {
    var first := ServiceStart(d);
    var second := ServiceChunk(first.dev);
    Outcome(second.dev, first.acks + second.acks)
  }

  /** One packet handled to the end by the single-core main loop. */
  function Pass(d: Device, req: Request, sha: DigestFunction): (r: Outcome)
    requires d.Valid()
    ensures r.dev.Valid()
  {
    Service(Receive(d, req, sha))
  }

  /** A reset: RAM starts from zero and flash stays. After a soft reset the user image runs and the
      update code is never reached; after any other reset the bootloader comes up ready. */
  function Boot(d: Device, user: bool): (r: Device)
    requires d.Valid()
    ensures r.Valid() && r.Quiet()
  {
    Device(if user then Running else Ready, 0, 0, 0, 0, seq(SWRMT_OTA_CHUNK_SIZE, _ => 0),
           0, !user, false, false, d.flash, 0)
  }

  class Bootloader {
    const sha: DigestFunction
    var status: Status
    var imageSize: u32
    var chunkCount: u32
    var chunkIndex: u32
    var chunkSize: nat
    const chunk: array<bv8>
    var lastAcked: int
    var requireErase: bool
    var startRequest: bool
    var chunkRequest: bool
    const flash: array<bv8>
    var tx: seq<Ack>         // frames handed to the radio, oldest first
    ghost var covered: nat

    ghost predicate Valid()
      reads this
    {
      chunk.Length == SWRMT_OTA_CHUNK_SIZE && chunkSize <= SWRMT_OTA_CHUNK_SIZE && flash.Length == FLASH_SIZE
        && chunk != flash
    }

    ghost function State(): (d: Device)
      reads this, chunk, flash
      requires Valid()
      ensures d.Valid()
    {
      Device(status, imageSize, chunkCount, chunkIndex, chunkSize, chunk[..], lastAcked, requireErase,
             startRequest, chunkRequest, flash[..], covered)
    }

    constructor (sha: DigestFunction, flash: array<bv8>)
      requires flash.Length == FLASH_SIZE
      ensures Valid() && fresh(chunk) && this.flash == flash && this.sha == sha && tx == []
      ensures forall d: Device :: d.Valid() && d.flash == flash[..] ==> State() == Boot(d, false)
    {
      this.sha, this.flash := sha, flash;
      status, imageSize, chunkCount, chunkIndex, chunkSize, lastAcked := Ready, 0, 0, 0, 0, 0;
      chunk := new bv8[SWRMT_OTA_CHUNK_SIZE](_ => 0);
      requireErase, startRequest, chunkRequest, tx, covered := true, false, false, [], 0;
      new;
      assert chunk[..] == seq(SWRMT_OTA_CHUNK_SIZE, _ => 0);
    }

    /** The received size and bytes, copied over the chunk buffer. */
    method StoreChunk(data: ChunkBytes)
      requires Valid()
      modifies this`chunkSize, chunk
      ensures chunkSize == |data| && chunk[..] == data + old(chunk[..])[|data|..] && chunk[..chunkSize] == data
    {
      chunkSize := |data|;
      forall k | 0 <= k < |data| { chunk[k] := data[k]; }
    }

    method HandleRequest(req: Request)
      requires Valid()
      modifies this`status, this`imageSize, this`chunkCount, this`chunkIndex, this`chunkSize, this`lastAcked,
        this`startRequest, this`chunkRequest, chunk
      ensures Valid() && State() == Receive(old(State()), req, sha)
    {
      match req
      case OtaStart(size, count) => HandleStart(size, count);
      case OtaChunk(index, data, digest) => HandleChunk(index, data, digest);
    }

    method HandleStart(size: u32, count: u32)
      requires Valid()
      modifies this`status, this`imageSize, this`chunkCount, this`lastAcked, this`startRequest
      ensures Valid() && State() == Receive(old(State()), OtaStart(size, count), sha)
    {
      if status != Ready && status != Programming { return; }
      lastAcked := -1;
      status := Programming;
      imageSize := size;
      chunkCount := count;
      startRequest := true;
    }

    method HandleChunk(index: u32, data: ChunkBytes, digest: Digest)
      requires Valid()
      modifies this`chunkIndex, this`chunkSize, this`chunkRequest, chunk
      ensures Valid() && State() == Receive(old(State()), OtaChunk(index, data, digest), sha)
    {
      if status != Programming && status != Ready { return; }
      chunkIndex := index;
      if chunkIndex >= chunkCount { return; }
      if lastAcked != ToInt32(chunkIndex) {
        StoreChunk(data);
        if sha(chunk[..chunkSize]) != digest { return; }
      }
      chunkRequest := true;
    }

    method ServiceOtaStart()
      requires Valid()
      modifies this`startRequest, this`requireErase, this`covered, this`tx, flash
      ensures Valid() && var r := ServiceStart(old(State())); State() == r.dev && tx == old(tx) + r.acks
    {
      ghost var was := State();
      if startRequest {
        startRequest := false;
        if requireErase {
          var pagesCount := PagesCount(imageSize);
          for page := 0 to pagesCount
            modifies flash
            invariant flash[..] == ErasedPages(was.flash, page) && chunk[..] == was.chunk
          {
            PageErase(flash, page + IMAGE_FIRST_PAGE);
          }
          requireErase := false;
          covered := pagesCount;
        }
        tx := tx + [StartAck];
      }
      assert chunk[..] == was.chunk;
    }

    method ServiceOtaChunk()
      requires Valid()
      modifies this`chunkRequest, this`requireErase, this`lastAcked, this`status, this`tx, flash
      ensures Valid() && var r := ServiceChunk(old(State())); State() == r.dev && tx == old(tx) + r.acks
    {
      ghost var was := State();
      if chunkRequest {
        chunkRequest := false;
        if lastAcked != ToInt32(chunkIndex) {
          var addr := ChunkAddress(chunkIndex);
          NvmcWrite(flash, addr, chunk, chunkSize);
          requireErase := true;
        }
        assert flash[..] == ServiceChunk(was).dev.flash;
        lastAcked := ToInt32(chunkIndex);
        tx := tx + [ChunkAck(chunkIndex)];
        if chunkIndex == (chunkCount - 1) % ADDRESS_SPACE {
          status := Ready;
        }
      }
    }

    /** One turn of the main loop, with or without a packet waiting. */
    method LoopPass(received: seq<Request>)
      requires Valid() && |received| <= 1
      modifies this, chunk, flash
      ensures Valid()
      ensures received == [] ==> var r := Service(old(State())); State() == r.dev && tx == old(tx) + r.acks
      ensures received != [] ==>
        var r := Pass(old(State()), received[0], sha); State() == r.dev && tx == old(tx) + r.acks
    {
      if received != [] {
        HandleRequest(received[0]);
      }
      ServiceOtaStart();
      ServiceOtaChunk();
    }
  }
}
