/** The calibration code itself: the host's sender, and the network core's loading, gathering and
    committing of its configuration, on mutable memory. */
module CalibrationCode {
  import opened Basics
  import opened Calibration
  import opened Flash

  const COMMAND_MAX_ATTEMPTS := 5

  datatype Error = EmptyFile | BadSize | CountMismatch | NoMatrices | TooManyMatrices
  datatype Result<T> = Success(value: T) | Failure(error: Error)

  datatype Frame = Frame(destination: Addr, packet: Packet)

  /** The packets among `frames` addressed to `a`. */
  function AddressedTo(frames: seq<Frame>, a: nat): seq<Packet> {
    if frames == [] then []
    else
      var front, last := frames[..|frames| - 1], frames[|frames| - 1];
      AddressedTo(front, a) + if last.destination == a then [last.packet] else []
  }

  lemma AddressedToNext(frames: seq<Frame>, f: Frame, a: nat)
    ensures AddressedTo(frames + [f], a) == AddressedTo(frames, a) + if f.destination == a then [f.packet] else []
  {
    assert (frames + [f])[..|frames|] == frames;
  }

  /** Destinations of every packet: all ready devices, or everyone when none is known to be ready. */
  function Destinations(ready: seq<nat>): seq<nat> {
    if ready == [] then [BROADCAST_ADDRESS] else ready
  }

  /** `after` is `before` with exactly `packets` added, in order, for each of `destinations`. */
  ghost predicate Adds(before: seq<Frame>, after: seq<Frame>, destinations: seq<nat>, packets: seq<Packet>) {
    forall a :: AddressedTo(after, a) == AddressedTo(before, a) + if a in destinations then packets else []
  }

  lemma AddsInTurn(x: seq<Frame>, y: seq<Frame>, z: seq<Frame>, destinations: seq<nat>, p: seq<Packet>, q: seq<Packet>)
    requires Adds(x, y, destinations, p) && Adds(y, z, destinations, q)
    ensures Adds(x, z, destinations, p + q)
  {
    forall a ensures AddressedTo(z, a) == AddressedTo(x, a) + if a in destinations then p + q else [] {
      assert AddressedTo(z, a) == AddressedTo(y, a) + if a in destinations then q else [];
      assert AddressedTo(y, a) == AddressedTo(x, a) + if a in destinations then p else [];
    }
  }

  /** One packet, once to every destination. */
  method SendOnce(frames: seq<Frame>, packet: Packet, destinations: seq<nat>) returns (sent: seq<Frame>)
    requires NoDuplicates(destinations)
    ensures Adds(frames, sent, destinations, [packet])
  {
    sent := frames;
    for j := 0 to |destinations|
      invariant Adds(frames, sent, destinations[..j], [packet])
    {
      var more := sent + [Frame(destinations[j], packet)];
      var told := destinations[..j + 1];
      forall a ensures AddressedTo(more, a) == AddressedTo(frames, a) + if a in told then [packet] else [] {
        AddressedToNext(sent, Frame(destinations[j], packet), a);
        assert told == destinations[..j] + [destinations[j]];
      }
      sent := more;
    }
    assert destinations[..|destinations|] == destinations;
  }

  /** The blind repetition that stands in for acknowledgements. */
  method SendCopies(frames: seq<Frame>, packet: Packet, destinations: seq<nat>) returns (sent: seq<Frame>)
    requires NoDuplicates(destinations)
    ensures Adds(frames, sent, destinations, Copies(packet, COMMAND_MAX_ATTEMPTS))
  {
    sent := frames;
    for copy := 0 to COMMAND_MAX_ATTEMPTS
      invariant Adds(frames, sent, destinations, Copies(packet, copy))
    {
      ghost var was := sent;
      sent := SendOnce(sent, packet, destinations);
      AddsInTurn(frames, was, sent, destinations, Copies(packet, copy), [packet]);
    }
  }

  lemma NextPacketSent(before: seq<Frame>, after: seq<Frame>, destinations: seq<nat>, blob: Blob,
                       copies: seq<nat>, i: nat)
    requires i < blob[0] <= |copies| && copies[i] == COMMAND_MAX_ATTEMPTS
    requires Adds([], before, destinations, Stream(blob, copies, i))
    requires Adds(before, after, destinations, Copies(BlobPacket(blob, i), COMMAND_MAX_ATTEMPTS))
    ensures Adds([], after, destinations, Stream(blob, copies, i + 1))
  {
    hide Adds, BlobPacket, Copies, Words;
    AddsInTurn([], before, after, destinations, Stream(blob, copies, i),
      Copies(BlobPacket(blob, i), COMMAND_MAX_ATTEMPTS));
  }

  /** `send_lh2_calibration`: a valid file leads to five copies of each packet, in index order, for every
      destination; anything else is refused. */
  method SendLh2Calibration(file: seq<Byte>, ready: seq<nat>) returns (r: Result<seq<Frame>>)
    requires NoDuplicates(ready)
    ensures r.Success? <==> ValidBlob(file)
    ensures r.Success? ==> forall a :: a in ready || (ready == [] && a == BROADCAST_ADDRESS) ==>
      AddressedTo(r.value, a) == Stream(file, seq(file[0], _ => COMMAND_MAX_ATTEMPTS), file[0])
    ensures r.Success? ==> forall a :: a in ready || (ready == [] && a == BROADCAST_ADDRESS) ==>
      FiveOfEach(AddressedTo(r.value, a), file, file[0])
    ensures r.Success? ==> forall a :: a !in ready && (ready != [] || a != BROADCAST_ADDRESS) ==>
      AddressedTo(r.value, a) == []
  {
    if |file| == 0 { return Failure(EmptyFile); }
    if (|file| - 1) % MATRIX_SIZE != 0 { return Failure(BadSize); }
    var homographyCount := file[0];
    var matricesBytes := file[1..];
    var expectedCount := |matricesBytes| / MATRIX_SIZE;
    if homographyCount != expectedCount { return Failure(CountMismatch); }
    if homographyCount == 0 { return Failure(NoMatrices); }
    if homographyCount > LH2_BASESTATION_COUNT_MAX { return Failure(TooManyMatrices); }
    var frames := SendMatrices(file, Destinations(ready));
    StreamCarriesFile(file, file[0]);
    hide Stream, AddressedTo, FiveOfEach;
    r := Success(frames);
  }

  /** Every matrix in turn, five times to every destination. */
  method SendMatrices(blob: Blob, destinations: seq<Addr>) returns (frames: seq<Frame>)
    requires NoDuplicates(destinations)
    ensures Adds([], frames, destinations, Stream(blob, seq(blob[0], _ => COMMAND_MAX_ATTEMPTS), blob[0]))
  {
    hide Adds, Stream, Words, NoDuplicates;
    ghost var fives := seq(blob[0], _ => COMMAND_MAX_ATTEMPTS);
    var matricesBytes := blob[1..];
    frames := [];
    NothingSent(destinations, blob, fives);
    for i := 0 to blob[0]
      invariant Adds([], frames, destinations, Stream(blob, fives, i))
    {
      var start := i * MATRIX_SIZE;
      var packet := Packet(blob[0], i, Words(matricesBytes[start..start + MATRIX_SIZE]));
      assert packet == BlobPacket(blob, i);
      ghost var before := frames;
      frames := SendCopies(frames, packet, destinations);
      NextPacketSent(before, frames, destinations, blob, fives, i);
    }
  }

  lemma NothingSent(destinations: seq<Addr>, blob: Blob, copies: seq<nat>)
    requires blob[0] <= |copies|
    ensures Adds([], [], destinations, Stream(blob, copies, 0))
  {
  }

  class NetworkCore {
    var magic: u32
    var hasNetId: u32
    var netId: u32
    var homographyCount: u32
    const homographies: array<u32>
    const page: array<u32>          // the configuration page
    var sharedCount: u32
    const shared: array<u32>        // lh2_calibration in shared memory
    var mariNetId: u32
    var halted: bool                // waiting for the system reset that follows a commit

    ghost predicate Valid()
      reads this
    {
      homographies.Length == ALL_WORDS && shared.Length == ALL_WORDS && page.Length == PAGE_WORDS
      && homographies != shared && homographies != page && shared != page
    }

    ghost function State(): NetState
      reads this, homographies, page, shared
      requires Valid()
    {
      NetState(Config(magic, hasNetId, netId, homographyCount, homographies[..]), page[..], sharedCount, shared[..],
        mariNetId)
    }

    /** `_load_config`: the page into RAM, the network id, and the calibration into shared memory. */
    method LoadConfig()
      requires Valid()
      modifies this, homographies, shared
      ensures Valid() && State() == Load(old(State()))
    {
      ReadPage();
      halted := false;
      if page[0] == SWARMIT_CONFIG_MAGIC_VALUE && page[1] == 1 {
        mariNetId := netId % 0x1_0000;
      } else {
        mariNetId := SWARMIT_DEFAULT_NET_ID;
      }
      if page[0] == SWARMIT_CONFIG_MAGIC_VALUE && homographyCount > 0 && homographyCount <= LH2_BASESTATION_COUNT_MAX {
        CopyToShared();
        sharedCount := homographyCount;
      }
    }

    /** The page's bytes over the structure in RAM. */
    method ReadPage()
      requires Valid()
      modifies this`magic, this`hasNetId, this`netId, this`homographyCount, homographies
      ensures Config(magic, hasNetId, netId, homographyCount, homographies[..]) == Decode(page[..])
    {
      magic, hasNetId, netId, homographyCount := page[0], page[1], page[2], page[3];
      forall k | 0 <= k < ALL_WORDS { homographies[k] := page[HEADER_WORDS + k]; }
      assert homographies[..] == page[..][HEADER_WORDS..CONFIG_WORDS];
    }

    /** The loaded matrices, entry by entry, into shared memory. */
    method CopyToShared()
      requires Valid() && ValidCount(homographyCount)
      modifies shared
      ensures var k := MATRIX_WORDS * homographyCount; shared[..] == homographies[..k] + old(shared[..])[k..]
    {
      ghost var was, from := shared[..], homographies[..];
      for idx := 0 to homographyCount
        modifies shared
        invariant CopiedUpTo(shared[..], from, was, MATRIX_WORDS * idx)
      {
        for row := 0 to 3
          modifies shared
          invariant CopiedUpTo(shared[..], from, was, MATRIX_WORDS * idx + 3 * row)
        {
          for col := 0 to 3
            modifies shared
            invariant CopiedUpTo(shared[..], from, was, MATRIX_WORDS * idx + 3 * row + col)
          {
            CopyEntry(idx, row, col, from, was);
          }
        }
      }
    }

    static predicate CopiedUpTo(now: seq<u32>, from: seq<u32>, was: seq<u32>, p: nat) {
      |now| == |from| == |was| == ALL_WORDS && p <= ALL_WORDS
      && forall k :: 0 <= k < ALL_WORDS ==> now[k] == if k < p then from[k] else was[k]
    }

    method CopyEntry(idx: nat, row: nat, col: nat, ghost from: seq<u32>, ghost was: seq<u32>)
      requires Valid() && idx < LH2_BASESTATION_COUNT_MAX && row < 3 && col < 3 && homographies[..] == from
      requires CopiedUpTo(shared[..], from, was, MATRIX_WORDS * idx + 3 * row + col)
      modifies shared
      ensures CopiedUpTo(shared[..], from, was, MATRIX_WORDS * idx + 3 * row + col + 1)
    {
      shared[MATRIX_WORDS * idx + 3 * row + col] := homographies[MATRIX_WORDS * idx + 3 * row + col];
    }

    /** A calibration packet, ignored unless the device is ready. */
    method HandleCalibration(pkt: Packet, ready: bool)
      requires Valid()
      modifies this, homographies, page
      ensures Valid() && halted == (old(halted) || (ready && Commits(pkt)))
      ensures var was := old(State()); var gathered := was.(config := Gather(was.config, pkt));
        State() == if !ready then was else if Commits(pkt) then Commit(gathered) else gathered
    {
      if !ready { return; }
      if pkt.index >= LH2_BASESTATION_COUNT_MAX { return; }
      if pkt.count == 0 || pkt.count > LH2_BASESTATION_COUNT_MAX { return; }
      if pkt.index >= pkt.count { return; }
      ghost var was := State();
      if pkt.index == 0 {
        forall k | 0 <= k < ALL_WORDS { homographies[k] := 0; }
        assert homographies[..] == ZeroMatrices();
      }
      ghost var base := homographies[..];
      homographyCount := pkt.count;
      forall k | 0 <= k < MATRIX_WORDS { homographies[MATRIX_WORDS * pkt.index + k] := pkt.matrix[k]; }
      assert homographies[..] == SetMatrix(base, pkt.index, pkt.matrix);
      assert State() == was.(config := Gather(was.config, pkt));
      if pkt.index == pkt.count - 1 {
        CommitConfig();
      }
    }

    /** `_commit_config_and_reboot`, up to the wait for the reset: erase the page and write the whole structure. */
    method CommitConfig()
      requires Valid()
      modifies this`magic, this`halted, page
      ensures Valid() && State() == Commit(old(State())) && halted
    {
      magic := SWARMIT_CONFIG_MAGIC_VALUE;
      forall k | 0 <= k < PAGE_WORDS { page[k] := BLANK_WORD; }
      ghost var blank := page[..];
      WriteConfig();
      assert page[..] == CommittedPage(Config(magic, hasNetId, netId, homographyCount, homographies[..]));
      halted := true;
    }

    /** `nvmc_write` of the structure, word by word; its size is a whole number of words. */
    method WriteConfig()
      requires Valid() && page[..] == BlankPage()
      modifies page
      ensures page[..] == CommittedPage(Config(magic, hasNetId, netId, homographyCount, homographies[..]))
    {
      hide BitAnd;
      var data := [magic, hasNetId, netId, homographyCount] + homographies[..];
      for i := 0 to CONFIG_WORDS
        invariant homographies[..] == data[HEADER_WORDS..]
        invariant forall k :: 0 <= k < PAGE_WORDS ==> page[k] == if k < i then data[k] else BLANK_WORD
      {
        BlankTakesWord(data[i]);
        page[i] := BitAnd(page[i], data[i]);
      }
    }
  }
}
