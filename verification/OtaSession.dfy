/** What any run of packets and resets does to one device: erasing, writing once, and finishing. */
module OtaSession {
  import opened Basics
  import opened Flash
  import opened OtaDevice
  import opened Firmware

  /** The packets of `reqs`, each handled to the end before the next. */
  function Run(d: Device, reqs: seq<Request>, sha: DigestFunction): (r: Outcome)
    requires d.Valid()
    ensures r.dev.Valid()
    decreases |reqs|
  {
    if reqs == [] then Outcome(d, [])
    else
      var first := Pass(d, reqs[0], sha);
      var rest := Run(first.dev, reqs[1..], sha);
      Outcome(rest.dev, first.acks + rest.acks)
  }

  // ----- erase flag

  datatype Event = Packet(req: Request) | Reset(user: bool)

  function Step(d: Device, ev: Event, sha: DigestFunction): (r: Outcome)
    requires d.Valid()
    ensures r.dev.Valid()
  {
    match ev
    case Packet(req) => Pass(d, req, sha)
    case Reset(user) => Outcome(Boot(d, user), [])
  }

  /** Packets, each handled to the end before the next, and resets in between. */
  function Replay(d: Device, events: seq<Event>, sha: DigestFunction): (r: Outcome)
    requires d.Valid()
    ensures r.dev.Valid()
    decreases |events|
  {
    if events == [] then Outcome(d, [])
    else
      var first := Step(d, events[0], sha);
      var rest := Replay(first.dev, events[1..], sha);
      Outcome(rest.dev, first.acks + rest.acks)
  }

  lemma {:induction false} ReplayConcat(d: Device, xs: seq<Event>, ys: seq<Event>, sha: DigestFunction)
    requires d.Valid()
    ensures Replay(d, xs + ys, sha).dev == Replay(Replay(d, xs, sha).dev, ys, sha).dev
    ensures Replay(d, xs + ys, sha).acks == Replay(d, xs, sha).acks + Replay(Replay(d, xs, sha).dev, ys, sha).acks
    decreases |xs|
  {
    hide Step;
    if xs == [] {
      assert xs + ys == ys;
    } else {
      ReplayConcat(Step(d, xs[0], sha).dev, xs[1..], ys, sha);
      assert (xs + ys)[1..] == xs[1..] + ys;
      assert (xs + ys)[0] == xs[0];
    }
  }

  lemma ReplayOne(d: Device, ev: Event, sha: DigestFunction)
    requires d.Valid()
    ensures Replay(d, [ev], sha) == Step(d, ev, sha)
  {
    hide Step;
    var r := Step(d, ev, sha);
    assert [ev][1..] == [];
    assert Replay(r.dev, [], sha) == Outcome(r.dev, []);
    assert r.acks + [] == r.acks;
  }

  /** While the erase flag is clear, every page of the last erase is still blank. */
  ghost predicate EraseFlagInv(d: Device) {
    !d.requireErase ==> Blank(d.flash, d.covered)
  }

  lemma ServiceKeepsEraseFlagInv(d: Device)
    requires d.Valid() && EraseFlagInv(d)
    ensures EraseFlagInv(Service(d).dev)
  {
    if d.startRequest && d.requireErase {
      ErasingPages(d.flash, PagesCount(d.imageSize));
    }
  }

  /** Over all runs of packets and resets the erase flag keeps its meaning. */
  lemma {:induction false} EraseFlagInvariant(d: Device, events: seq<Event>, sha: DigestFunction)
    requires d.Valid() && EraseFlagInv(d)
    ensures EraseFlagInv(Replay(d, events, sha).dev)
    decreases |events|
  {
    if events != [] {
      match events[0] {
        case Packet(req) => ServiceKeepsEraseFlagInv(Receive(d, req, sha));
        case Reset(_) =>
      }
      EraseFlagInvariant(Step(d, events[0], sha).dev, events[1..], sha);
    }
  }

  /** A START is acknowledged on blank pages exactly when it erased them or found them blank,
      which an erase at least as large guarantees. */
  lemma StartAckOnBlankPages(d: Device, size: u32, count: u32, sha: DigestFunction)
    requires d.Valid() && d.Quiet() && d.AcceptsUpdate() && EraseFlagInv(d)
    ensures var r := Pass(d, OtaStart(size, count), sha);
      && r.acks == [StartAck]
      && (Blank(r.dev.flash, PagesCount(size)) <==> d.requireErase || Blank(d.flash, PagesCount(size)))
      && (PagesCount(size) <= d.covered ==> Blank(r.dev.flash, PagesCount(size)))
  {
    if d.requireErase {
      ErasingPages(d.flash, PagesCount(size));
    }
  }

  /** A second START for a larger image, with no chunk in between, is acknowledged without erasing
      the extra pages: here the second page keeps its old contents. */
  lemma LargerSecondStartKeepsOldPages(d: Device, sha: DigestFunction)
    requires d.Valid() && d.Quiet() && d.AcceptsUpdate() && d.requireErase && d.flash[0x11000] == 0
    ensures var r := Run(d, [OtaStart(4096, 32), OtaStart(8192, 64)], sha);
      r.acks == [StartAck, StartAck] && !Blank(r.dev.flash, PagesCount(8192))
  {
    var first, second := OtaStart(4096, 32), OtaStart(8192, 64);
    var one := Pass(d, first, sha);
    ErasingPages(d.flash, 1);
    assert one.dev.flash[0x11000] == 0;
    var two := Pass(one.dev, second, sha);
    assert two.dev.flash == one.dev.flash;
    assert [first, second][1..] == [second];
    assert Run(two.dev, [], sha) == Outcome(two.dev, []);
    assert [second][1..] == [];
    assert Run(one.dev, [second], sha) == Outcome(two.dev, two.acks + []);
  }

  /** However many STARTs come before the first chunk, only the first one can erase. */
  lemma {:induction false} RepeatedStartsEraseOnce(d: Device, starts: seq<Request>, sha: DigestFunction)
    requires d.Valid() && d.Quiet() && d.AcceptsUpdate() && starts != []
    requires forall k :: 0 <= k < |starts| ==> starts[k].OtaStart?
    ensures Run(d, starts, sha).dev.flash == Pass(d, starts[0], sha).dev.flash
    ensures |Run(d, starts, sha).acks| == |starts|
    decreases |starts|
  {
    var first, rest := Pass(d, starts[0], sha), starts[1..];
    if rest != [] {
      RepeatedStartsEraseOnce(first.dev, rest, sha);
      assert Pass(first.dev, rest[0], sha).dev.flash == first.dev.flash;
    } else {
      assert Run(first.dev, rest, sha) == Outcome(first.dev, []);
    }
  }

  /** Since a reset no chunk changes flash or is acknowledged until a START has been accepted. */
  lemma {:induction false} NothingBeforeStart(d: Device, user: bool, reqs: seq<Request>, sha: DigestFunction)
    requires d.Valid() && forall k :: 0 <= k < |reqs| ==> reqs[k].OtaChunk?
    ensures var r := Run(Boot(d, user), reqs, sha); r.dev.flash == d.flash && r.acks == []
  {
    NoCountNoChunk(Boot(d, user), reqs, sha);
  }

  lemma {:induction false} NoCountNoChunk(d: Device, reqs: seq<Request>, sha: DigestFunction)
    requires d.Valid() && d.Quiet() && d.chunkCount == 0 && forall k :: 0 <= k < |reqs| ==> reqs[k].OtaChunk?
    ensures var r := Run(d, reqs, sha); r.dev.flash == d.flash && r.acks == []
    decreases |reqs|
  {
    if reqs != [] {
      NoCountNoChunk(Pass(d, reqs[0], sha).dev, reqs[1..], sha);
    }
  }

  /** Update packets count in READY and PROGRAMMING only: there a START is always acknowledged, and in every other
      status the device does nothing at all. */
  lemma UpdatesNeedReadyOrProgramming(d: Device, req: Request, sha: DigestFunction)
    requires d.Valid() && d.Quiet()
    ensures d.status == Ready || d.status == Programming ==>
      (req.OtaStart? ==> Pass(d, req, sha).acks == [StartAck] && Pass(d, req, sha).dev.status == Programming)
    ensures d.status == Running || d.status == Stopping || d.status == Resetting ==> Pass(d, req, sha) == Outcome(d, [])
  {
  }

  // ----- writing

  /** A packet of the session for image `fw`: its START, or a chunk packet whose digest matches its
      bytes only when the bytes are those of the chunk. Chunk bytes, digests and indices past the
      end are otherwise arbitrary. */
  predicate SessionFrame(req: Request, fw: Image, sha: DigestFunction) {
    match req
    case OtaStart(size, count) => size == |fw| && count == ChunksCount(|fw|)
    case OtaChunk(index, data, digest) =>
      index < ChunksCount(|fw|) && sha(data) == digest ==> data == ChunkOf(fw, index, sha).data
  }

  predicate SessionChunk(req: Request, fw: Image, sha: DigestFunction) {
    req.OtaChunk? && SessionFrame(req, fw, sha)
  }

  /** The device has accepted this image's START and nothing has reset it since. */
  predicate InSession(d: Device, fw: Image) {
    d.Valid() && d.Quiet() && d.AcceptsUpdate() && d.imageSize == |fw| && d.chunkCount == ChunksCount(|fw|)
  }

  /** The chunks acknowledged in `acks`. */
  function AckedIn(acks: seq<Ack>): set<nat> {
    if acks == [] then {}
    else (if acks[0].ChunkAck? then {acks[0].index as nat} else {}) + AckedIn(acks[1..])
  }

  predicate Verified(req: Request, fw: Image, sha: DigestFunction) {
    req.OtaChunk? && req.index < ChunksCount(|fw|) && sha(req.data) == req.sha
  }

  /** The chunks that arrived intact at least once. */
  function VerifiedIn(reqs: seq<Request>, fw: Image, sha: DigestFunction): set<nat> {
    if reqs == [] then {}
    else (if Verified(reqs[0], fw, sha) then {reqs[0].index as nat} else {}) + VerifiedIn(reqs[1..], fw, sha)
  }

  /** The last acked index, if there is one, is among `which`. */
  predicate LastIn(d: Device, which: set<nat>) {
    d.lastAcked == -1 || (0 <= d.lastAcked && d.lastAcked as nat in which)
  }

  /** One chunk packet in session: acked exactly if it verifies or repeats the last ack, and then written once. */
  lemma ChunkPass(d: Device, req: Request, fw: Image, sha: DigestFunction)
    requires InSession(d, fw) && SessionChunk(req, fw, sha) && d.lastAcked >= -1
    ensures var r := Pass(d, req, sha); var i := req.index;
      && InSession(r.dev, fw) && r.dev.lastAcked >= -1
      && (if i < ChunksCount(|fw|) && (Verified(req, fw, sha) || d.lastAcked == i)
          then r.acks == [ChunkAck(i)] && r.dev.lastAcked == i
               && r.dev.status == (if i == ChunksCount(|fw|) - 1 then Ready else d.status)
          else r.acks == [] && r.dev.lastAcked == d.lastAcked && r.dev.status == d.status)
      && r.dev.flash == (if Verified(req, fw, sha) && d.lastAcked != i
          then Programmed(d.flash, ChunkAddress(i), req.data + d.chunk[|req.data|..], ChunkSize(|fw|, i) / 4)
          else d.flash)
  {
  }

  /** The same pass seen from the chunks already written. */
  lemma ChunkPassWritesOnce(d: Device, req: Request, fw: Image, sha: DigestFunction, mem: seq<bv8>, which: set<nat>)
    requires InSession(d, fw) && LastIn(d, which) && |mem| == FLASH_SIZE && d.flash == WriteOnce(mem, fw, which)
    requires SessionChunk(req, fw, sha)
    ensures var r := Pass(d, req, sha);
      var now := if Verified(req, fw, sha) then which + {req.index as nat} else which;
      && InSession(r.dev, fw) && LastIn(r.dev, now) && r.dev.flash == WriteOnce(mem, fw, now)
      && AckedIn(r.acks) <= now && (Verified(req, fw, sha) ==> req.index in AckedIn(r.acks))
      && r.dev.status == (if ChunksCount(|fw|) - 1 in AckedIn(r.acks) then Ready else d.status)
  {
    hide Pass, WriteOnce, Programmed, ChunkAddress;
    ChunkPass(d, req, fw, sha);
    if Verified(req, fw, sha) {
      if d.lastAcked != req.index {
        var buffer := req.data + d.chunk[|req.data|..];
        assert buffer[..|req.data|] == req.data;
        WritingAChunk(mem, fw, which, req.index, buffer);
      } else {
        assert which + {req.index as nat} == which;
      }
    }
  }

  /** Any finite run of session chunk packets, in any order, repeated, corrupted or out of range:
      exactly the chunks that arrived intact are acked, and flash is what writing each of them once leaves. */
  lemma {:induction false} RunWritesOnce(d: Device, reqs: seq<Request>, fw: Image, sha: DigestFunction,
                                         mem: seq<bv8>, which: set<nat>)
    requires InSession(d, fw) && LastIn(d, which) && |mem| == FLASH_SIZE && d.flash == WriteOnce(mem, fw, which)
    requires forall k :: 0 <= k < |reqs| ==> SessionChunk(reqs[k], fw, sha)
    ensures var r := Run(d, reqs, sha);
      && InSession(r.dev, fw) && LastIn(r.dev, which + AckedIn(r.acks))
      && AckedIn(r.acks) <= which + VerifiedIn(reqs, fw, sha)
      && VerifiedIn(reqs, fw, sha) <= AckedIn(r.acks)
      && r.dev.flash == WriteOnce(mem, fw, which + VerifiedIn(reqs, fw, sha))
      && r.dev.status == (if ChunksCount(|fw|) - 1 in AckedIn(r.acks) then Ready else d.status)
    decreases |reqs|
  {
    if reqs != [] {
      hide Pass, WriteOnce;
      var req, first := reqs[0], Pass(d, reqs[0], sha);
      var here := if Verified(req, fw, sha) then which + {req.index as nat} else which;
      ChunkPassWritesOnce(d, req, fw, sha, mem, which);
      RunWritesOnce(first.dev, reqs[1..], fw, sha, mem, here);
      AckedSplit(first.acks, Run(first.dev, reqs[1..], sha).acks);
      assert here + VerifiedIn(reqs[1..], fw, sha) == which + VerifiedIn(reqs, fw, sha);
    } else {
      assert which + VerifiedIn(reqs, fw, sha) == which;
    }
  }

  lemma {:induction false} AckedSplit(xs: seq<Ack>, ys: seq<Ack>)
    ensures AckedIn(xs + ys) == AckedIn(xs) + AckedIn(ys)
  {
    if xs == [] {
      assert xs + ys == ys;
    } else {
      assert (xs + ys)[0] == xs[0];
      assert (xs + ys)[1..] == xs[1..] + ys;
      AckedSplit(xs[1..], ys);
    }
  }

  /** Flash after writing the chunks of `order` one by one. */
  function WriteAll(mem: seq<bv8>, fw: Image, order: seq<nat>): (r: seq<bv8>)
    requires forall k :: 0 <= k < |order| ==> order[k] < ChunksCount(|fw|)
    ensures |r| == |mem|
    decreases |order|
  {
    if order == [] then mem
    else
      var i := order[|order| - 1];
      var words := ChunkSize(|fw|, i) / 4;
      Programmed(WriteAll(mem, fw, order[..|order| - 1]), ChunkAddress(i), ChunkData(fw, i), words)
  }

  /** The order and the number of writes do not matter, only which chunks are written. */
  lemma {:induction false} WriteOrderIrrelevant(mem: seq<bv8>, fw: Image, order: seq<nat>)
    requires |mem| == FLASH_SIZE && forall k :: 0 <= k < |order| ==> order[k] < ChunksCount(|fw|)
    ensures WriteAll(mem, fw, order) == WriteOnce(mem, fw, Elements(order))
    decreases |order|
  {
    if order == [] {
      assert Elements(order) == {} && WriteOnce(mem, fw, {}) == mem;
    } else {
      hide WriteOnce, Programmed, ChunkAddress, ChunkData, ChunkSize;
      var front, i := order[..|order| - 1], order[|order| - 1];
      WriteOrderIrrelevant(mem, fw, front);
      assert Elements(order) == Elements(front) + {i};
      assert ChunkData(fw, i)[..ChunkSize(|fw|, i)] == ChunkData(fw, i);
      WritingAChunk(mem, fw, Elements(front), i, ChunkData(fw, i));
    }
  }

  /** Between two accepted STARTs: the acked chunks are those that arrived intact, and flash is what
      writing each of them exactly once, in whatever order, leaves. */
  lemma DedupRefinesWriteOnce(d: Device, reqs: seq<Request>, fw: Image, sha: DigestFunction, order: seq<nat>)
    requires InSession(d, fw) && d.lastAcked == -1
    requires forall k :: 0 <= k < |reqs| ==> SessionChunk(reqs[k], fw, sha)
    requires Elements(order) == VerifiedIn(reqs, fw, sha)
    requires NoDuplicates(order)
    ensures var r := Run(d, reqs, sha);
      && AckedIn(r.acks) == VerifiedIn(reqs, fw, sha)
      && (forall k :: 0 <= k < |order| ==> order[k] < ChunksCount(|fw|))
      && r.dev.flash == WriteAll(d.flash, fw, order)
  {
    RunFromNothing(d, reqs, fw, sha);
    VerifiedBound(reqs, fw, sha);
    assert forall k :: 0 <= k < |order| ==> order[k] in Elements(order);
    WriteOrderIrrelevant(d.flash, fw, order);
  }

  lemma RunFromNothing(d: Device, reqs: seq<Request>, fw: Image, sha: DigestFunction)
    requires InSession(d, fw) && d.lastAcked == -1
    requires forall k :: 0 <= k < |reqs| ==> SessionChunk(reqs[k], fw, sha)
    ensures var r := Run(d, reqs, sha);
      && InSession(r.dev, fw)
      && AckedIn(r.acks) == VerifiedIn(reqs, fw, sha)
      && r.dev.flash == WriteOnce(d.flash, fw, VerifiedIn(reqs, fw, sha))
      && r.dev.status == (if ChunksCount(|fw|) - 1 in AckedIn(r.acks) then Ready else d.status)
  {
    assert d.flash == WriteOnce(d.flash, fw, {});
    hide WriteOnce;
    RunWritesOnce(d, reqs, fw, sha, d.flash, {});
    assert {} + VerifiedIn(reqs, fw, sha) == VerifiedIn(reqs, fw, sha);
  }

  lemma {:induction false} VerifiedAt(reqs: seq<Request>, k: nat, fw: Image, sha: DigestFunction)
    requires k < |reqs| && Verified(reqs[k], fw, sha)
    ensures reqs[k].index in VerifiedIn(reqs, fw, sha)
    decreases k
  {
    if k > 0 {
      VerifiedAt(reqs[1..], k - 1, fw, sha);
    }
  }

  lemma {:induction false} VerifiedBound(reqs: seq<Request>, fw: Image, sha: DigestFunction)
    ensures forall i :: i in VerifiedIn(reqs, fw, sha) ==> i < ChunksCount(|fw|)
  {
    if reqs != [] {
      VerifiedBound(reqs[1..], fw, sha);
    }
  }

  // ----- whole sessions

  lemma {:induction false} RunConcat(d: Device, xs: seq<Request>, ys: seq<Request>, sha: DigestFunction)
    requires d.Valid()
    ensures Run(d, xs + ys, sha).dev == Run(Run(d, xs, sha).dev, ys, sha).dev
    ensures Run(d, xs + ys, sha).acks == Run(d, xs, sha).acks + Run(Run(d, xs, sha).dev, ys, sha).acks
    decreases |xs|
  {
    hide Pass;
    if xs == [] {
      assert xs + ys == ys;
    } else {
      RunConcat(Pass(d, xs[0], sha).dev, xs[1..], ys, sha);
      assert (xs + ys)[1..] == xs[1..] + ys;
      assert (xs + ys)[0] == xs[0];
    }
  }

  /** The image's pages are blank, or will be when a START arrives. */
  ghost predicate Covered(d: Device, fw: Image) {
    d.AcceptsUpdate() ==> d.requireErase || Blank(d.flash, PagesCount(|fw|))
  }

  lemma StartPass(d: Device, req: Request, fw: Image, sha: DigestFunction)
    requires d.Valid() && d.Quiet() && d.AcceptsUpdate() && Covered(d, fw) && req.OtaStart?
      && SessionFrame(req, fw, sha)
    ensures var r := Pass(d, req, sha);
      InSession(r.dev, fw) && r.acks == [StartAck] && r.dev.lastAcked == -1 && r.dev.status == Programming
      && Blank(r.dev.flash, PagesCount(|fw|)) && HoldsChunks(r.dev.flash, fw, {})
  {
    if d.requireErase {
      ErasingPages(d.flash, PagesCount(|fw|));
    }
  }

  lemma {:induction false} StartsRun(d: Device, starts: seq<Request>, fw: Image, sha: DigestFunction)
    requires d.Valid() && d.Quiet() && d.AcceptsUpdate() && Covered(d, fw) && starts != []
    requires forall k :: 0 <= k < |starts| ==> starts[k].OtaStart? && SessionFrame(starts[k], fw, sha)
    ensures var r := Run(d, starts, sha);
      InSession(r.dev, fw) && r.dev.lastAcked == -1 && r.dev.status == Programming
      && Blank(r.dev.flash, PagesCount(|fw|)) && AckedIn(r.acks) == {}
    decreases |starts|
  {
    StartPass(d, starts[0], fw, sha);
    var first, rest := Pass(d, starts[0], sha), starts[1..];
    if rest == [] {
      assert Run(first.dev, rest, sha) == Outcome(first.dev, []);
    } else {
      StartsRun(first.dev, rest, fw, sha);
    }
    AckedSplit(first.acks, Run(first.dev, rest, sha).acks);
    assert AckedIn(first.acks) == {};
  }

  /** A whole session on one device, with its packets in order: the acked chunks are the ones that
      arrived intact, and the image's pages hold exactly those. */
  lemma SessionHoldsAckedChunks(d: Device, starts: seq<Request>, chunks: seq<Request>, fw: Image, sha: DigestFunction)
    requires d.Valid() && d.Quiet() && d.AcceptsUpdate() && Covered(d, fw) && starts != []
    requires forall k :: 0 <= k < |starts| ==> starts[k].OtaStart? && SessionFrame(starts[k], fw, sha)
    requires forall k :: 0 <= k < |chunks| ==> SessionChunk(chunks[k], fw, sha)
    ensures var r := Run(d, starts + chunks, sha);
      && InSession(r.dev, fw)
      && AckedIn(r.acks) == VerifiedIn(chunks, fw, sha)
      && HoldsChunks(r.dev.flash, fw, AckedIn(r.acks))
      && r.dev.status == (if ChunksCount(|fw|) - 1 in AckedIn(r.acks) then Ready else Programming)
  {
    hide WriteOnce, Pass, HoldsChunks, Blank, Run, VerifiedIn, AckedIn, SessionFrame;
    RunConcat(d, starts, chunks, sha);
    StartsRun(d, starts, fw, sha);
    var s := Run(d, starts, sha);
    RunFromNothing(s.dev, chunks, fw, sha);
    OnBlankPages(s.dev.flash, fw, VerifiedIn(chunks, fw, sha));
    AckedSplit(s.acks, Run(s.dev, chunks, sha).acks);
  }

  /** If every chunk of a non-empty image arrives intact at least once, all are acked, the image is
      installed and the device is ready again. */
  lemma IntactSessionInstalls(d: Device, starts: seq<Request>, chunks: seq<Request>, fw: Image, sha: DigestFunction)
    requires d.Valid() && d.Quiet() && d.AcceptsUpdate() && Covered(d, fw) && starts != [] && fw != []
    requires forall k :: 0 <= k < |starts| ==> starts[k].OtaStart? && SessionFrame(starts[k], fw, sha)
    requires forall k :: 0 <= k < |chunks| ==> SessionChunk(chunks[k], fw, sha)
    requires Complete(VerifiedIn(chunks, fw, sha), fw)
    ensures var r := Run(d, starts + chunks, sha);
      Complete(AckedIn(r.acks), fw) && HoldsImage(r.dev.flash, fw) && r.dev.status == Ready
  {
    SessionHoldsAckedChunks(d, starts, chunks, fw, sha);
    var r := Run(d, starts + chunks, sha);
    AllChunksAreTheImage(r.dev.flash, fw, AckedIn(r.acks));
  }

  /** A lost ack of the last chunk: its retransmission, even damaged, is acked again by the ready
      device, which writes nothing. */
  lemma LastChunkIsReacked(d: Device, req: Request, fw: Image, sha: DigestFunction)
    requires InSession(d, fw) && d.status == Ready && d.lastAcked == ChunksCount(|fw|) - 1 && d.lastAcked >= 0
    requires SessionChunk(req, fw, sha) && req.index == ChunksCount(|fw|) - 1
    ensures var r := Pass(d, req, sha);
      r.acks == [ChunkAck(req.index)] && r.dev.flash == d.flash && r.dev.status == Ready && InSession(r.dev, fw)
  {
    ChunkPass(d, req, fw, sha);
  }

  // ----- range

  /** A packet the host can send for `fw`, whatever happened to its bytes and digest. */
  predicate InRange(req: Request, fw: Image) {
    match req
    case OtaStart(size, _) => size == |fw|
    case OtaChunk(index, _, _) => index < ChunksCount(|fw|)
  }

  /** Whether the image reaches into the page of byte `a`: the page starts at or after 0x10000 and before the
      image's end. */
  predicate ImageReachesPageOf(a: int, fw: seq<bv8>) {
    0x10000 <= a && (a - 0x10000) / 4096 * 4096 < |fw|
  }

  lemma ImagePagesExact(a: int, fw: Image)
    ensures InImagePages(a, PagesCount(|fw|)) <==> ImageReachesPageOf(a, fw)
  {
    PagesCountExact(|fw|);
  }

  /** Over any run of such packets and resets, from any state, flash changes only in pages the image reaches into. */
  lemma OnlyImagePagesChange(d: Device, events: seq<Event>, fw: Image, sha: DigestFunction)
    requires d.Valid() && d.Quiet()
    requires forall k :: 0 <= k < |events| && events[k].Packet? ==> InRange(events[k].req, fw)
    ensures forall a :: 0 <= a < FLASH_SIZE && !ImageReachesPageOf(a, fw) ==>
      Replay(d, events, sha).dev.flash[a] == d.flash[a]
  {
    OnlyCountedPagesChange(d, events, fw, sha);
    forall a | 0 <= a < FLASH_SIZE && !ImageReachesPageOf(a, fw)
      ensures Replay(d, events, sha).dev.flash[a] == d.flash[a] {
      ImagePagesExact(a, fw);
    }
  }

  lemma {:induction false} OnlyCountedPagesChange(d: Device, events: seq<Event>, fw: Image, sha: DigestFunction)
    requires d.Valid() && d.Quiet()
    requires forall k :: 0 <= k < |events| && events[k].Packet? ==> InRange(events[k].req, fw)
    ensures forall a :: 0 <= a < FLASH_SIZE && !InImagePages(a, PagesCount(|fw|)) ==>
      Replay(d, events, sha).dev.flash[a] == d.flash[a]
    decreases |events|
  {
    if events != [] {
      var next := Step(d, events[0], sha).dev;
      match events[0] {
        case Packet(req) => PassStaysInside(d, req, fw, sha);
        case Reset(_) =>
      }
      OnlyCountedPagesChange(next, events[1..], fw, sha);
    }
  }

  lemma PassStaysInside(d: Device, req: Request, fw: Image, sha: DigestFunction)
    requires d.Valid() && d.Quiet() && InRange(req, fw)
    ensures var r := Pass(d, req, sha);
      r.dev.Quiet() && forall a :: 0 <= a < FLASH_SIZE && !InImagePages(a, PagesCount(|fw|)) ==>
        r.dev.flash[a] == d.flash[a]
  {
    if req.OtaStart? {
      ErasingPages(d.flash, PagesCount(|fw|));
    } else {
      forall data: seq<bv8>, words: nat | |data| == SWRMT_OTA_CHUNK_SIZE && 4 * words <= |data| {
        ChunkWriteStaysInside(d.flash, fw, req.index, data, words);
      }
      hide Programmed;
    }
  }

  lemma ChunkWriteStaysInside(mem: seq<bv8>, fw: Image, index: nat, data: seq<bv8>, words: nat)
    requires |mem| == FLASH_SIZE && index < ChunksCount(|fw|) && 4 * words <= |data| == SWRMT_OTA_CHUNK_SIZE
    ensures forall a :: 0 <= a < FLASH_SIZE && !InImagePages(a, PagesCount(|fw|)) ==>
      Programmed(mem, ChunkAddress(index), data, words)[a] == mem[a]
  {
    forall a | 0 <= a < FLASH_SIZE && !InImagePages(a, PagesCount(|fw|))
      ensures Programmed(mem, ChunkAddress(index), data, words)[a] == mem[a]
    {
      OutsideChunk(fw, index, a);
      hide Offset, ChunkAddress, InImagePages;
    }
  }

  /** A byte outside the image's pages is further from a chunk's start than the chunk is long. */
  lemma OutsideChunk(fw: Image, index: nat, a: nat)
    requires index < ChunksCount(|fw|) && a < FLASH_SIZE && !InImagePages(a, PagesCount(|fw|))
    ensures Offset(a, ChunkAddress(index)) >= SWRMT_OTA_CHUNK_SIZE
  {
    var start := SWARMIT_BASE_ADDRESS + SWRMT_OTA_CHUNK_SIZE * index;
    assert ChunkAddress(index) == start;
    if a < start { OffsetBelow(a, start); } else { OffsetInRange(a, start); }
    hide Offset;
    PagesCountExact(|fw|);
  }
}
