/** The nRF5340 pair: the network core handles packets into shared memory and rings a doorbell; an
    interrupt turns doorbells into request flags; the application core serves the flags. Packets
    may arrive faster than they are served, doorbells coalesce, and a reset may fall between any two turns. */
module DualCore {
  import opened Firmware
  import opened Flash
  import opened HostLog
  import opened Network
  import opened OtaDevice
  import opened OtaSession

  /** `dev` holds the shared memory and the application core's flags; the bells have not reached it yet. */
  datatype Dual = Dual(dev: Device, startBell: bool, chunkBell: bool)
  {
    predicate StartPending() { startBell || dev.startRequest }
    predicate ChunkPending() { chunkBell || dev.chunkRequest }
    predicate Quiet() { !StartPending() && !ChunkPending() }
  }

  datatype Turn = Net(req: Request) | Interrupt | App | Restart(user: bool)

  /** One packet on the network core. */
  function NetTurn(x: Dual, req: Request, sha: DigestFunction): (r: Dual)
    requires x.dev.Valid()
    ensures r.dev.Valid()
  {
    var d := Receive(x.dev.(startRequest := false, chunkRequest := false), req, sha);
    Dual(d.(startRequest := x.dev.startRequest, chunkRequest := x.dev.chunkRequest),
         x.startBell || d.startRequest, x.chunkBell || d.chunkRequest)
  }

  /** The application core's interrupt handler. */
  function InterruptTurn(x: Dual): Dual {
    Dual(x.dev.(startRequest := x.StartPending(), chunkRequest := x.ChunkPending()), false, false)
  }

  datatype DualOutcome = DualOutcome(x: Dual, acks: seq<Ack>)

  function TurnStep(x: Dual, t: Turn, sha: DigestFunction): (r: DualOutcome)
    requires x.dev.Valid()
    ensures r.x.dev.Valid()
  {
    match t
    case Net(req) => DualOutcome(NetTurn(x, req, sha), [])
    case Interrupt => DualOutcome(InterruptTurn(x), [])
    case App => var r := Service(x.dev); DualOutcome(x.(dev := r.dev), r.acks)
    case Restart(user) => DualOutcome(Dual(Boot(x.dev, user), false, false), [])
  }

  function DualRun(x: Dual, turns: seq<Turn>, sha: DigestFunction): (r: DualOutcome)
    requires x.dev.Valid()
    ensures r.x.dev.Valid()
    decreases |turns|
  {
    if turns == [] then DualOutcome(x, [])
    else
      var first := TurnStep(x, turns[0], sha);
      var rest := DualRun(first.x, turns[1..], sha);
      DualOutcome(rest.x, first.acks + rest.acks)
  }

  /** The code of both cores. `mem` is the memory they share, with the application core's flags and flash. */
  class CorePair {
    const mem: Bootloader
    var startBell: bool
    var chunkBell: bool

    ghost predicate Valid()
      reads this, mem
    {
      mem.Valid()
    }

    ghost function State(): (x: Dual)
      reads this, mem, mem.chunk, mem.flash
      requires Valid()
      ensures x.dev.Valid()
    {
      Dual(mem.State(), startBell, chunkBell)
    }

    constructor (mem: Bootloader)
      requires mem.Valid()
      ensures Valid() && this.mem == mem && !startBell && !chunkBell
    {
      this.mem, startBell, chunkBell := mem, false, false;
    }

    /** The network core's packet handler: like the single-core one, but it rings doorbells. */
    method HandlePacket(req: Request)
      requires Valid()
      modifies this, mem`status, mem`imageSize, mem`chunkCount, mem`chunkIndex, mem`chunkSize, mem`lastAcked, mem.chunk
      ensures Valid() && State() == NetTurn(old(State()), req, mem.sha) && mem.tx == old(mem.tx)
    {
      match req
      case OtaStart(size, count) => HandleStart(size, count);
      case OtaChunk(index, data, digest) => HandleChunk(index, data, digest);
    }

    method HandleStart(size: u32, count: u32)
      requires Valid()
      modifies this`startBell, mem`status, mem`imageSize, mem`chunkCount, mem`lastAcked
      ensures Valid() && State() == NetTurn(old(State()), OtaStart(size, count), mem.sha)
    {
      if mem.status != Ready && mem.status != Programming { return; }
      mem.lastAcked := -1;
      mem.status := Programming;
      mem.imageSize := size;
      mem.chunkCount := count;
      startBell := true;
    }

    method HandleChunk(index: u32, data: ChunkBytes, digest: Digest)
      requires Valid()
      modifies this`chunkBell, mem`chunkIndex, mem`chunkSize, mem.chunk
      ensures Valid() && State() == NetTurn(old(State()), OtaChunk(index, data, digest), mem.sha)
    {
      if mem.status != Programming && mem.status != Ready { return; }
      mem.chunkIndex := index;
      if mem.chunkIndex >= mem.chunkCount { return; }
      if mem.lastAcked != ToInt32(mem.chunkIndex) {
        mem.StoreChunk(data);
        if mem.sha(mem.chunk[..mem.chunkSize]) != digest { return; }
      }
      chunkBell := true;
    }

    /** The application core's interrupt handler: each doorbell that has rung becomes a flag. */
    method HandleInterrupt()
      requires Valid()
      modifies this, mem`startRequest, mem`chunkRequest
      ensures Valid() && State() == InterruptTurn(old(State())) && mem.tx == old(mem.tx)
    {
      if startBell {
        startBell := false;
        mem.startRequest := true;
      }
      if chunkBell {
        chunkBell := false;
        mem.chunkRequest := true;
      }
    }

    /** The application core's two request blocks. */
    method ServeRequests()
      requires Valid()
      modifies mem, mem.flash
      ensures Valid() && var r := TurnStep(old(State()), App, mem.sha); State() == r.x && mem.tx == old(mem.tx) + r.acks
    {
      mem.ServiceOtaStart();
      mem.ServiceOtaChunk();
    }
  }

  function PacketOf(t: Turn): seq<Request> {
    if t.Net? then [t.req] else []
  }

  function Packets(turns: seq<Turn>): seq<Request> {
    if turns == [] then [] else PacketOf(turns[0]) + Packets(turns[1..])
  }

  function EventOf(t: Turn): seq<Event> {
    match t
    case Net(req) => [Packet(req)]
    case Restart(user) => [Reset(user)]
    case _ => []
  }

  /** The packets sent to the pair and its resets, in order. */
  function Events(turns: seq<Turn>): seq<Event> {
    if turns == [] then [] else EventOf(turns[0]) + Events(turns[1..])
  }

  /** The shared buffer would be handed over with contents that were not accepted: a chunk packet that
      gets as far as its index, but fails the range check or its digest. */
  predicate Rejected(d: Device, req: Request, sha: DigestFunction) {
    req.OtaChunk? && d.AcceptsUpdate()
    && (req.index >= d.chunkCount || (d.lastAcked != ToInt32(req.index) && sha(req.data) != req.sha))
  }

  /** The condition under which the pair keeps up: while a chunk is waiting to be served, no START is
      accepted and no chunk packet is rejected. */
  predicate Orderly(x: Dual, req: Request, sha: DigestFunction) {
    x.ChunkPending() ==> !(req.OtaStart? && x.dev.AcceptsUpdate()) && !Rejected(x.dev, req, sha)
  }

  predicate OrderlyRun(x: Dual, turns: seq<Turn>, sha: DigestFunction)
    requires x.dev.Valid()
    decreases |turns|
  {
    turns != [] ==>
      (turns[0].Net? ==> Orderly(x, turns[0].req, sha)) && OrderlyRun(TurnStep(x, turns[0], sha).x, turns[1..], sha)
  }

  /** The interrupt handler runs before the application core's loop goes on. */
  predicate Prompt(x: Dual, turns: seq<Turn>, sha: DigestFunction)
    requires x.dev.Valid()
    decreases |turns|
  {
    turns != [] ==>
      (turns[0].App? ==> !x.startBell && !x.chunkBell) && Prompt(TurnStep(x, turns[0], sha).x, turns[1..], sha)
  }

  /** `xs` is `ys` with packets left out and, if `repeats`, packets handled more than once, in the same order and with
      every reset in its place. */
  predicate Follows(xs: seq<Event>, ys: seq<Event>, repeats: bool)
    decreases |xs| + |ys|
  {
    if ys == [] then xs == []
    else
      || (xs != [] && xs[0] == ys[0] && Follows(xs[1..], if repeats && ys[0].Packet? then ys else ys[1..], repeats))
      || (ys[0].Packet? && Follows(xs, ys[1..], repeats))
  }

  // ----- simulation

  /** The accepted packets not yet served. */
  datatype Pending = Pending(start: seq<Request>, chunk: seq<Request>)

  function NextPending(x: Dual, p: Pending, t: Turn, sha: DigestFunction): Pending {
    match t
    case Net(req) =>
      if !x.dev.AcceptsUpdate() then p
      else if req.OtaStart? then Pending([req], p.chunk)
      else if Rejected(x.dev, req, sha) then p
      else Pending(p.start, [req])
    case Interrupt => p
    case App => Pending(if x.dev.startRequest && !x.startBell then [] else p.start,
                        if x.dev.chunkRequest && !x.chunkBell then [] else p.chunk)
    case Restart(_) => Pending([], [])
  }

  function AsEvents(reqs: seq<Request>): (r: seq<Event>)
    ensures |r| == |reqs|
  {
    seq(|reqs|, i requires 0 <= i < |reqs| => Packet(reqs[i]))
  }

  /** The packets served by one turn, or its reset. */
  function ServedBy(x: Dual, p: Pending, t: Turn): seq<Event> {
    match t
    case App =>
      (if x.dev.startRequest then AsEvents(p.start) else []) + (if x.dev.chunkRequest then AsEvents(p.chunk) else [])
    case Restart(user) => [Reset(user)]
    case _ => []
  }

  /** The packets a run serves and its resets, in order. */
  function Served(x: Dual, p: Pending, turns: seq<Turn>, sha: DigestFunction): seq<Event>
    requires x.dev.Valid()
    decreases |turns|
  {
    if turns == [] then []
    else
      var next := NextPending(x, p, turns[0], sha);
      ServedBy(x, p, turns[0]) + Served(TurnStep(x, turns[0], sha).x, next, turns[1..], sha)
  }

  /** Flags and bells say which packets are waiting. A START rung before a chunk reaches the
      application core no later than the chunk. */
  predicate PendingFits(x: Dual, p: Pending) {
    && |p.start| <= 1 && |p.chunk| <= 1
    && (x.StartPending() <==> p.start != []) && (x.ChunkPending() <==> p.chunk != [])
    && (x.startBell ==> !x.dev.chunkRequest)
  }

  /** `x` is the single-core device `d` with the packets `p` handled but not served. */
  ghost predicate Simulates(x: Dual, d: Device, p: Pending, sha: DigestFunction) {
    && x.dev.Valid() && d.Valid() && d.Quiet()
    && x.dev.flash == d.flash && x.dev.requireErase == d.requireErase && x.dev.covered == d.covered
    && PendingFits(x, p)
    && (p.start == [] ==> x.dev.status == d.status && x.dev.imageSize == d.imageSize
                          && x.dev.chunkCount == d.chunkCount && x.dev.lastAcked == d.lastAcked)
    && (p.start != [] ==> d.AcceptsUpdate() && StartSeen(x, p.start[0]))
    && (p.chunk != [] ==> x.dev.AcceptsUpdate() && ChunkSeen(x.dev, p.chunk[0], sha))
  }

  predicate StartSeen(x: Dual, req: Request) {
    req.OtaStart? && x.dev.status == Programming && x.dev.lastAcked == -1
    && x.dev.imageSize == req.imageSize && x.dev.chunkCount == req.chunkCount
  }

  /** The shared memory carries this verified chunk, or repeats the last acked one. */
  predicate ChunkSeen(d: Device, req: Request, sha: DigestFunction) {
    req.OtaChunk? && d.chunkIndex == req.index && req.index < d.chunkCount
    && (d.lastAcked != ToInt32(req.index) ==>
          d.chunkSize == |req.data| && |req.data| <= |d.chunk| && d.chunk[..|req.data|] == req.data
            && sha(req.data) == req.sha)
  }

  lemma NetTurnSimulates(x: Dual, d: Device, p: Pending, req: Request, sha: DigestFunction)
    requires Simulates(x, d, p, sha) && Orderly(x, req, sha)
    ensures Simulates(NetTurn(x, req, sha), d, NextPending(x, p, Net(req), sha), sha)
  {
  }

  /** Writing whole words looks only at the chunk's own bytes in the buffer. */
  lemma BufferTailUnused(mem: seq<bv8>, addr: int, xs: seq<bv8>, ys: seq<bv8>, words: nat)
    requires 4 * words <= |xs| && 4 * words <= |ys| && xs[..4 * words] == ys[..4 * words]
    ensures Programmed(mem, addr, xs, words) == Programmed(mem, addr, ys, words)
  {
    forall a {:trigger Offset(a, addr)} | 0 <= a < |mem|
      ensures Programmed(mem, addr, xs, words)[a] == Programmed(mem, addr, ys, words)[a]
    {
      var o := Offset(a, addr);
      if o < 4 * words {
        assert xs[..4 * words][o] == ys[..4 * words][o];
      }
    }
  }

  /** Serving a START flag is the single-core device handling that START. */
  lemma ServeStartSimulates(x: Dual, d: Device, p: Pending, sha: DigestFunction)
    requires Simulates(x, d, p, sha) && x.dev.startRequest
    ensures var r := Pass(d, p.start[0], sha); var s := ServiceStart(x.dev);
      r.acks == s.acks && Simulates(x.(dev := s.dev), r.dev, if x.startBell then p else p.(start := []), sha)
  {
  }

  /** Serving a chunk flag is the single-core device handling that chunk packet. */
  lemma ServeChunkSimulates(x: Dual, d: Device, p: Pending, sha: DigestFunction)
    requires Simulates(x, d, p, sha) && x.dev.chunkRequest && p.start == []
    ensures var r := Pass(d, p.chunk[0], sha); var s := ServiceChunk(x.dev);
      r.acks == s.acks && Simulates(x.(dev := s.dev), r.dev, if x.chunkBell then p else p.(chunk := []), sha)
  {
    hide Programmed, ChunkAddress;
    var req := p.chunk[0];
    if d.lastAcked != ToInt32(req.index) {
      var buffer := req.data + d.chunk[|req.data|..];
      var words := |req.data| / 4;
      assert buffer[..4 * words] == req.data[..4 * words] == x.dev.chunk[..|req.data|][..4 * words]
        == x.dev.chunk[..4 * words];
      BufferTailUnused(d.flash, ChunkAddress(req.index), x.dev.chunk, buffer, words);
    }
  }

  lemma AppTurnSimulates(x: Dual, d: Device, p: Pending, sha: DigestFunction)
    requires Simulates(x, d, p, sha)
    ensures var step := TurnStep(x, App, sha); var r := Replay(d, ServedBy(x, p, App), sha);
      step.acks == r.acks && Simulates(step.x, r.dev, NextPending(x, p, App, sha), sha)
  {
    var s, q := x, p;
    var first := Outcome(d, []);
    if x.dev.startRequest {
      ServeStartSimulates(x, d, p, sha);
      first := Pass(d, p.start[0], sha);
      s, q := x.(dev := ServiceStart(x.dev).dev), if x.startBell then p else p.(start := []);
    }
    if x.dev.chunkRequest {
      ServeChunkSimulates(s, first.dev, q, sha);
    }
    ServiceRuns(x, d, p, sha);
  }

  /** Running the served packets, spelled out. */
  lemma ServiceRuns(x: Dual, d: Device, p: Pending, sha: DigestFunction)
    requires Simulates(x, d, p, sha)
    ensures var r := Replay(d, ServedBy(x, p, App), sha);
      var first := if x.dev.startRequest then Pass(d, p.start[0], sha) else Outcome(d, []);
      r == if x.dev.chunkRequest then var second := Pass(first.dev, p.chunk[0], sha);
        Outcome(second.dev, first.acks + second.acks)
           else first
  {
    var starts := if x.dev.startRequest then p.start else [];
    var chunks := if x.dev.chunkRequest then p.chunk else [];
    assert x.dev.startRequest ==> |starts| == 1;
    assert x.dev.chunkRequest ==> |chunks| == 1;
    hide Pass, Simulates;
    ReplayConcat(d, AsEvents(starts), AsEvents(chunks), sha);
    ReplayAtMostOne(d, starts, sha);
    ReplayAtMostOne(Replay(d, AsEvents(starts), sha).dev, chunks, sha);
    assert ServedBy(x, p, App) == AsEvents(starts) + AsEvents(chunks);
  }

  lemma ReplayAtMostOne(d: Device, reqs: seq<Request>, sha: DigestFunction)
    requires d.Valid() && |reqs| <= 1
    ensures Replay(d, AsEvents(reqs), sha) == if reqs == [] then Outcome(d, []) else Pass(d, reqs[0], sha)
  {
    hide Pass;
    if reqs != [] {
      assert AsEvents(reqs) == [Packet(reqs[0])];
      ReplayOne(d, Packet(reqs[0]), sha);
    }
  }

  /** The pair does what the single-core device does on the packets it serves. */
  lemma {:induction false} DualRefinesSingle(x: Dual, d: Device, p: Pending, turns: seq<Turn>, sha: DigestFunction)
    requires Simulates(x, d, p, sha) && OrderlyRun(x, turns, sha)
    ensures var dual := DualRun(x, turns, sha); var single := Replay(d, Served(x, p, turns, sha), sha);
      dual.acks == single.acks && dual.x.dev.flash == single.dev.flash
    decreases |turns|
  {
    if turns != [] {
      hide Simulates, Pass, TurnStep, NextPending, ServedBy, Orderly;
      var t := turns[0];
      var step, next := TurnStep(x, t, sha), NextPending(x, p, t, sha);
      var served := ServedBy(x, p, t);
      TurnSimulates(x, d, p, t, sha);
      var r := Replay(d, served, sha);
      DualRefinesSingle(step.x, r.dev, next, turns[1..], sha);
      ReplayConcat(d, served, Served(step.x, next, turns[1..], sha), sha);
    } else {
      assert x.dev.flash == d.flash;
    }
  }

  lemma TurnSimulates(x: Dual, d: Device, p: Pending, t: Turn, sha: DigestFunction)
    requires Simulates(x, d, p, sha) && (t.Net? ==> Orderly(x, t.req, sha))
    ensures var step := TurnStep(x, t, sha); var r := Replay(d, ServedBy(x, p, t), sha);
      step.acks == r.acks && Simulates(step.x, r.dev, NextPending(x, p, t, sha), sha)
  {
    match t
    case Net(req) => NetTurnSimulates(x, d, p, req, sha);
    case Interrupt =>
    case App => AppTurnSimulates(x, d, p, sha);
    case Restart(user) =>
      ReplayOne(d, Reset(user), sha);
      assert Boot(x.dev, user) == Boot(d, user);
  }

  // ----- the packets served

  predicate AllPackets(events: seq<Event>) {
    forall k :: 0 <= k < |events| ==> events[k].Packet?
  }

  lemma {:induction false} FollowsSkips(xs: seq<Event>, a: seq<Event>, m: seq<Event>, b: seq<Event>, repeats: bool)
    requires Follows(xs, a + b, repeats) && AllPackets(m)
    ensures Follows(xs, a + m + b, repeats)
    decreases |xs| + |a| + |m|
  {
    if a != [] {
      assert (a + b)[1..] == a[1..] + b && (a + m + b)[1..] == a[1..] + m + b;
      if a[0].Packet? && Follows(xs, (a + b)[1..], repeats) {
        FollowsSkips(xs, a[1..], m, b, repeats);
      } else if repeats && a[0].Packet? {
        FollowsSkips(xs[1..], a, m, b, repeats);
      } else {
        FollowsSkips(xs[1..], a[1..], m, b, repeats);
      }
    } else if m != [] {
      assert (a + m + b)[1..] == a + m[1..] + b;
      FollowsSkips(xs, a, m[1..], b, repeats);
    } else {
      assert a + m + b == a + b;
    }
  }

  lemma FollowsServing(e: Event, xs: seq<Event>, ys: seq<Event>, repeats: bool)
    requires Follows(xs, if repeats && e.Packet? then [e] + ys else ys, repeats)
    ensures Follows([e] + xs, [e] + ys, repeats)
  {
    assert ([e] + xs)[1..] == xs && ([e] + ys)[1..] == ys;
  }

  function Waiting(p: Pending): (r: seq<Event>)
    ensures AllPackets(r)
  {
    AsEvents(p.start) + AsEvents(p.chunk)
  }

  /** The pair serves the packets it was sent, in order, leaving some out; it repeats one only when an
      interrupt is taken late. */
  lemma {:induction false} ServedFollows(x: Dual, d: Device, p: Pending, turns: seq<Turn>, sha: DigestFunction,
                                         repeats: bool)
    requires Simulates(x, d, p, sha) && OrderlyRun(x, turns, sha)
    requires repeats || Prompt(x, turns, sha)
    ensures Follows(Served(x, p, turns, sha), Waiting(p) + Events(turns), repeats)
    decreases |turns|
  {
    if turns == [] {
      var none: seq<Event> := [];
      assert none + none == none && Waiting(p) + Events(turns) == none + Waiting(p) + none;
      FollowsSkips(none, none, Waiting(p), none, repeats);
    } else {
      hide Replay, TurnStep, NextPending, ServedBy, Orderly, Follows, Waiting;
      var t := turns[0];
      var next := NextPending(x, p, t, sha);
      assert PendingFits(x, p);
      hide Simulates, PendingFits;
      TurnSimulates(x, d, p, t, sha);
      var r := Replay(d, ServedBy(x, p, t), sha);
      ServedFollows(TurnStep(x, t, sha).x, r.dev, next, turns[1..], sha, repeats);
      var rest := Served(TurnStep(x, t, sha).x, next, turns[1..], sha);
      TurnFollows(x, p, t, rest, Events(turns[1..]), sha, repeats);
    }
  }

  lemma TurnFollows(x: Dual, p: Pending, t: Turn, rest: seq<Event>, events: seq<Event>, sha: DigestFunction,
                    repeats: bool)
    requires PendingFits(x, p) && (t.Net? ==> Orderly(x, t.req, sha))
    requires repeats || (t.App? ==> !x.startBell && !x.chunkBell)
    requires Follows(rest, Waiting(NextPending(x, p, t, sha)) + events, repeats)
    ensures Follows(ServedBy(x, p, t) + rest, Waiting(p) + (EventOf(t) + events), repeats)
  {
    hide Follows, Rejected;
    match t
    case Interrupt =>
      assert [] + rest == rest && [] + events == events;
    case Net(req) =>
      assert [] + rest == rest;
      NetTurnFollows(x, p, req, rest, events, sha, repeats);
      hide Waiting, NextPending;
      assert Waiting(p) + [Packet(req)] + events == Waiting(p) + ([Packet(req)] + events);
    case App =>
      AppTurnFollows(x, p, rest, events, sha, repeats);
      assert [] + events == events;
    case Restart(user) =>
      assert Waiting(Pending([], [])) + events == events;
      RestartFollows(Waiting(p), Reset(user), rest, events, repeats);
  }

  /** What was waiting at a reset is left out. */
  lemma RestartFollows(waiting: seq<Event>, e: Event, rest: seq<Event>, events: seq<Event>, repeats: bool)
    requires AllPackets(waiting) && e.Reset? && Follows(rest, events, repeats)
    ensures Follows([e] + rest, waiting + ([e] + events), repeats)
  {
    hide Follows;
    FollowsServing(e, rest, events, repeats);
    var none: seq<Event> := [];
    assert none + ([e] + events) == [e] + events;
    FollowsSkips([e] + rest, none, waiting, [e] + events, repeats);
    assert none + waiting + ([e] + events) == waiting + ([e] + events);
  }

  lemma NetTurnFollows(x: Dual, p: Pending, req: Request, rest: seq<Event>, events: seq<Event>, sha: DigestFunction,
                       repeats: bool)
    requires PendingFits(x, p) && Orderly(x, req, sha)
    requires Follows(rest, Waiting(NextPending(x, p, Net(req), sha)) + events, repeats)
    ensures Follows(rest, Waiting(p) + [Packet(req)] + events, repeats)
  {
    hide Follows;
    var e, start, chunk := [Packet(req)], AsEvents(p.start), AsEvents(p.chunk);
    var next := NextPending(x, p, Net(req), sha);
    assert AsEvents([req]) == e;
    if next == p {
      hide NextPending, Waiting;
      FollowsSkips(rest, Waiting(p), e, events, repeats);
    } else if req.OtaStart? {
      assert Waiting(next) == e;
      hide NextPending, AsEvents, Rejected;
      StartOvertakes(rest, Waiting(p), e, events, repeats);
    } else {
      assert Waiting(next) == start + e;
      assert Waiting(p) == start + chunk;
      hide NextPending, AsEvents, Rejected, Waiting;
      ChunkReplaces(rest, start, chunk, e, events, repeats);
    }
  }

  /** A START drops what was waiting before it. */
  lemma StartOvertakes(rest: seq<Event>, waiting: seq<Event>, e: seq<Event>, events: seq<Event>, repeats: bool)
    requires AllPackets(waiting) && Follows(rest, e + events, repeats)
    ensures Follows(rest, waiting + e + events, repeats)
  {
    hide Follows;
    var none: seq<Event> := [];
    assert none + (e + events) == e + events;
    FollowsSkips(rest, none, waiting, e + events, repeats);
    assert none + waiting + (e + events) == waiting + e + events;
  }

  /** A chunk takes the place of the chunk that was waiting. */
  lemma ChunkReplaces(rest: seq<Event>, start: seq<Event>, chunk: seq<Event>, e: seq<Event>, events: seq<Event>,
                      repeats: bool)
    requires AllPackets(chunk) && Follows(rest, start + e + events, repeats)
    ensures Follows(rest, start + chunk + e + events, repeats)
  {
    hide Follows;
    assert start + (e + events) == start + e + events;
    FollowsSkips(rest, start, chunk, e + events, repeats);
    assert start + chunk + (e + events) == start + chunk + e + events;
  }

  /** Serving a waiting packet, which stays waiting if its bell has rung again. */
  lemma ServingPending(r: seq<Event>, xs: seq<Event>, ys: seq<Event>, repeats: bool, kept: bool)
    requires |r| <= 1 && AllPackets(r) && (kept ==> repeats)
    requires Follows(xs, (if kept then r else []) + ys, repeats)
    ensures Follows(r + xs, r + ys, repeats)
  {
    hide Follows;
    if r == [] {
      assert r + xs == xs && r + ys == ys && [] + ys == ys;
    } else {
      assert r == [r[0]] && [] + ys == ys;
      if repeats && !kept {
        FollowsSkips(xs, [], r, ys, repeats);
        assert [] + r + ys == r + ys;
      }
      FollowsServing(r[0], xs, ys, repeats);
    }
  }

  /** A chunk is served, after the START that was waiting before it, if any. */
  lemma ServingChunk(start: seq<Event>, chunk: seq<Event>, rest: seq<Event>, events: seq<Event>, repeats: bool,
                     kept: bool)
    requires |start| <= 1 && |chunk| <= 1 && AllPackets(start) && AllPackets(chunk) && (kept ==> repeats)
    requires Follows(rest, (if kept then chunk else []) + events, repeats)
    ensures Follows(start + chunk + rest, start + chunk + events, repeats)
  {
    hide Follows;
    ServingPending(chunk, rest, events, repeats, kept);
    var none: seq<Event> := [];
    assert none + (chunk + events) == chunk + events;
    ServingPending(start, chunk + rest, chunk + events, repeats, false);
    assert start + (chunk + rest) == start + chunk + rest && start + (chunk + events) == start + chunk + events;
  }

  /** Only a START is served; a chunk may be waiting behind it. */
  lemma ServingStart(start: seq<Event>, chunk: seq<Event>, rest: seq<Event>, events: seq<Event>, repeats: bool,
                     kept: bool)
    requires |start| <= 1 && AllPackets(start) && (kept ==> repeats)
    requires Follows(rest, (if kept then start else []) + chunk + events, repeats)
    ensures Follows(start + rest, start + chunk + events, repeats)
  {
    hide Follows;
    var before := if kept then start else [];
    assert before + chunk + events == before + (chunk + events);
    ServingPending(start, rest, chunk + events, repeats, kept);
    assert start + (chunk + events) == start + chunk + events;
  }

  lemma AppTurnFollows(x: Dual, p: Pending, rest: seq<Event>, events: seq<Event>, sha: DigestFunction, repeats: bool)
    requires PendingFits(x, p)
    requires repeats || (!x.startBell && !x.chunkBell)
    requires Follows(rest, Waiting(NextPending(x, p, App, sha)) + events, repeats)
    ensures Follows(ServedBy(x, p, App) + rest, Waiting(p) + events, repeats)
  {
    hide Follows;
    var next := NextPending(x, p, App, sha);
    var start, chunk := AsEvents(p.start), AsEvents(p.chunk);
    assert Waiting(p) == start + chunk;
    if x.dev.chunkRequest {
      assert next.start == [] && (x.dev.startRequest || p.start == []);
      assert Waiting(next) == if x.chunkBell then chunk else [];
      assert ServedBy(x, p, App) == start + chunk;
      hide NextPending, AsEvents, Waiting, ServedBy, PendingFits;
      ServingChunk(start, chunk, rest, events, repeats, x.chunkBell);
    } else if x.dev.startRequest {
      assert Waiting(next) == (if x.startBell then start else []) + chunk;
      assert ServedBy(x, p, App) == start;
      hide NextPending, AsEvents, Waiting, ServedBy, PendingFits;
      ServingStart(start, chunk, rest, events, repeats, x.startBell);
    } else {
      assert next == p && ServedBy(x, p, App) == [];
      hide NextPending, AsEvents, Waiting, ServedBy, PendingFits;
      assert [] + rest == rest;
    }
  }

  /** From a quiet state, however packets, interrupts, the application loop and resets interleave: flash and
      acknowledgements are those of the single-core device on the same stream with some packets left out, every reset
      in its place; a packet is repeated only if an interrupt is taken after the loop went on. */
  lemma DualCoreRefinement(x: Dual, turns: seq<Turn>, sha: DigestFunction, repeats: bool)
    requires x.dev.Valid() && x.Quiet() && OrderlyRun(x, turns, sha) && (repeats || Prompt(x, turns, sha))
    ensures var served := Served(x, Pending([], []), turns, sha);
      var dual := DualRun(x, turns, sha); var single := Replay(x.dev, served, sha);
      Follows(served, Events(turns), repeats) && dual.acks == single.acks && dual.x.dev.flash == single.dev.flash
  {
    var none := Pending([], []);
    assert Simulates(x, x.dev, none, sha);
    DualRefinesSingle(x, x.dev, none, turns, sha);
    ServedFollows(x, x.dev, none, turns, sha, repeats);
    assert Waiting(none) + Events(turns) == Events(turns);
  }

  /** The condition is needed: once it is broken, in whatever state, the next turn of the application core acknowledges
      a chunk packet that was rejected, or a START ahead of the chunk that came before it. */
  lemma DisorderShows(x: Dual, req: Request, sha: DigestFunction)
    requires x.dev.Valid() && !Orderly(x, req, sha)
    ensures var y := InterruptTurn(NetTurn(x, req, sha)); var acks := TurnStep(y, App, sha).acks;
      if req.OtaChunk?
      then acks == (if x.StartPending() then [StartAck] else []) + [ChunkAck(req.index)]
           && Pass(x.dev.(startRequest := false, chunkRequest := false), req, sha).acks == []
      else acks == [StartAck, ChunkAck(x.dev.chunkIndex)]
  {
  }

  /** Repeats are real: of two good chunk packets, the second one is acknowledged twice when it overtakes the first in
      the shared buffer and its own interrupt is taken only after the loop went on. No single-core run on those
      packets without a repeat gives these acknowledgements. */
  lemma LateInterruptRepeats(x: Dual, first: Request, next: Request, sha: DigestFunction)
    requires x.dev.Valid() && x.Quiet() && x.dev.AcceptsUpdate()
    requires GoodChunk(x.dev, first, sha) && GoodChunk(x.dev, next, sha) && first.index != next.index
    ensures var turns := [Net(first), Interrupt, Net(next), App, Interrupt, App];
      var acks := [ChunkAck(next.index), ChunkAck(next.index)];
      && Events(turns) == [Packet(first), Packet(next)]
      && OrderlyRun(x, turns, sha) && DualRun(x, turns, sha).acks == acks
      && forall served :: Follows(served, Events(turns), false) ==> Replay(x.dev, served, sha).acks != acks
  {
    var turns := [Net(first), Interrupt, Net(next), App, Interrupt, App];
    var acks := [ChunkAck(next.index), ChunkAck(next.index)];
    EventsOfSix(first, next);
    ServedTwice(x, first, next, sha);
    forall served | Follows(served, [Packet(first), Packet(next)], false)
      ensures Replay(x.dev, served, sha).acks != acks {
      OnceEach(x.dev, served, first, next, sha);
    }
  }

  /** A chunk packet that verifies and is in range. */
  predicate GoodChunk(d: Device, req: Request, sha: DigestFunction) {
    req.OtaChunk? && req.index < d.chunkCount && sha(req.data) == req.sha
  }

  lemma EventsOfSix(first: Request, next: Request)
    ensures Events([Net(first), Interrupt, Net(next), App, Interrupt, App]) == [Packet(first), Packet(next)]
  {
    EventsNext(App, []);
    EventsNext(Interrupt, [App]);
    EventsNext(App, [Interrupt, App]);
    EventsNext(Net(next), [App, Interrupt, App]);
    EventsNext(Interrupt, [Net(next), App, Interrupt, App]);
    EventsNext(Net(first), [Interrupt, Net(next), App, Interrupt, App]);
  }

  lemma EventsNext(t: Turn, turns: seq<Turn>)
    ensures Events([t] + turns) == EventOf(t) + Events(turns)
  {
    assert ([t] + turns)[1..] == turns;
  }

  lemma DualRunNext(x: Dual, t: Turn, turns: seq<Turn>, sha: DigestFunction)
    requires x.dev.Valid()
    ensures var step := TurnStep(x, t, sha); var rest := DualRun(step.x, turns, sha);
      DualRun(x, [t] + turns, sha) == DualOutcome(rest.x, step.acks + rest.acks)
    ensures OrderlyRun(x, [t] + turns, sha) <==>
      (t.Net? ==> Orderly(x, t.req, sha)) && OrderlyRun(TurnStep(x, t, sha).x, turns, sha)
  {
    hide TurnStep, Orderly;
    assert ([t] + turns)[1..] == turns;
  }

  /** What a good chunk packet does on the network core: its bell rings and the chunk is in the buffer. */
  lemma GoodChunkRings(x: Dual, req: Request, sha: DigestFunction)
    requires x.dev.Valid() && x.dev.AcceptsUpdate() && GoodChunk(x.dev, req, sha)
    ensures var y := NetTurn(x, req, sha);
      && y.chunkBell && y.startBell == x.startBell && y.dev.chunkIndex == req.index
         && y.dev.chunkCount == x.dev.chunkCount
      && y.dev.status == x.dev.status && y.dev.chunkRequest == x.dev.chunkRequest
         && y.dev.startRequest == x.dev.startRequest
  {
  }

  /** What an accepted START does on the network core, whatever is pending: its bell rings and its session begins. */
  lemma StartRings(x: Dual, req: Request, sha: DigestFunction)
    requires x.dev.Valid() && x.dev.AcceptsUpdate() && req.OtaStart?
    ensures var y := NetTurn(x, req, sha);
      && y.startBell && y.chunkBell == x.chunkBell && y.dev.status == Programming && y.dev.lastAcked == -1
      && y.dev.imageSize == req.imageSize && y.dev.chunkCount == req.chunkCount
      && y.dev.chunkRequest == x.dev.chunkRequest && y.dev.startRequest == x.dev.startRequest
  {
  }

  lemma ServedTwice(x: Dual, first: Request, next: Request, sha: DigestFunction)
    requires x.dev.Valid() && x.Quiet() && x.dev.AcceptsUpdate()
    requires GoodChunk(x.dev, first, sha) && GoodChunk(x.dev, next, sha)
    ensures var turns := [Net(first), Interrupt, Net(next), App, Interrupt, App];
      OrderlyRun(x, turns, sha) && DualRun(x, turns, sha).acks == [ChunkAck(next.index), ChunkAck(next.index)]
  {
    var x1 := NetTurn(x, first, sha);
    GoodChunkRings(x, first, sha);
    var x2 := InterruptTurn(x1);
    var x3 := NetTurn(x2, next, sha);
    GoodChunkRings(x2, next, sha);
    assert Orderly(x, first, sha) && Orderly(x2, next, sha);
    AppServesChunk(x3, sha);
    hide NetTurn, Orderly, TurnStep;
    var x4 := TurnStep(x3, App, sha).x;
    AppServesChunk(InterruptTurn(x4), sha);
    assert TurnStep(x, Net(first), sha) == DualOutcome(x1, [])
      && TurnStep(x1, Interrupt, sha) == DualOutcome(x2, []) by {
      NetAndInterrupt(x, first, sha);
    }
    NetAndInterrupt(x2, next, sha);
    InterruptStep(x4, sha);
    hide InterruptTurn, GoodChunk;
    SixTurns(x, first, next, x2, x4, sha);
  }

  lemma NetAndInterrupt(x: Dual, req: Request, sha: DigestFunction)
    requires x.dev.Valid()
    ensures TurnStep(x, Net(req), sha) == DualOutcome(NetTurn(x, req, sha), [])
    ensures TurnStep(NetTurn(x, req, sha), Interrupt, sha) == DualOutcome(InterruptTurn(NetTurn(x, req, sha)), [])
  {
    hide NetTurn, InterruptTurn;
  }

  lemma InterruptStep(x: Dual, sha: DigestFunction)
    requires x.dev.Valid()
    ensures TurnStep(x, Interrupt, sha) == DualOutcome(InterruptTurn(x), [])
  {
  }

  /** Serving a chunk flag alone acknowledges the index in shared memory. */
  lemma AppServesChunk(x: Dual, sha: DigestFunction)
    requires x.dev.Valid() && x.dev.chunkRequest && !x.dev.startRequest
    ensures var r := TurnStep(x, App, sha);
      && r.acks == [ChunkAck(x.dev.chunkIndex)] && r.x.dev.chunkIndex == x.dev.chunkIndex
      && r.x.startBell == x.startBell && r.x.chunkBell == x.chunkBell && !r.x.dev.startRequest && !r.x.dev.chunkRequest
  {
    hide Programmed, ChunkAddress;
  }

  /** The six turns put together; `x2` and `x4` are the states after the second and the fourth. */
  lemma SixTurns(x: Dual, first: Request, next: Request, x2: Dual, x4: Dual, sha: DigestFunction)
    requires x.dev.Valid() && x2.dev.Valid() && x4.dev.Valid() && next.OtaChunk?
    requires Orderly(x, first, sha) && Orderly(x2, next, sha)
    requires var r := TurnStep(x, Net(first), sha); r.acks == [] && TurnStep(r.x, Interrupt, sha) == DualOutcome(x2, [])
    requires var r := TurnStep(x2, Net(next), sha);
      r.acks == [] && TurnStep(r.x, App, sha) == DualOutcome(x4, [ChunkAck(next.index)])
    requires var r := TurnStep(x4, Interrupt, sha);
      r.acks == [] && TurnStep(r.x, App, sha).acks == [ChunkAck(next.index)]
    ensures var turns := [Net(first), Interrupt, Net(next), App, Interrupt, App];
      OrderlyRun(x, turns, sha) && DualRun(x, turns, sha).acks == [ChunkAck(next.index), ChunkAck(next.index)]
  {
    hide TurnStep, Orderly;
    var x1, x3, x5 := TurnStep(x, Net(first), sha).x, TurnStep(x2, Net(next), sha).x, TurnStep(x4, Interrupt, sha).x;
    DualRunNext(x5, App, [], sha);
    DualRunNext(x4, Interrupt, [App], sha);
    DualRunNext(x3, App, [Interrupt, App], sha);
    DualRunNext(x2, Net(next), [App, Interrupt, App], sha);
    DualRunNext(x1, Interrupt, [Net(next), App, Interrupt, App], sha);
    DualRunNext(x, Net(first), [Interrupt, Net(next), App, Interrupt, App], sha);
    assert OrderlyRun(TurnStep(x5, App, sha).x, [], sha) && DualRun(TurnStep(x5, App, sha).x, [], sha).acks == [];
    hide OrderlyRun, DualRun;
    assert [Net(first)] + [Interrupt, Net(next), App, Interrupt, App]
      == [Net(first), Interrupt, Net(next), App, Interrupt, App];
    assert [Interrupt] + [Net(next), App, Interrupt, App] == [Interrupt, Net(next), App, Interrupt, App];
    assert [Net(next)] + [App, Interrupt, App] == [Net(next), App, Interrupt, App];
    assert [App] + [Interrupt, App] == [App, Interrupt, App] && [Interrupt] + [App] == [Interrupt, App];
    var none: seq<Turn> := [];
    assert [App] + none == [App];
  }

  lemma ChunkAcksItself(d: Device, req: Request, sha: DigestFunction)
    requires d.Valid() && d.Quiet() && req.OtaChunk?
    ensures var r := Pass(d, req, sha); r.dev.Quiet() && (r.acks == [] || r.acks == [ChunkAck(req.index)])
  {
    hide Programmed;
  }

  lemma FollowsOne(xs: seq<Event>, e: Event)
    requires Follows(xs, [e], false)
    ensures xs == [] || xs == [e]
  {
    assert [e][1..] == [];
    if xs != [] && xs[0] == e && Follows(xs[1..], [], false) {
      assert xs == [e] + xs[1..];
    }
  }

  lemma SumOfAcks(xs: seq<Ack>, ys: seq<Ack>, a: Ack, b: Ack)
    requires (xs == [] || xs == [a]) && (ys == [] || ys == [b]) && a != b
    ensures xs + ys != [b, b]
  {
    if |xs + ys| == 2 {
      assert (xs + ys)[0] == a;
    }
  }

  lemma ReplayAtMostNext(d: Device, events: seq<Event>, next: Request, sha: DigestFunction)
    requires d.Valid() && d.Quiet() && next.OtaChunk? && (events == [] || events == [Packet(next)])
    ensures var acks := Replay(d, events, sha).acks; acks == [] || acks == [ChunkAck(next.index)]
  {
    ChunkAcksItself(d, next, sha);
    if events != [] {
      ReplayOne(d, Packet(next), sha);
    }
    hide Pass;
  }

  /** Two packets handled at most once each acknowledge the second one at most once. */
  lemma OnceEach(d: Device, served: seq<Event>, first: Request, next: Request, sha: DigestFunction)
    requires d.Valid() && d.Quiet() && first.OtaChunk? && next.OtaChunk? && first.index != next.index
    requires Follows(served, [Packet(first), Packet(next)], false)
    ensures Replay(d, served, sha).acks != [ChunkAck(next.index), ChunkAck(next.index)]
  {
    assert [Packet(first), Packet(next)][1..] == [Packet(next)];
    if served != [] && served[0] == Packet(first) && Follows(served[1..], [Packet(next)], false) {
      FollowsOne(served[1..], Packet(next));
      ChunkAcksItself(d, first, sha);
      hide Pass, Follows, Replay;
      var r := Pass(d, first, sha);
      ReplayAtMostNext(r.dev, served[1..], next, sha);
      ReplayNext(d, served, sha);
      SumOfAcks(r.acks, Replay(r.dev, served[1..], sha).acks, ChunkAck(first.index), ChunkAck(next.index));
    } else {
      FollowsOne(served, Packet(next));
      hide Follows, Replay, Pass;
      ReplayAtMostNext(d, served, next, sha);
    }
  }

  // ----- progress

  /** Whatever is pending, one interrupt and one turn of the application core serve it: a START that rang is
      acknowledged, a chunk too, and nothing is left waiting. */
  lemma InterruptThenServe(x: Dual, sha: DigestFunction)
    requires x.dev.Valid()
    ensures var r := TurnStep(InterruptTurn(x), App, sha);
      && r.acks == (if x.StartPending() then [StartAck] else [])
                   + (if x.ChunkPending() then [ChunkAck(x.dev.chunkIndex)] else [])
      && r.x.Quiet()
  {
    hide Programmed, ErasedPages;
  }

  /** The turns that handle packets one at a time. */
  function OneAtATime(reqs: seq<Request>): seq<Turn> {
    if reqs == [] then [] else [Net(reqs[0])] + ([Interrupt] + ([App] + OneAtATime(reqs[1..])))
  }

  /** With each packet served before the next comes, the pair is the single-core device, packet for packet. */
  lemma {:induction false} ServedOneAtATime(x: Dual, reqs: seq<Request>, sha: DigestFunction)
    requires x.dev.Valid() && x.Quiet()
    ensures var dual := DualRun(x, OneAtATime(reqs), sha); var single := Run(x.dev, reqs, sha);
      dual.acks == single.acks && dual.x == Dual(single.dev, false, false)
    decreases |reqs|
  {
    if reqs == [] {
      assert x == Dual(x.dev, false, false);
    } else {
      var rest := OneAtATime(reqs[1..]);
      var rung := NetTurn(x, reqs[0], sha);
      var taken := InterruptTurn(rung);
      OnePacket(x, reqs[0], sha);
      NetAndInterrupt(x, reqs[0], sha);
      DualRunNext(x, Net(reqs[0]), [Interrupt] + ([App] + rest), sha);
      DualRunNext(rung, Interrupt, [App] + rest, sha);
      DualRunNext(taken, App, rest, sha);
      hide NetTurn, InterruptTurn, TurnStep, Pass, DualRun;
      ServedOneAtATime(Dual(Pass(x.dev, reqs[0], sha).dev, false, false), reqs[1..], sha);
    }
  }

  lemma OnePacket(x: Dual, req: Request, sha: DigestFunction)
    requires x.dev.Valid() && x.Quiet()
    ensures var r := TurnStep(InterruptTurn(NetTurn(x, req, sha)), App, sha); var s := Pass(x.dev, req, sha);
      r.acks == s.acks && r.x == Dual(s.dev, false, false) && r.x.Quiet()
  {
    assert InterruptTurn(NetTurn(x, req, sha)) == Dual(Receive(x.dev, req, sha), false, false) by {
      assert x.dev.(startRequest := false, chunkRequest := false) == x.dev;
    }
    hide NetTurn, InterruptTurn, Receive, Programmed, ErasedPages;
  }

  // ----- a session on the pair

  /** Either no chunk has been handled and a START comes first, or this session's START has been handled, or a reset
      has come since and chunks are refused. */
  predicate SessionPhase(x: Dual, packets: seq<Request>, fw: Image) {
    || (!x.ChunkPending() && x.dev.chunkCount == 0)
    || (!x.ChunkPending() && (packets == [] || packets[0].OtaStart? || !x.dev.AcceptsUpdate()))
    || (x.dev.AcceptsUpdate() && x.dev.chunkCount == ChunksCount(|fw|)
        && (x.ChunkPending() ==> forall k :: 0 <= k < |packets| ==> packets[k].OtaChunk?))
  }

  predicate HostStream(packets: seq<Request>, fw: Image, sha: DigestFunction) {
    StartsFirst(packets) && forall k :: 0 <= k < |packets| ==> HostFrame(packets[k], fw, sha)
  }

  /** Intact packets of one session, START first, always satisfy the condition. */
  lemma {:induction false} SessionIsOrderly(x: Dual, turns: seq<Turn>, fw: Image, sha: DigestFunction)
    requires x.dev.Valid() && HostStream(Packets(turns), fw, sha) && SessionPhase(x, Packets(turns), fw)
    ensures OrderlyRun(x, turns, sha)
    decreases |turns|
  {
    if turns != [] {
      var t, rest := turns[0], Packets(turns[1..]);
      var packets := Packets(turns);
      if t.Net? {
        assert packets[0] == t.req && packets[1..] == rest;
      } else {
        assert packets == rest;
      }
      PhaseStep(x, t, rest, fw, sha);
      SessionIsOrderly(TurnStep(x, t, sha).x, turns[1..], fw, sha);
    }
  }

  lemma PhaseStep(x: Dual, t: Turn, rest: seq<Request>, fw: Image, sha: DigestFunction)
    requires x.dev.Valid() && HostStream(PacketOf(t) + rest, fw, sha) && SessionPhase(x, PacketOf(t) + rest, fw)
    ensures t.Net? ==> Orderly(x, t.req, sha)
    ensures HostStream(rest, fw, sha) && SessionPhase(TurnStep(x, t, sha).x, rest, fw)
  {
    var packets := PacketOf(t) + rest;
    if t.Net? {
      NetPhaseStep(x, t.req, rest, fw, sha);
    } else {
      hide Programmed, ErasedPages, Orderly, Receive;
      assert packets == rest;
    }
  }

  lemma NetPhaseStep(x: Dual, req: Request, rest: seq<Request>, fw: Image, sha: DigestFunction)
    requires x.dev.Valid() && HostStream([req] + rest, fw, sha) && SessionPhase(x, [req] + rest, fw)
    ensures Orderly(x, req, sha)
    ensures HostStream(rest, fw, sha) && SessionPhase(NetTurn(x, req, sha), rest, fw)
  {
    var packets := [req] + rest;
    hide Service;
    assert packets[0] == req && forall k :: 0 <= k < |rest| ==> rest[k] == packets[k + 1];
  }

  function LinkRun(l: Link, events: seq<LinkEvent>, sha: DigestFunction): (r: Link)
    requires l.dev.Valid()
    ensures r.dev.Valid()
    decreases |events|
  {
    if events == [] then l else LinkRun(LinkStep(l, events[0], sha), events[1..], sha)
  }

  lemma {:induction false} LinkRunKeeps(l: Link, events: seq<LinkEvent>, fw: Image, sha: DigestFunction)
    requires LinkInv(l, fw, sha)
    ensures LinkInv(LinkRun(l, events, sha), fw, sha)
    decreases |events|
  {
    if events != [] {
      hide LinkInv, LinkStep;
      LinkStepKeeps(l, events[0], fw, sha);
      LinkRunKeeps(LinkStep(l, events[0], sha), events[1..], fw, sha);
    }
  }

  function PacketsIn(events: seq<Event>): seq<Request> {
    if events == [] then [] else (if events[0].Packet? then [events[0].req] else []) + PacketsIn(events[1..])
  }

  lemma PacketsInNext(e: Event, events: seq<Event>)
    ensures PacketsIn([e] + events) == (if e.Packet? then [e.req] else []) + PacketsIn(events)
  {
    assert ([e] + events)[1..] == events;
  }

  lemma {:induction false} PacketsOfEvents(turns: seq<Turn>)
    ensures PacketsIn(Events(turns)) == Packets(turns)
  {
    if turns != [] {
      var rest := Events(turns[1..]);
      PacketsOfEvents(turns[1..]);
      hide PacketsIn;
      match turns[0] {
        case Net(req) => PacketsInNext(Packet(req), rest);
        case Restart(user) => PacketsInNext(Reset(user), rest);
        case _ => assert [] + rest == rest;
      }
    } else {
      assert PacketsIn([]) == [];
    }
  }

  /** The link event by which a device on the link does what `e` does; a packet stays on the link, to be repeated. */
  function ServingStep(e: Event): LinkEvent {
    match e
    case Reset(user) => Reboot(user)
    case Packet(OtaStart(_, _)) => Deliver([], [], true)
    case Packet(OtaChunk(_, data, digest)) => Deliver(data, digest, true)
  }

  lemma ServingStepServes(l: Link, e: Event, sha: DigestFunction)
    requires l.dev.Valid() && (e.Packet? ==> l.queue != [] && l.queue[0] == e.req)
    ensures var m := LinkStep(l, ServingStep(e), sha); var r := Step(l.dev, e, sha);
      m.dev == r.dev && m.queue == l.queue && m.acked == l.acked + AckedIn(r.acks)
      && (m.started <==> l.started || StartAck in r.acks)
  {
    hide Pass;
    if e.Reset? {
      assert l.acked + AckedIn([]) == l.acked;
    }
  }

  /** Leaving packets out and repeating them is something the radio could have done, resets included. */
  lemma {:induction false} ReplayIsLinkRun(l: Link, served: seq<Event>, events: seq<Event>, sha: DigestFunction)
    returns (steps: seq<LinkEvent>)
    requires l.dev.Valid() && Follows(served, events, true) && l.queue == PacketsIn(events)
    ensures var m := LinkRun(l, steps, sha); var r := Replay(l.dev, served, sha);
      m.dev == r.dev && m.acked == l.acked + AckedIn(r.acks) && (m.started <==> l.started || StartAck in r.acks)
    decreases |served| + |events|
  {
    if events == [] {
      steps := [];
    } else {
      var e := events[0];
      assert events == [e] + events[1..];
      PacketsInNext(e, events[1..]);
      if served != [] && served[0] == e && Follows(served[1..], if e.Packet? then events else events[1..], true) {
        hide LinkStep, Step, ServingStep, Follows, PacketsIn, LinkRun, Replay;
        ServingStepServes(l, e, sha);
        var next := LinkStep(l, ServingStep(e), sha);
        var rest := ReplayIsLinkRun(next, served[1..], if e.Packet? then events else events[1..], sha);
        steps := [ServingStep(e)] + rest;
        LinkRunNext(l, ServingStep(e), rest, sha);
        ReplayNext(l.dev, served, sha);
        AckedSplit(Step(l.dev, e, sha).acks, Replay(next.dev, served[1..], sha).acks);
      } else {
        var next := LinkStep(l, Lose, sha);
        assert next == l.(queue := l.queue[1..]);
        hide LinkStep, PacketsIn, LinkRun, Replay;
        var rest := ReplayIsLinkRun(next, served, events[1..], sha);
        steps := [Lose] + rest;
        LinkRunNext(l, Lose, rest, sha);
      }
    }
  }

  lemma LinkRunNext(l: Link, first: LinkEvent, rest: seq<LinkEvent>, sha: DigestFunction)
    requires l.dev.Valid()
    ensures LinkRun(l, [first] + rest, sha) == LinkRun(LinkStep(l, first, sha), rest, sha)
  {
    hide LinkStep;
    assert ([first] + rest)[1..] == rest;
  }

  lemma ReplayNext(d: Device, events: seq<Event>, sha: DigestFunction)
    requires d.Valid() && events != []
    ensures var first := Step(d, events[0], sha); var rest := Replay(first.dev, events[1..], sha);
      Replay(d, events, sha) == Outcome(rest.dev, first.acks + rest.acks)
  {
  }

  /** On a session's packets the pair is, to the host, a device on a lossy link like any other. */
  lemma DualCoreIsALink(d: Device, turns: seq<Turn>, fw: Image, sha: DigestFunction) returns (m: Link)
    requires SessionStart(Link(d, [], false, {}, {}), fw)
    requires HostStream(Packets(turns), fw, sha) && (Packets(turns) != [] ==> Packets(turns)[0].OtaStart?)
    ensures var r := DualRun(Dual(d, false, false), turns, sha);
      LinkInv(m, fw, sha) && m.dev.flash == r.x.dev.flash && m.acked == AckedIn(r.acks)
        && (m.started <==> StartAck in r.acks)
  {
    var x := Dual(d, false, false);
    SessionIsOrderly(x, turns, fw, sha);
    DualCoreRefinement(x, turns, sha, true);
    PacketsOfEvents(turns);
    var served := Served(x, Pending([], []), turns, sha);
    var l := Link(d, Packets(turns), false, {}, {});
    var steps := ReplayIsLinkRun(l, served, Events(turns), sha);
    LinkRunKeeps(l, steps, fw, sha);
    m := LinkRun(l, steps, sha);
    hide LinkRun, Replay, DualRun, Served, Follows, OrderlyRun, LinkInv;
    assert {} + AckedIn(DualRun(x, turns, sha).acks) == AckedIn(DualRun(x, turns, sha).acks);
  }

  /** Safety carries over, whenever the pair is reset: once it has acked the START of a session, the image's pages hold
      exactly the chunks it acked; when it acked all, the image. */
  lemma DualCoreHoldsAckedChunks(d: Device, turns: seq<Turn>, fw: Image, sha: DigestFunction)
    requires SessionStart(Link(d, [], false, {}, {}), fw)
    requires HostStream(Packets(turns), fw, sha) && (Packets(turns) != [] ==> Packets(turns)[0].OtaStart?)
    ensures var r := DualRun(Dual(d, false, false), turns, sha);
      && (StartAck in r.acks ==> HoldsChunks(r.x.dev.flash, fw, AckedIn(r.acks)))
      && (StartAck in r.acks && Complete(AckedIn(r.acks), fw) ==> HoldsImage(r.x.dev.flash, fw))
  {
    var m := DualCoreIsALink(d, turns, fw, sha);
    hide DualRun, HoldsChunks, HoldsImage;
    if m.started && Complete(m.acked, fw) {
      AllChunksAreTheImage(m.dev.flash, fw, m.acked);
    }
  }

  /** And so does the host's verdict: when the chunk acks it heard from the pair are acks the pair has sent, success
      means that the pair's flash holds the image. */
  lemma SuccessInstallsOnPair(d: Device, turns: seq<Turn>, fw: Image, sha: DigestFunction, log: seq<Record>, a: nat)
    requires SessionStart(Link(d, [], false, {}, {}), fw)
    requires HostStream(Packets(turns), fw, sha) && (Packets(turns) != [] ==> Packets(turns)[0].OtaStart?)
    requires var acks := DualRun(Dual(d, false, false), turns, sha).acks;
      StartAck in acks && forall i :: (a, i) in AcksIn(log) ==> i in AckedIn(acks)
    requires VerdictsFit(log, ChunksCount(|fw|)) && VerdictReached(a, true) in log
    ensures HoldsImage(DualRun(Dual(d, false, false), turns, sha).x.dev.flash, fw)
  {
    DualCoreHoldsAckedChunks(d, turns, fw, sha);
    SuccessWasHeard(log, a, ChunksCount(|fw|));
    hide DualRun, HoldsChunks, HoldsImage, AcksIn, VerdictsFit;
    var acks := DualRun(Dual(d, false, false), turns, sha).acks;
    assert forall i: nat :: i < ChunksCount(|fw|) ==> (a, i) in AcksIn(log) && i in AckedIn(acks);
  }
}
