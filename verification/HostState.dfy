/** The host's bookkeeping for one update: acknowledgement flags, retry counts, and what they mean
    for the network they came from. */
module HostState {
  import opened Airtime
  import opened Basics
  import opened Firmware
  import opened HostLog
  import opened Network
  import opened OtaDevice

  datatype ChunkStatus = ChunkStatus(acked: bool, retries: nat)
  datatype TransferStatus = TransferStatus(chunks: seq<ChunkStatus>, success: bool)
  type TransferData = map<Addr, TransferStatus>

  predicate AllAcked(s: TransferStatus) {
    forall i :: 0 <= i < |s.chunks| ==> s.chunks[i].acked
  }

  /** The devices a frame to `addr` is meant for. */
  function Targets(addr: Addr, devices: seq<Addr>): set<Addr> {
    if addr == BROADCAST_ADDRESS then Elements(devices) else {addr}
  }

  // ----- the two acknowledgement tests

  /** `sorted(a) == sorted(b)`. */
  predicate SameSorted(a: seq<Addr>, b: seq<Addr>) {
    multiset(a) == multiset(b)
  }

  predicate StartAcknowledged(addrs: seq<Addr>, addr: Addr, devices: seq<Addr>) {
    if addr == BROADCAST_ADDRESS then SameSorted(addrs, devices) else addr in addrs
  }

  /** The keys of the transfer data listed in some order equal the devices listed in some order. */
  predicate KeysAreDevices(td: TransferData, devices: seq<Addr>) {
    multiset(td.Keys) == multiset(devices)
  }

  predicate ChunkAcknowledged(td: TransferData, k: nat, addr: Addr, devices: seq<Addr>)
    requires forall a :: a in td ==> k < |td[a].chunks|
  {
    if addr == BROADCAST_ADDRESS then KeysAreDevices(td, devices) && forall a :: a in td ==> td[a].chunks[k].acked
    else addr in td && td[addr].chunks[k].acked
  }

  lemma {:induction false} MultisetOfElements(s: seq<Addr>)
    ensures NoDuplicates(s) <==> multiset(Elements(s)) == multiset(s)
    ensures forall a :: a in s ==> multiset(s)[a] >= 1
  {
    if s != [] {
      var front, last := s[..|s| - 1], s[|s| - 1];
      assert s == front + [last];
      MultisetOfElements(front);
      assert Elements(s) == Elements(front) + {last};
      assert multiset(s) == multiset(front) + multiset{last};
      if last in front {
        assert multiset(s)[last] >= 2;
        var j :| 0 <= j < |front| && front[j] == last;
        assert s[j] == s[|s| - 1];
      } else {
        assert multiset(Elements(s)) == multiset(Elements(front)) + multiset{last};
        if NoDuplicates(s) {
          assert NoDuplicates(front);
        }
        if multiset(Elements(s)) == multiset(s) {
          assert multiset(Elements(front)) == multiset(Elements(s)) - multiset{last};
          assert multiset(front) == multiset(s) - multiset{last};
        }
      }
    }
  }

  /** The broadcast test says "every target acked this chunk" exactly when the device list has no
      duplicates; with a duplicate it never succeeds. */
  lemma BroadcastTestExact(td: TransferData, k: nat, devices: seq<Addr>)
    requires td.Keys == Elements(devices) && forall a :: a in td ==> k < |td[a].chunks|
    ensures ChunkAcknowledged(td, k, BROADCAST_ADDRESS, devices) <==>
      NoDuplicates(devices) && forall a :: a in devices ==> td[a].chunks[k].acked
  {
    MultisetOfElements(devices);
  }

  // ----- what the RX callback does to the flags

  function WithAck(td: TransferData, a: Addr, i: nat): TransferData {
    if a in td && i < |td[a].chunks|
    then td[a := td[a].(chunks := td[a].chunks[i := td[a].chunks[i].(acked := true)])] else td
  }

  /** Same devices, chunks and verdicts; flags may only have gone up. */
  predicate FlagsUp(t: TransferData, u: TransferData) {
    t.Keys == u.Keys && forall a :: a in t ==>
      u[a].success == t[a].success && |u[a].chunks| == |t[a].chunks|
      && forall i :: 0 <= i < |t[a].chunks| && t[a].chunks[i].acked ==> u[a].chunks[i].acked
  }

  /** Retry counts are those of `t`, except `count` for chunk `k` of the devices in `targets`. */
  predicate RetriesAre(t: TransferData, u: TransferData, k: nat, targets: set<Addr>, count: nat) {
    t.Keys == u.Keys && forall a :: a in t ==>
      |u[a].chunks| == |t[a].chunks| && forall i :: 0 <= i < |t[a].chunks| ==>
        u[a].chunks[i].retries == if i == k && a in targets then count else t[a].chunks[i].retries
  }

  predicate RetriesKept(t: TransferData, u: TransferData) {
    RetriesAre(t, u, 0, {}, 0)
  }

  predicate RetriesBounded(t: TransferData, max: nat) {
    forall a, i :: a in t && 0 <= i < |t[a].chunks| ==> t[a].chunks[i].retries <= max
  }

  /** A flag is up exactly for the acks heard since the flags were last cleared. */
  predicate FlagsAre(td: TransferData, heard: set<(Addr, nat)>) {
    forall a, i :: a in td && 0 <= i < |td[a].chunks| ==> (td[a].chunks[i].acked <==> (a, i) in heard)
  }

  lemma WithAckKeeps(td: TransferData, a: Addr, i: nat, heard: set<(Addr, nat)>)
    requires FlagsAre(td, heard)
    ensures FlagsUp(td, WithAck(td, a, i)) && RetriesKept(td, WithAck(td, a, i))
    ensures FlagsAre(WithAck(td, a, i), heard + {(a, i)})
  {
  }

  // ----- the host's view of the network

  ghost predicate WorldInv(w: World, fw: Image, sha: DigestFunction) {
    forall a :: a in w ==> LinkInv(w[a], fw, sha)
  }

  ghost predicate WorldOnlyStarts(w: World) {
    forall a :: a in w ==> OnlyStarts(w[a])
  }

  predicate WorldGrows(w: World, x: World) {
    w.Keys == x.Keys && forall a :: a in w ==> LinkGrows(w[a], x[a])
  }

  predicate AddrsBacked(w: World, addrs: seq<Addr>) {
    forall k :: 0 <= k < |addrs| ==> addrs[k] in w && w[addrs[k]].started
  }

  predicate HeardBacked(w: World, heard: set<(Addr, nat)>) {
    forall h :: h in heard ==> h.0 in w && h.1 in w[h.0].acked
  }

  lemma GrowthKeepsBacking(w: World, x: World, addrs: seq<Addr>, heard: set<(Addr, nat)>)
    requires WorldGrows(w, x)
    ensures AddrsBacked(w, addrs) ==> AddrsBacked(x, addrs)
    ensures HeardBacked(w, heard) ==> HeardBacked(x, heard)
  {
  }

  lemma NetStepKeeps(w: World, a: Addr, ev: LinkEvent, fw: Image, sha: DigestFunction)
    requires WorldInv(w, fw, sha)
    ensures WorldInv(NetStep(w, a, ev, sha), fw, sha) && WorldGrows(w, NetStep(w, a, ev, sha))
    ensures WorldOnlyStarts(w) ==> WorldOnlyStarts(NetStep(w, a, ev, sha))
  {
    hide LinkInv, LinkStep;
    if a in w {
      assert LinkInv(w[a], fw, sha);
      LinkStepKeeps(w[a], ev, fw, sha);
    }
  }

  lemma SendingKeeps(w: World, destination: Addr, req: Request, fw: Image, sha: DigestFunction)
    requires WorldInv(w, fw, sha) && HostFrame(req, fw, sha) && (req.OtaChunk? || WorldOnlyStarts(w))
    ensures WorldInv(Send(w, destination, req), fw, sha) && WorldGrows(w, Send(w, destination, req))
    ensures req.OtaStart? ==> WorldOnlyStarts(Send(w, destination, req))
  {
    hide LinkInv, OnlyStarts;
    forall a | a in w
      ensures LinkInv(w[a].(queue := w[a].queue + [req]), fw, sha)
      ensures req.OtaStart? ==> OnlyStarts(w[a].(queue := w[a].queue + [req]))
    {
      SendKeeps(w[a], req, fw, sha);
    }
  }

  lemma WorldGrowsReflexive(w: World)
    ensures WorldGrows(w, w)
  {
  }

  lemma WorldGrowsTransitive(w: World, x: World, y: World)
    requires WorldGrows(w, x) && WorldGrows(x, y)
    ensures WorldGrows(w, y)
  {
  }

  lemma FlagsUpTransitive(t: TransferData, u: TransferData, v: TransferData)
    requires FlagsUp(t, u) && FlagsUp(u, v)
    ensures FlagsUp(t, v)
  {
  }

  /** What the RX thread can change: the network, the START acks, the flags, the log, the time. */
  datatype View = View(world: World, addrs: seq<Addr>, td: TransferData, log: seq<Record>, clock: nat)

  ghost predicate ViewInv(v: View, fw: Image, sha: DigestFunction) {
    WorldInv(v.world, fw, sha) && NoDuplicates(v.addrs) && AddrsBacked(v.world, v.addrs)
      && FlagsAre(v.td, AcksIn(v.log))
  }

  /** `w` is `v` after some time in which the RX thread has run. */
  predicate Later(v: View, w: View) {
    && WorldGrows(v.world, w.world)
    && v.addrs <= w.addrs
    && FlagsUp(v.td, w.td)
    && Continues(v.log, w.log)
    && v.clock <= w.clock
    && (HeardBacked(v.world, AcksIn(v.log)) ==> HeardBacked(w.world, AcksIn(w.log)))
  }

  /** The same, and nothing but acknowledgements and steps of the network has happened. */
  predicate Meanwhile(v: View, w: View) {
    Later(v, w) && RetriesKept(v.td, w.td) && OnlyAcksAdded(v.log, w.log)
  }

  lemma LaterReflexive(v: View)
    ensures Later(v, v)
  {
  }

  lemma LaterTransitive(u: View, v: View, w: View)
    requires Later(u, v) && Later(v, w)
    ensures Later(u, w)
  {
    hide WorldGrows, FlagsUp, HeardBacked, Continues;
    WorldGrowsTransitive(u.world, v.world, w.world);
    FlagsUpTransitive(u.td, v.td, w.td);
    ContinuesTransitive(u.log, v.log, w.log);
  }

  lemma MeanwhileReflexive(v: View)
    ensures Meanwhile(v, v)
  {
  }

  /** One step of the network, seen by the host. */
  lemma NetworkMoves(v: View, a: Addr, ev: LinkEvent, fw: Image, sha: DigestFunction)
    requires ViewInv(v, fw, sha)
    ensures var w := v.(world := NetStep(v.world, a, ev, sha)); ViewInv(w, fw, sha) && Meanwhile(v, w)
  {
    NetStepKeeps(v.world, a, ev, fw, sha);
    GrowthKeepsBacking(v.world, NetStep(v.world, a, ev, sha), v.addrs, AcksIn(v.log));
    hide WorldInv, NetStep, WorldGrows, AcksIn;
  }

  /** A frame handed to the radio, seen by the other threads. */
  lemma RadioSends(v: View, destination: Addr, req: Request, fw: Image, sha: DigestFunction)
    requires ViewInv(v, fw, sha) && HostFrame(req, fw, sha) && (req.OtaChunk? || WorldOnlyStarts(v.world))
    ensures var w := v.(world := Send(v.world, destination, req),
                        log := v.log + if req.OtaChunk? then [FrameSent(destination, req.index)] else []);
      ViewInv(w, fw, sha) && Later(v, w) && (req.OtaStart? ==> WorldOnlyStarts(w.world))
  {
    SendingKeeps(v.world, destination, req, fw, sha);
    GrowthKeepsBacking(v.world, Send(v.world, destination, req), v.addrs, AcksIn(v.log));
    hide WorldInv, Send, WorldGrows, AcksIn, LinkInv, HostFrame, WorldOnlyStarts;
    if req.OtaChunk? {
      LogNext(v.log, FrameSent(destination, req.index));
      ContinuesNext(v.log, FrameSent(destination, req.index));
      assert AcksIn(v.log + [FrameSent(destination, req.index)]) == AcksIn(v.log);
    } else {
      assert v.log + [] == v.log;
    }
  }

  lemma MeanwhileTransitive(u: View, v: View, w: View)
    requires Meanwhile(u, v) && Meanwhile(v, w)
    ensures Meanwhile(u, w)
  {
    LaterTransitive(u, v, w);
    assert Continues(u.log, v.log) && Continues(v.log, w.log);
    hide Later, OnlyAcksAdded, Continues;
    ContinuesTransitive(u.log, v.log, w.log);
    RetriesKeptTransitive(u.td, v.td, w.td);
  }

  lemma LaterParts(v: View, w: View)
    requires Later(v, w)
    ensures v.world.Keys == w.world.Keys && v.addrs <= w.addrs && Continues(v.log, w.log)
    ensures HeardBacked(v.world, AcksIn(v.log)) ==> HeardBacked(w.world, AcksIn(w.log))
    ensures forall a :: a in v.world && v.world[a].started ==> w.world[a].started
    ensures v.td.Keys == w.td.Keys && FlagsUp(v.td, w.td)
  {
  }

  lemma LaterHears(v: View, w: View)
    requires Later(v, w)
    ensures v.clock <= w.clock && v.addrs <= w.addrs && Continues(v.log, w.log)
  {
  }

  lemma LaterKeepsShape(v: View, w: View, n: nat)
    requires Later(v, w)
    ensures v.td.Keys == w.td.Keys && (AllChunksListed(v.td, n) ==> AllChunksListed(w.td, n))
  {
  }

  lemma LaterGrowsWorld(v: View, w: View)
    requires Later(v, w)
    ensures WorldGrows(v.world, w.world)
  {
  }

  lemma RetriesKeptReflexive(t: TransferData)
    ensures RetriesKept(t, t)
  {
  }

  /** The counts after `sent` frames of one chunk. */
  predicate RetriesSoFar(t: TransferData, u: TransferData, k: nat, targets: set<Addr>, sent: nat) {
    if sent == 0 then RetriesKept(t, u) else RetriesAre(t, u, k, targets, sent - 1)
  }

  lemma RetriesSoFarStay(t: TransferData, u: TransferData, v: TransferData, k: nat, targets: set<Addr>, sent: nat)
    requires RetriesSoFar(t, u, k, targets, sent) && RetriesKept(u, v)
    ensures RetriesSoFar(t, v, k, targets, sent)
  {
    hide RetriesAre, RetriesKept;
    if sent == 0 {
      RetriesKeptTransitive(t, u, v);
    } else {
      RetriesThenKept(t, u, v, k, targets, sent - 1);
    }
  }

  /** A new count replaces whatever count the targets had before. */
  lemma RetriesReplaced(t: TransferData, u: TransferData, v: TransferData, k: nat, targets: set<Addr>, count: nat)
    requires RetriesSoFar(t, u, k, targets, count) && RetriesAre(u, v, k, targets, count)
    ensures RetriesSoFar(t, v, k, targets, count + 1)
  {
    hide RetriesAre, RetriesKept;
    if count == 0 {
      RetriesKeptThen(t, u, v, k, targets, count);
    } else {
      RetriesOverwritten(t, u, v, k, targets, count - 1, count);
    }
  }

  lemma RetriesKeptTransitive(t: TransferData, u: TransferData, v: TransferData)
    requires RetriesKept(t, u) && RetriesKept(u, v)
    ensures RetriesKept(t, v)
  {
  }

  lemma RetriesThenKept(t: TransferData, u: TransferData, v: TransferData, k: nat, targets: set<Addr>, count: nat)
    requires RetriesAre(t, u, k, targets, count) && RetriesKept(u, v)
    ensures RetriesAre(t, v, k, targets, count)
  {
  }

  lemma RetriesKeptThen(t: TransferData, u: TransferData, v: TransferData, k: nat, targets: set<Addr>, count: nat)
    requires RetriesKept(t, u) && RetriesAre(u, v, k, targets, count)
    ensures RetriesAre(t, v, k, targets, count)
  {
  }

  lemma RetriesOverwritten(t: TransferData, u: TransferData, v: TransferData, k: nat, targets: set<Addr>,
                           c: nat, d: nat)
    requires RetriesAre(t, u, k, targets, c) && RetriesAre(u, v, k, targets, d)
    ensures RetriesAre(t, v, k, targets, d)
  {
  }

  // ----- what the main thread writes

  function WithRetries(td: TransferData, a: Addr, k: nat, count: nat): TransferData
    requires a in td && k < |td[a].chunks|
  {
    td[a := td[a].(chunks := td[a].chunks[k := td[a].chunks[k].(retries := count)])]
  }

  /** Storing a retry count for one more device. */
  lemma WithRetriesKeeps(t: TransferData, u: TransferData, a: Addr, k: nat, targets: set<Addr>, count: nat,
                         heard: set<(Addr, nat)>)
    requires RetriesAre(t, u, k, targets, count) && FlagsUp(t, u) && FlagsAre(u, heard) && a in u && k < |u[a].chunks|
    ensures var v := WithRetries(u, a, k, count);
      RetriesAre(t, v, k, targets + {a}, count) && FlagsUp(t, v) && FlagsAre(v, heard)
  {
  }

  /** Fresh transfer data: no flag is up and nothing has been retried. */
  function FreshStatus(n: nat): TransferStatus {
    TransferStatus(seq(n, _ => ChunkStatus(false, 0)), false)
  }

  predicate AllChunksListed(td: TransferData, n: nat) {
    forall a :: a in td ==> |td[a].chunks| == n
  }

  lemma RetriesStayBounded(t: TransferData, u: TransferData, k: nat, targets: set<Addr>, count: nat, max: nat)
    requires RetriesBounded(t, max) && RetriesAre(t, u, k, targets, count) && count <= max
    ensures RetriesBounded(u, max)
  {
  }

  lemma BoundsOfNone(max: nat)
    ensures RetriesBounded(map[], max)
  {
  }

  lemma BoundsGrow(t: TransferData, max: nat)
    requires RetriesBounded(t, 0)
    ensures RetriesBounded(t, max)
  {
  }

  /** Each of `devices` has acknowledged its START, or the shared retries are used up. */
  predicate Answered(devices: seq<Addr>, addrs: seq<Addr>, retries: nat, max: nat) {
    forall a :: a in devices && a != BROADCAST_ADDRESS ==> a in addrs || retries == max + 1
  }

  lemma AnsweredNext(devices: seq<Addr>, k: nat, addrs: seq<Addr>, more: seq<Addr>, retries: nat, next: nat, max: nat)
    requires k < |devices| && Answered(devices[..k], addrs, retries, max)
    requires addrs <= more && retries <= next <= max + 1
    requires devices[k] == BROADCAST_ADDRESS || devices[k] in more || next == max + 1
    ensures Answered(devices[..k + 1], more, next, max)
  {
    assert forall a :: a in devices[..k + 1] ==> a in devices[..k] || a == devices[k];
    assert forall a :: a in addrs ==> a in more;
  }

  /** The test of the START phase, exactly. For one device: it has answered. For a broadcast: no duplicates are asked
      for and exactly those asked for have answered. One answer from anyone else and it never succeeds again. */
  lemma StartTestExact(addrs: seq<Addr>, devices: seq<Addr>)
    requires NoDuplicates(addrs)
    ensures forall a :: a != BROADCAST_ADDRESS ==> (StartAcknowledged(addrs, a, devices) <==> a in addrs)
    ensures StartAcknowledged(addrs, BROADCAST_ADDRESS, devices) <==>
      NoDuplicates(devices) && Elements(addrs) == Elements(devices)
  {
    MultisetOfElements(addrs);
    MultisetOfElements(devices);
    if SameSorted(addrs, devices) {
      assert forall a :: a in addrs <==> a in multiset(addrs);
      assert forall a :: a in devices <==> a in multiset(devices);
      assert Elements(addrs) == Elements(devices);
    }
  }

  /** Every START frame from `from` on was sent after a look at which its address had not answered. */
  predicate StartsNeeded(sent: seq<Transmission>, from: nat, addrs: seq<Addr>, addr: Addr, devices: seq<Addr>) {
    forall p :: from <= p < |sent| ==>
      sent[p].tested <= |addrs| && !StartAcknowledged(addrs[..sent[p].tested], addr, devices)
  }

  lemma NoneNeeded(sent: seq<Transmission>, addrs: seq<Addr>, addr: Addr, devices: seq<Addr>)
    ensures StartsNeeded(sent, |sent|, addrs, addr, devices)
  {
  }

  lemma StartsNeededNext(sent: seq<Transmission>, next: seq<Transmission>, from: nat, addrs: seq<Addr>, more: seq<Addr>,
                         addr: Addr, devices: seq<Addr>)
    requires from <= |sent| && StartsNeeded(sent, from, addrs, addr, devices) && addrs <= more
    requires next == sent || (|next| == |sent| + 1 && next[..|sent|] == sent
                              && next[|sent|].tested == |addrs| && !StartAcknowledged(addrs, addr, devices))
    ensures StartsNeeded(next, from, more, addr, devices)
  {
    forall p | from <= p < |next|
      ensures next[p].tested <= |more| && !StartAcknowledged(more[..next[p].tested], addr, devices)
    {
      if p < |sent| {
        assert next[p] == sent[p] && more[..sent[p].tested] == addrs[..sent[p].tested];
      } else {
        assert more[..|addrs|] == addrs;
      }
    }
  }

  /** Every target of a chunk frame to `addr` has acknowledged chunk `k`. */
  predicate HeardFrom(log: seq<Record>, k: nat, addr: Addr, devices: seq<Addr>) {
    if addr == BROADCAST_ADDRESS then NoDuplicates(devices) && forall a :: a in devices ==> (a, k) in AcksIn(log)
    else (addr, k) in AcksIn(log)
  }

  lemma ChunkTestExact(td: TransferData, log: seq<Record>, k: nat, addr: Addr, devices: seq<Addr>)
    requires FlagsAre(td, AcksIn(log)) && td.Keys == Elements(devices) && forall a :: a in td ==> k < |td[a].chunks|
    requires addr == BROADCAST_ADDRESS || addr in devices
    ensures ChunkAcknowledged(td, k, addr, devices) <==> HeardFrom(log, k, addr, devices)
  {
    if addr == BROADCAST_ADDRESS {
      BroadcastTestExact(td, k, devices);
    }
  }

  /** Every chunk frame from `from` on was sent after a look at which some target had not acknowledged it. */
  predicate ChunksNeeded(sent: seq<Transmission>, from: nat, log: seq<Record>, k: nat, addr: Addr, devices: seq<Addr>) {
    forall p :: from <= p < |sent| ==>
      sent[p].tested <= |log| && !HeardFrom(log[..sent[p].tested], k, addr, devices)
  }

  lemma NoChunkNeeded(sent: seq<Transmission>, log: seq<Record>, k: nat, addr: Addr, devices: seq<Addr>)
    ensures ChunksNeeded(sent, |sent|, log, k, addr, devices)
  {
  }

  lemma TargetsListed(addr: Addr, devices: seq<Addr>, td: TransferData)
    requires td.Keys == Elements(devices) && (addr == BROADCAST_ADDRESS || addr in devices)
    ensures Targets(addr, devices) <= td.Keys
  {
  }

  lemma ChunksNeededNext(sent: seq<Transmission>, next: seq<Transmission>, from: nat, log: seq<Record>,
                         more: seq<Record>,
                         k: nat, addr: Addr, devices: seq<Addr>)
    requires from <= |sent| && ChunksNeeded(sent, from, log, k, addr, devices) && Continues(log, more)
    requires next == sent || (|next| == |sent| + 1 && next[..|sent|] == sent
                              && next[|sent|].tested == |log| && !HeardFrom(log, k, addr, devices))
    ensures ChunksNeeded(next, from, more, k, addr, devices)
  {
    hide HeardFrom;
    forall p | from <= p < |next|
      ensures next[p].tested <= |more| && !HeardFrom(more[..next[p].tested], k, addr, devices)
    {
      if p < |sent| {
        assert next[p] == sent[p] && more[..sent[p].tested] == more[..|log|][..sent[p].tested] == log[..sent[p].tested];
      } else {
        assert more[..|log|] == log;
      }
    }
  }

  lemma AcknowledgedIsAnswered(addrs: seq<Addr>, addr: Addr, devices: seq<Addr>)
    requires StartAcknowledged(addrs, addr, devices)
    ensures if addr == BROADCAST_ADDRESS then forall a :: a in devices ==> a in addrs else addr in addrs
  {
    assert addr == BROADCAST_ADDRESS ==> forall a :: a in devices ==> a in multiset(devices);
  }

  /** Every requested device is reported as acknowledged or as missed. */
  predicate Covers(devices: seq<Addr>, acked: seq<Addr>, missed: set<Addr>) {
    forall a :: a in devices ==> a in acked || a in missed
  }

  /** What the START phase reports: `acked` and `missed` are disjoint, and they cover the requested devices
      exactly if no requested device's ack came in after `acked` was read; such a device is in neither. */
  predicate StartReported(devices: seq<Addr>, addrs: seq<Addr>, acked: seq<Addr>, missed: set<Addr>) {
    && acked <= addrs
    && Elements(acked) !! missed
    && (forall a :: a in missed ==> a in devices && a !in addrs)
    && (forall a :: a in devices && a !in acked && a !in missed ==> a in addrs[|acked|..])
    && (Covers(devices, acked, missed) <==> forall a :: a in addrs[|acked|..] ==> a !in devices)
  }

  /** Such a late ack is possible: one device, its START on the air, delivered while `acked` is read as empty; the ack
      comes in before `missed` is. */
  lemma LateAckIsReportedNowhere(l: Link, fw: Image, sha: DigestFunction) returns (v: View, w: View)
    requires SessionStart(l, fw) && l.dev.AcceptsUpdate()
    ensures var sent := Send(map[7 := l], 7, OtaStart(|fw|, ChunksCount(|fw|)));
      v == View(NetStep(sent, 7, Deliver([], [], false), sha), [], map[], [], 0) && w == v.(addrs := [7])
    ensures ViewInv(v, fw, sha) && ViewInv(w, fw, sha) && Later(v, w)
    ensures !Covers([7], v.addrs, Elements([7]) - Elements(w.addrs))
  {
    var start := OtaStart(|fw|, ChunksCount(|fw|));
    var sent := Send(map[7 := l], 7, start);
    hide Pass, HoldsChunks;
    SessionStartInv(l, fw, sha);
    SendKeeps(l, start, fw, sha);
    assert [] + [start] == [start];
    StartDelivered(sent[7], start, fw, sha);
    var world := NetStep(sent, 7, Deliver([], [], false), sha);
    v, w := View(world, [], map[], [], 0), View(world, [7], map[], [], 0);
    hide LinkInv, LinkStep, Send;
    AckBetweenReads(world, fw, sha);
  }

  lemma AckBetweenReads(world: World, fw: Image, sha: DigestFunction)
    requires WorldInv(world, fw, sha) && 7 in world && world[7].started
    ensures var v, w := View(world, [], map[], [], 0), View(world, [7], map[], [], 0);
      ViewInv(v, fw, sha) && ViewInv(w, fw, sha) && Later(v, w)
        && !Covers([7], v.addrs, Elements([7]) - Elements(w.addrs))
  {
    hide WorldInv, LinkGrows;
    WorldGrowsReflexive(world);
    assert 7 in [7];
  }

  lemma StartDelivered(l: Link, start: Request, fw: Image, sha: DigestFunction)
    requires LinkInv(l, fw, sha) && l.queue == [start] && start.OtaStart? && HostFrame(start, fw, sha)
    requires l.acked == {} && l.dev.AcceptsUpdate()
    ensures var m := LinkStep(l, Deliver([], [], false), sha); LinkInv(m, fw, sha) && m.started
  {
    LinkStepKeeps(l, Deliver([], [], false), fw, sha);
    DeliverStart(l, start, fw, sha);
    hide LinkInv, Pass;
  }

  lemma StartOutcome(v: View, w: View, devices: seq<Addr>, missed: set<Addr>, fw: Image, sha: DigestFunction)
    requires ViewInv(v, fw, sha) && ViewInv(w, fw, sha) && Later(v, w)
      && missed == Elements(devices) - Elements(w.addrs)
    ensures NoDuplicates(v.addrs) && AddrsBacked(w.world, v.addrs) && v.world.Keys == w.world.Keys
    ensures v.addrs <= w.addrs
    ensures StartReported(devices, w.addrs, v.addrs, missed)
  {
    hide WorldInv, FlagsUp, FlagsAre;
    forall a | a in devices && a in w.addrs && a !in v.addrs ensures a in w.addrs[|v.addrs|..] {
      var k :| 0 <= k < |w.addrs| && w.addrs[k] == a;
      assert w.addrs[|v.addrs|..][k - |v.addrs|] == a;
    }
    forall a | a in w.addrs[|v.addrs|..] && a in devices ensures a !in v.addrs && a !in missed {
      var k :| |v.addrs| <= k < |w.addrs| && w.addrs[k] == a;
      assert forall j :: 0 <= j < |v.addrs| ==> v.addrs[j] == w.addrs[j] != a;
    }
  }

  // ----- the transfer's verdict

  /** Before any chunk is sent no chunk ack can have been heard. */
  lemma NothingHeard(w: World, log: seq<Record>)
    requires WorldOnlyStarts(w) && HeardBacked(w, AcksIn(log)) && OnlyAcksAdded([], log)
    ensures log == []
  {
    assert forall h :: h in AcksIn(log) ==> h.1 in w[h.0].acked && OnlyStarts(w[h.0]);
    assert AcksIn(log) == {};
    SomeAckIn(log);
  }

  /** Chunk `i` of device `a` has been acknowledged, or its retries are used up. */
  predicate Chased(td: TransferData, log: seq<Record>, a: Addr, i: nat, max: nat) {
    a in td && i < |td[a].chunks| && (td[a].chunks[i].acked || FramesFor(FramesIn(log), a, i) > max)
  }

  predicate ChasedAll(td: TransferData, log: seq<Record>, devices: set<Addr>, from: nat, next: nat, max: nat) {
    forall a, i :: a in devices && from <= i < next ==> Chased(td, log, a, i, max)
  }

  lemma ChasedStays(v: View, w: View, devices: set<Addr>, from: nat, next: nat, max: nat)
    requires Later(v, w) && ChasedAll(v.td, v.log, devices, from, next, max)
    ensures ChasedAll(w.td, w.log, devices, from, next, max)
  {
    LaterParts(v, w);
    hide Later;
    forall a, i | a in devices && from <= i < next ensures Chased(w.td, w.log, a, i, max) {
      assert Chased(v.td, v.log, a, i, max);
      FramesGrow(v.log, w.log, a, i);
    }
  }

  lemma NoneChased(td: TransferData, log: seq<Record>, devices: set<Addr>, k: nat, max: nat)
    ensures ChasedAll(td, log, devices, k, k, max) && ChasedAll(td, log, {}, k, k + 1, max)
  {
  }

  lemma ChasedBoth(td: TransferData, log: seq<Record>, xs: set<Addr>, ys: set<Addr>, k: nat, max: nat)
    requires ChasedAll(td, log, xs, k, k + 1, max) && ChasedAll(td, log, ys, k, k + 1, max)
    ensures ChasedAll(td, log, xs + ys, k, k + 1, max)
  {
  }

  lemma ChasedNext(td: TransferData, log: seq<Record>, devices: set<Addr>, k: nat, max: nat)
    requires ChasedAll(td, log, devices, 0, k, max) && ChasedAll(td, log, devices, k, k + 1, max)
    ensures ChasedAll(td, log, devices, 0, k + 1, max)
  {
  }

  lemma ChasedAmong(td: TransferData, log: seq<Record>, devices: set<Addr>, a: Addr, from: nat, next: nat, max: nat)
    requires ChasedAll(td, log, devices, from, next, max) && a in devices
    ensures ChasedAll(td, log, {a}, from, next, max)
  {
  }

  /** The loop for one chunk ends with it chased at every target. */
  lemma TargetsChased(td: TransferData, before: seq<Record>, log: seq<Record>, k: nat, addr: Addr, devices: seq<Addr>,
                      sent: nat, max: nat)
    requires td.Keys == Elements(devices) && (forall a :: a in td ==> k < |td[a].chunks|)
      && Targets(addr, devices) <= td.Keys
    requires FramesAdded(FramesIn(before), FramesIn(log), addr, k, sent)
    requires ChunkAcknowledged(td, k, addr, devices) || sent == max + 1
    ensures ChasedAll(td, log, Targets(addr, devices), k, k + 1, max)
  {
    forall a, i | a in Targets(addr, devices) && k <= i < k + 1 ensures Chased(td, log, a, i, max) {
      AddedCount(FramesIn(before), FramesIn(log), addr, k, sent, a, k);
    }
  }

  /** Some chunk of `a` was sent as often as the retries allow. */
  ghost predicate OutOfRetries(log: seq<Record>, a: Addr, n: nat, max: nat) {
    exists i: nat :: i < n && FramesFor(FramesIn(log), a, i) > max
  }

  /** The verdict recorded for `a` was reached, and failure means that some chunk ran out of retries. */
  ghost predicate DeviceReported(td: TransferData, log: seq<Record>, a: Addr, n: nat, max: nat) {
    a in td && VerdictReached(a, td[a].success) in log && (td[a].success || OutOfRetries(log, a, n, max))
  }

  ghost predicate AllReported(td: TransferData, log: seq<Record>, devices: set<Addr>, n: nat, max: nat) {
    forall a :: a in devices ==> DeviceReported(td, log, a, n, max)
  }

  lemma NoneReported(td: TransferData, log: seq<Record>, n: nat, max: nat)
    ensures AllReported(td, log, {}, n, max)
  {
  }

  lemma ReportedStays(v: View, w: View, devices: set<Addr>, n: nat, max: nat)
    requires Meanwhile(v, w) && AllReported(v.td, v.log, devices, n, max)
    ensures AllReported(w.td, w.log, devices, n, max)
  {
    LaterParts(v, w);
    AcksAddNothingElse(v.log, w.log, n);
    hide Meanwhile, Later;
    forall a | a in devices ensures DeviceReported(w.td, w.log, a, n, max) {
      assert DeviceReported(v.td, v.log, a, n, max);
      var p :| 0 <= p < |v.log| && v.log[p] == VerdictReached(a, v.td[a].success);
      assert w.log[p] == w.log[..|v.log|][p] == v.log[p];
    }
  }

  function WithVerdict(td: TransferData, a: Addr): TransferData
    requires a in td
  {
    td[a := td[a].(success := AllAcked(td[a]))]
  }

  /** Reaching one verdict. */
  lemma JudgeOne(td: TransferData, log: seq<Record>, devices: set<Addr>, a: Addr, n: nat, max: nat)
    requires FlagsAre(td, AcksIn(log)) && VerdictsFit(log, n) && AllReported(td, log, devices, n, max)
    requires a in td && |td[a].chunks| == n && ChasedAll(td, log, {a}, 0, n, max)
    ensures var u := WithVerdict(td, a); var next := log + [VerdictReached(a, u[a].success)];
      FlagsAre(u, AcksIn(next)) && VerdictsFit(next, n) && FramesIn(next) == FramesIn(log)
      && RetriesKept(td, u) && AllReported(u, next, devices + {a}, n, max)
  {
    var u := WithVerdict(td, a);
    var r := VerdictReached(a, u[a].success);
    LogNext(log, r);
    assert u[a].success <==> AllHeard(log, a, n);
    assert FramesIn(log + [r]) == FramesIn(log);
    hide AcksIn, FramesIn, VerdictsFit;
    if !u[a].success {
      var i :| 0 <= i < n && !td[a].chunks[i].acked;
      assert Chased(td, log, a, i, max);
    }
    assert forall x :: x in log + [r] <==> x in log || x == r;
    assert r in log + [r];
    forall b | b in devices && b != a ensures DeviceReported(u, log + [r], b, n, max) {
      assert DeviceReported(td, log, b, n, max);
      assert u[b] == td[b];
    }
    VerdictNext(log, a, u[a].success, n);
  }

  lemma VerdictNext(log: seq<Record>, a: Addr, success: bool, n: nat)
    requires VerdictsFit(log, n) && (success <==> AllHeard(log, a, n))
    ensures VerdictsFit(log + [VerdictReached(a, success)], n)
  {
    LogNext(log, VerdictReached(a, success));
  }

  /** A verdict on one device leaves what is known of the chunks. */
  lemma VerdictKeepsChased(td: TransferData, log: seq<Record>, a: Addr, r: Record, devices: set<Addr>, n: nat, max: nat)
    requires a in td && ChasedAll(td, log, devices, 0, n, max) && FramesIn(log + [r]) == FramesIn(log)
    ensures ChasedAll(WithVerdict(td, a), log + [r], devices, 0, n, max)
  {
    forall b, i | b in devices && 0 <= i < n ensures Chased(WithVerdict(td, a), log + [r], b, i, max) {
      assert Chased(td, log, b, i, max);
    }
  }

  /** What is known of a transfer between two verdicts; `judged` have theirs. */
  ghost predicate Judging(td: TransferData, log: seq<Record>, devices: set<Addr>, judged: set<Addr>, n: nat, max: nat) {
    && td.Keys == devices && AllChunksListed(td, n) && RetriesBounded(td, max)
    && VerdictsFit(log, n) && ChasedAll(td, log, devices, 0, n, max) && AllReported(td, log, judged, n, max)
  }

  lemma JudgingStays(v: View, w: View, devices: set<Addr>, judged: set<Addr>, n: nat, max: nat)
    requires Meanwhile(v, w) && Judging(v.td, v.log, devices, judged, n, max)
    ensures Judging(w.td, w.log, devices, judged, n, max) && FramesIn(w.log) == FramesIn(v.log)
  {
    assert Later(v, w) && RetriesKept(v.td, w.td) && OnlyAcksAdded(v.log, w.log);
    LaterKeepsShape(v, w, n);
    ChasedStays(v, w, devices, 0, n, max);
    ReportedStays(v, w, judged, n, max);
    hide Later, RetriesBounded, VerdictsFit, ChasedAll, AllReported, FramesIn, Meanwhile, OnlyAcksAdded;
    AcksAddNothingElse(v.log, w.log, n);
    RetriesStayBounded(v.td, w.td, 0, {}, 0, max);
  }

  /** One more verdict. */
  lemma JudgingNext(td: TransferData, log: seq<Record>, devices: set<Addr>, judged: set<Addr>, a: Addr, n: nat,
                    max: nat)
    requires Judging(td, log, devices, judged, n, max) && a in devices && FlagsAre(td, AcksIn(log))
    ensures var u := WithVerdict(td, a); var next := log + [VerdictReached(a, u[a].success)];
      Judging(u, next, devices, judged + {a}, n, max) && FlagsAre(u, AcksIn(next))
      && FramesIn(next) == FramesIn(log) && AcksIn(next) == AcksIn(log) && Continues(log, next)
  {
    hide RetriesBounded, VerdictsFit, ChasedAll, AllReported, FramesIn, AcksIn, FlagsAre, RetriesAre;
    var r := VerdictReached(a, AllAcked(td[a]));
    ChasedAmong(td, log, devices, a, 0, n, max);
    JudgeOne(td, log, judged, a, n, max);
    VerdictKeepsChased(td, log, a, r, devices, n, max);
    RetriesStayBounded(td, WithVerdict(td, a), 0, {}, 0, max);
    ContinuesNext(log, r);
    LogNext(log, r);
    assert AcksIn(log + [r]) == AcksIn(log);
  }

  // ----- what a transfer reports

  /** The result of a transfer against its log: verdicts on every device, each reached on the acks heard by then and
      after the last frame; frames in order; and a failure only where some chunk ran out of retries. */
  ghost predicate TransferReported(result: TransferData, log: seq<Record>, devices: seq<Addr>, n: nat, max: nat,
                                   byBroadcast: bool) {
    && (forall a :: a in devices ==> a in result)
    && VerdictsFit(log, n)
    && FramesInOrder(FramesIn(log), n, byBroadcast, devices)
    && AllReported(result, log, Elements(devices), n, max)
  }

  /** All acks of `a` were heard before the first verdict was reached. */
  ghost predicate HeardInTime(log: seq<Record>, a: Addr, n: nat) {
    exists p :: 0 <= p <= |log| && NoVerdict(log[..p]) && AllHeard(log[..p], a, n)
  }

  /** What a transfer's success means for the device: every chunk has reached it intact, the image is in its flash,
      and it is ready again unless it has been reset since. */
  ghost predicate Installed(l: Link, fw: Image) {
    Complete(l.arrived, fw) && HoldsImage(l.dev.flash, fw)
      && (fw != [] && l.dev.chunkCount != 0 ==> l.dev.status == Ready)
  }

  /** Safety: a device judged a success holds the image. */
  lemma SuccessInstalls(w: World, result: TransferData, devices: seq<Addr>, log: seq<Record>, max: nat,
                        byBroadcast: bool, fw: Image, sha: DigestFunction)
    requires WorldInv(w, fw, sha) && AddrsBacked(w, devices) && HeardBacked(w, AcksIn(log))
    requires TransferReported(result, log, devices, ChunksCount(|fw|), max, byBroadcast)
    ensures forall a :: a in devices && result[a].success ==> a in w && Installed(w[a], fw)
  {
    hide LinkInv, HoldsImage, FramesInOrder, AcksIn, VerdictsFit;
    forall a | a in devices && result[a].success ensures a in w && Installed(w[a], fw) {
      assert a in Elements(devices) && DeviceReported(result, log, a, ChunksCount(|fw|), max) && LinkInv(w[a], fw, sha);
      SuccessWasHeard(log, a, ChunksCount(|fw|));
      forall i: nat | i < ChunksCount(|fw|) ensures i in w[a].acked {
        assert (a, i) in AcksIn(log);
      }
      AllArrivedInstalled(w[a], fw, sha);
    }
  }

  /** Completeness: a device fails only if some of its acks was not heard before the first verdict, and only if some
      chunk was sent to it as often as the retries allow. */
  lemma FailureIsExplained(result: TransferData, devices: seq<Addr>, log: seq<Record>, n: nat, max: nat,
                           byBroadcast: bool)
    requires TransferReported(result, log, devices, n, max, byBroadcast)
    ensures forall a :: a in devices && !result[a].success ==> !HeardInTime(log, a, n) && OutOfRetries(log, a, n, max)
  {
    hide FramesInOrder, AcksIn, VerdictsFit;
    forall a | a in devices && !result[a].success ensures !HeardInTime(log, a, n) && OutOfRetries(log, a, n, max) {
      assert a in Elements(devices) && DeviceReported(result, log, a, n, max);
      if HeardInTime(log, a, n) {
        var p :| 0 <= p <= |log| && NoVerdict(log[..p]) && AllHeard(log[..p], a, n);
        HeardInTimeSucceeds(log, p, a, n);
        assert false;
      }
    }
  }

  /** When the acks of all devices were heard in time, or no chunk ran out of retries, every device succeeded, holds
      the image and, not having been reset since its START, is ready. */
  lemma CompleteTransfer(w: World, result: TransferData, devices: seq<Addr>, log: seq<Record>, max: nat,
                         byBroadcast: bool, fw: Image, sha: DigestFunction)
    requires WorldInv(w, fw, sha) && AddrsBacked(w, devices) && HeardBacked(w, AcksIn(log)) && fw != []
    requires TransferReported(result, log, devices, ChunksCount(|fw|), max, byBroadcast)
    requires forall a :: a in devices ==>
      w[a].dev.chunkCount != 0
      && (HeardInTime(log, a, ChunksCount(|fw|)) || !OutOfRetries(log, a, ChunksCount(|fw|), max))
    ensures forall a :: a in devices ==>
      result[a].success && HoldsImage(w[a].dev.flash, fw) && w[a].dev.status == Ready
  {
    hide WorldInv, HoldsImage, HeardInTime, OutOfRetries, FramesInOrder, VerdictsFit, AcksIn;
    FailureIsExplained(result, devices, log, ChunksCount(|fw|), max, byBroadcast);
    SuccessInstalls(w, result, devices, log, max, byBroadcast, fw, sha);
  }
}
