/** One host, any number of devices and a lossy radio. Downlink frames of a device stay in order but
    may be lost, damaged or heard twice; an acknowledgement on the air may reach the host at any
    time, any number of times, or never; a device may be reset at any time. */
module Network {
  import opened Basics
  import opened Flash
  import opened OtaDevice
  import opened Firmware
  import opened OtaSession

  /** A device, the frames on their way to it (oldest first), and history of the session: whether it
      has sent a START_ACK, the chunks it has acknowledged, and those that reached it intact while
      it was being updated. */
  datatype Link = Link(dev: Device, queue: seq<Request>, started: bool, acked: set<nat>, arrived: set<nat>)

  datatype LinkEvent =
    | Lose
    | Deliver(data: ChunkBytes, digest: Digest, again: bool)
    | Reboot(user: bool)

  type World = map<Addr, Link>

  /** What is heard of `sent` when its chunk bytes and digest come through as `data` and `digest`. */
  function Heard(sent: Request, data: ChunkBytes, digest: Digest): Request {
    match sent
    case OtaStart(_, _) => sent
    case OtaChunk(index, _, _) => OtaChunk(index, data, digest)
  }

  /** The digest reveals the damage: a frame that verifies carries the bytes that were sent. */
  predicate DamageShows(sent: Request, data: ChunkBytes, digest: Digest, sha: DigestFunction) {
    sent.OtaChunk? && sha(data) == digest ==> data == sent.data
  }

  function LinkStep(l: Link, ev: LinkEvent, sha: DigestFunction): Link
    requires l.dev.Valid()
  {
    match ev
    case Lose => if l.queue == [] then l else l.(queue := l.queue[1..])
    case Reboot(user) => l.(dev := Boot(l.dev, user))
    case Deliver(data, digest, again) =>
      if l.queue == [] || !DamageShows(l.queue[0], data, digest, sha) then l
      else
        var req := Heard(l.queue[0], data, digest);
        var r := Pass(l.dev, req, sha);
        var intact := req.OtaChunk? && sha(data) == digest && l.dev.AcceptsUpdate() && req.index < l.dev.chunkCount;
        Link(r.dev, if again then l.queue else l.queue[1..], l.started || StartAck in r.acks, l.acked + AckedIn(r.acks),
             l.arrived + if intact then {req.index as nat} else {})
  }

  function NetStep(w: World, a: Addr, ev: LinkEvent, sha: DigestFunction): World
    requires forall b :: b in w ==> w[b].dev.Valid()
  {
    if a in w then w[a := LinkStep(w[a], ev, sha)] else w
  }

  /** Hand a frame to the radio, for one device or for all. */
  function Send(w: World, destination: Addr, req: Request): World {
    map a | a in w ::
      if destination == BROADCAST_ADDRESS || a == destination then w[a].(queue := w[a].queue + [req]) else w[a]
  }

  // ----- what every step keeps

  /** A frame exactly as the host sends it in the session for `fw`. */
  predicate HostFrame(req: Request, fw: Image, sha: DigestFunction) {
    match req
    case OtaStart(size, count) => size == |fw| && count == ChunksCount(|fw|)
    case OtaChunk(index, data, digest) =>
      index < ChunksCount(|fw|) && data == ChunkData(fw, index) && digest == sha(data)
  }

  /** Once a chunk is on its way, no START follows it. */
  predicate StartsFirst(queue: seq<Request>) {
    forall j, k :: 0 <= j < k < |queue| && queue[j].OtaChunk? ==> queue[k].OtaChunk?
  }

  ghost predicate QueueInv(l: Link, fw: Image, sha: DigestFunction) {
    && (forall k :: 0 <= k < |l.queue| ==> HostFrame(l.queue[k], fw, sha))
    && StartsFirst(l.queue)
    && (l.acked != {} ==> forall k :: 0 <= k < |l.queue| ==> l.queue[k].OtaChunk?)
  }

  /** The device is being updated with `fw`, or it has been reset and refuses chunks. */
  predicate UpdatingOrReset(dev: Device, fw: Image, acked: set<nat>) {
    dev.chunkCount == 0 || (InSession(dev, fw) && LastIn(dev, acked))
  }

  ghost predicate LinkInv(l: Link, fw: Image, sha: DigestFunction) {
    && l.dev.Valid() && l.dev.Quiet()
    && QueueInv(l, fw, sha)
    && l.arrived <= l.acked
    && (l.started ==>
          l.acked <= l.arrived && HoldsChunks(l.dev.flash, fw, l.acked) && UpdatingOrReset(l.dev, fw, l.acked))
    && (l.started && InSession(l.dev, fw) && ChunksCount(|fw|) - 1 in l.acked ==> l.dev.status == Ready)
    && (!l.started && l.acked == {} ==> Covered(l.dev, fw))
  }

  /** The state in which a session for `fw` may begin: nothing on the air, erase coverage given. */
  ghost predicate SessionStart(l: Link, fw: Image) {
    && l.dev.Valid() && l.dev.Quiet() && Covered(l.dev, fw)
    && l.queue == [] && !l.started && l.acked == {} && l.arrived == {}
  }

  /** No chunk of the session has been sent to this device yet. */
  ghost predicate OnlyStarts(l: Link) {
    l.acked == {} && forall k :: 0 <= k < |l.queue| ==> l.queue[k].OtaStart?
  }

  /** History only grows. */
  predicate LinkGrows(l: Link, m: Link) {
    (l.started ==> m.started) && l.acked <= m.acked && l.arrived <= m.arrived
  }

  lemma SessionStartInv(l: Link, fw: Image, sha: DigestFunction)
    requires SessionStart(l, fw)
    ensures LinkInv(l, fw, sha) && OnlyStarts(l)
  {
  }

  /** A delivered START: accepted on blank pages, or ignored by a device running its user image. */
  lemma DeliverStart(l: Link, req: Request, fw: Image, sha: DigestFunction)
    requires LinkInv(l, fw, sha) && req.OtaStart? && HostFrame(req, fw, sha) && l.acked == {}
    ensures var r := Pass(l.dev, req, sha);
      if l.dev.AcceptsUpdate()
      then r.acks == [StartAck] && InSession(r.dev, fw) && LastIn(r.dev, {}) && HoldsChunks(r.dev.flash, fw, {})
      else r.acks == [] && r.dev == l.dev
  {
    if l.dev.AcceptsUpdate() {
      if l.started {
        assert Blank(l.dev.flash, PagesCount(|fw|));
      }
      hide Pass;
      StartPass(l.dev, req, fw, sha);
    }
  }

  /** A delivered chunk, from the updating device's side. */
  lemma DeliverChunkUpdating(l: Link, req: Request, fw: Image, sha: DigestFunction)
    requires LinkInv(l, fw, sha) && l.started && InSession(l.dev, fw) && LastIn(l.dev, l.acked)
    requires req.OtaChunk? && req.index < ChunksCount(|fw|) && SessionFrame(req, fw, sha)
    ensures var r := Pass(l.dev, req, sha); var now := l.acked + AckedIn(r.acks);
      && StartAck !in r.acks && InSession(r.dev, fw) && LastIn(r.dev, now) && HoldsChunks(r.dev.flash, fw, now)
      && (sha(req.data) == req.sha ==> req.index in now)
      && (sha(req.data) != req.sha ==> AckedIn(r.acks) <= l.acked)
      && (ChunksCount(|fw|) - 1 in now ==> r.dev.status == Ready)
  {
    hide Pass, Programmed, ChunkAddress, HoldsChunks;
    ChunkPass(l.dev, req, fw, sha);
    var r := Pass(l.dev, req, sha);
    if Verified(req, fw, sha) && l.dev.lastAcked != req.index {
      var buffer := req.data + l.dev.chunk[|req.data|..];
      assert buffer[..|req.data|] == req.data;
      AddingAChunk(l.dev.flash, fw, l.acked, req.index, buffer);
      assert AckedIn(r.acks) == {req.index as nat};
    } else {
      assert l.acked + AckedIn(r.acks) == l.acked;
    }
  }

  /** A delivered chunk on a device that has been reset, or whose START was never acknowledged. */
  lemma DeliverChunkOther(l: Link, req: Request, fw: Image, sha: DigestFunction)
    requires l.dev.Valid() && l.dev.Quiet() && req.OtaChunk?
    ensures var r := Pass(l.dev, req, sha);
      && r.dev.Quiet() && StartAck !in r.acks
      && (l.dev.chunkCount == 0 ==> r.acks == [] && r.dev.chunkCount == 0)
      && (r.acks == [] ==>
            r.dev.flash == l.dev.flash && r.dev.requireErase == l.dev.requireErase && r.dev.status == l.dev.status)
      && (r.acks != [] ==> r.acks == [ChunkAck(req.index)])
      && (sha(req.data) == req.sha && l.dev.AcceptsUpdate() && req.index < l.dev.chunkCount ==> r.acks != [])
  {
    hide Programmed;
  }

  /** Every event of the network keeps the invariant, and history grows. */
  lemma LinkStepKeeps(l: Link, ev: LinkEvent, fw: Image, sha: DigestFunction)
    requires LinkInv(l, fw, sha)
    ensures LinkInv(LinkStep(l, ev, sha), fw, sha) && LinkGrows(l, LinkStep(l, ev, sha))
    ensures OnlyStarts(l) ==> OnlyStarts(LinkStep(l, ev, sha))
  {
    hide Pass, HoldsChunks, Blank;
    if ev.Deliver? && l.queue != [] && DamageShows(l.queue[0], ev.data, ev.digest, sha) {
      DeliverKeeps(l, ev, fw, sha);
    }
  }

  lemma DeliverKeeps(l: Link, ev: LinkEvent, fw: Image, sha: DigestFunction)
    requires LinkInv(l, fw, sha) && ev.Deliver? && l.queue != [] && DamageShows(l.queue[0], ev.data, ev.digest, sha)
    ensures LinkInv(LinkStep(l, ev, sha), fw, sha) && LinkGrows(l, LinkStep(l, ev, sha))
    ensures OnlyStarts(l) ==> OnlyStarts(LinkStep(l, ev, sha))
  {
    if l.queue[0].OtaStart? { DeliverStartKeeps(l, ev, fw, sha); } else { DeliverChunkKeeps(l, ev, fw, sha); }
  }

  lemma DeliverStartKeeps(l: Link, ev: LinkEvent, fw: Image, sha: DigestFunction)
    requires LinkInv(l, fw, sha) && ev.Deliver? && l.queue != [] && l.queue[0].OtaStart?
    ensures LinkInv(LinkStep(l, ev, sha), fw, sha) && LinkGrows(l, LinkStep(l, ev, sha))
    ensures OnlyStarts(l) ==> OnlyStarts(LinkStep(l, ev, sha))
  {
    hide Pass, HoldsChunks, Blank;
    DeliverStart(l, l.queue[0], fw, sha);
    assert [StartAck][1..] == [];
    assert AckedIn(Pass(l.dev, l.queue[0], sha).acks) == {};
    assert l.acked + {} == {} && l.arrived + {} == {};
  }

  lemma DeliverChunkKeeps(l: Link, ev: LinkEvent, fw: Image, sha: DigestFunction)
    requires LinkInv(l, fw, sha) && ev.Deliver? && l.queue != [] && l.queue[0].OtaChunk?
    requires DamageShows(l.queue[0], ev.data, ev.digest, sha)
    ensures LinkInv(LinkStep(l, ev, sha), fw, sha) && LinkGrows(l, LinkStep(l, ev, sha))
  {
    hide Pass, HoldsChunks, Blank;
    var req := Heard(l.queue[0], ev.data, ev.digest);
    var r := Pass(l.dev, req, sha);
    DeliverChunkOther(l, req, fw, sha);
    assert [ChunkAck(req.index)][1..] == [];
    assert AckedIn(r.acks) == if r.acks == [] then {} else {req.index as nat};
    assert r.acks == [] ==> l.acked + AckedIn(r.acks) == l.acked;
    if l.started && l.dev.chunkCount != 0 {
      DeliverChunkUpdating(l, req, fw, sha);
      var m := LinkStep(l, ev, sha);
      assert m.acked <= m.arrived;
    }
  }

  /** Sending a START before any chunk, or a chunk at any time, keeps the invariant. */
  lemma SendKeeps(l: Link, req: Request, fw: Image, sha: DigestFunction)
    requires LinkInv(l, fw, sha) && HostFrame(req, fw, sha) && (req.OtaChunk? || OnlyStarts(l))
    ensures LinkInv(l.(queue := l.queue + [req]), fw, sha)
    ensures req.OtaStart? ==> OnlyStarts(l.(queue := l.queue + [req]))
  {
    hide HoldsChunks, Blank;
  }

  lemma AllAckedInstalled(l: Link, fw: Image, sha: DigestFunction)
    requires LinkInv(l, fw, sha) && l.started && Complete(l.acked, fw)
    ensures HoldsImage(l.dev.flash, fw)
    ensures fw != [] && l.dev.chunkCount != 0 ==> l.dev.status == Ready
  {
    AllChunksAreTheImage(l.dev.flash, fw, l.acked);
  }

  /** Since its START_ACK a device acknowledges exactly the chunks that arrived intact. Once all have, it holds the
      image, whether or not the host ever hears of it, and is ready unless reset since. */
  lemma AllArrivedInstalled(l: Link, fw: Image, sha: DigestFunction)
    requires LinkInv(l, fw, sha) && l.started
    ensures l.acked == l.arrived
    ensures Complete(l.arrived, fw) ==> HoldsImage(l.dev.flash, fw)
    ensures Complete(l.arrived, fw) && fw != [] && l.dev.chunkCount != 0 ==> l.dev.status == Ready
  {
    if Complete(l.arrived, fw) {
      AllAckedInstalled(l, fw, sha);
    }
  }
}
