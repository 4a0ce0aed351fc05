/** An update that nothing disturbs: what the host sends to all, every device takes in and keeps. */
module Undisturbed {
  import opened Basics
  import opened Firmware
  import opened Network
  import opened OtaDevice
  import opened OtaSession

  /** The frames of a transfer, as the host makes them from its chunks. */
  function FramesOf(chunks: seq<DataChunk>): seq<Request>
    requires forall i :: 0 <= i < |chunks| ==> chunks[i].index < 0x1_0000_0000
  {
    seq(|chunks|, i requires 0 <= i < |chunks| => OtaChunk(chunks[i].index, chunks[i].data, chunks[i].sha))
  }

  /** The host's chunk frames are frames of the session, and as sent they verify. */
  lemma HostFrameVerifies(fw: Image, sha: DigestFunction, i: nat)
    requires i < ChunksCount(|fw|)
    ensures var req := FramesOf(Chunks(fw, sha))[i];
      HostFrame(req, fw, sha) && SessionChunk(req, fw, sha) && Verified(req, fw, sha) && req.index == i
  {
  }

  function SendAll(w: World, destination: Addr, reqs: seq<Request>): (x: World)
    ensures x.Keys == w.Keys && forall a :: a in w ==> x[a].dev == w[a].dev
    decreases |reqs|
  {
    if reqs == [] then w else Send(SendAll(w, destination, reqs[..|reqs| - 1]), destination, reqs[|reqs| - 1])
  }

  lemma {:induction false} BroadcastReachesAll(w: World, reqs: seq<Request>)
    ensures var x := SendAll(w, BROADCAST_ADDRESS, reqs);
      x.Keys == w.Keys && forall a :: a in w ==> x[a] == w[a].(queue := w[a].queue + reqs)
    decreases |reqs|
  {
    if reqs == [] {
      assert forall a :: a in w ==> w[a].queue + [] == w[a].queue;
    } else {
      var front, last := reqs[..|reqs| - 1], reqs[|reqs| - 1];
      BroadcastReachesAll(w, front);
      forall a | a in w ensures w[a].queue + front + [last] == w[a].queue + reqs {
        assert front + [last] == reqs;
      }
    }
  }

  /** Every frame on the way is delivered as it was sent, once. */
  function DeliverAll(l: Link, sha: DigestFunction): Link
    requires l.dev.Valid()
    decreases |l.queue|
  {
    if l.queue == [] then l else DeliverAll(LinkStep(l, Intact(l.queue[0]), sha), sha)
  }

  function Intact(req: Request): LinkEvent {
    match req
    case OtaStart(_, _) => Deliver([], [], false)
    case OtaChunk(_, data, digest) => Deliver(data, digest, false)
  }

  lemma IntactIsHandled(l: Link, sha: DigestFunction)
    requires l.dev.Valid() && l.queue != []
    ensures var m := LinkStep(l, Intact(l.queue[0]), sha); var r := Pass(l.dev, l.queue[0], sha);
      m.dev == r.dev && m.queue == l.queue[1..] && m.acked == l.acked + AckedIn(r.acks)
  {
    hide Pass;
  }

  lemma {:induction false} DeliverAllRuns(l: Link, sha: DigestFunction)
    requires l.dev.Valid()
    ensures var r := Run(l.dev, l.queue, sha);
      DeliverAll(l, sha).dev == r.dev && DeliverAll(l, sha).acked == l.acked + AckedIn(r.acks)
    decreases |l.queue|
  {
    if l.queue != [] {
      IntactIsHandled(l, sha);
      hide Pass, LinkStep, Intact;
      var m := LinkStep(l, Intact(l.queue[0]), sha);
      DeliverAllRuns(m, sha);
      AckedSplit(Pass(l.dev, l.queue[0], sha).acks, Run(m.dev, m.queue, sha).acks);
    }
  }

  /** All that the host sends in a session when every frame is needed once. */
  function SessionFrames(fw: Image, sha: DigestFunction): seq<Request> {
    [OtaStart(|fw|, |Chunks(fw, sha)|)] + FramesOf(Chunks(fw, sha))
  }

  ghost predicate InstalledAndReady(l: Link, fw: Image) {
    Complete(l.acked, fw) && HoldsImage(l.dev.flash, fw) && l.dev.status == Ready
  }

  lemma UndisturbedLinkInstalls(l: Link, fw: Image, sha: DigestFunction)
    requires fw != [] && SessionStart(l.(queue := []), fw) && l.dev.AcceptsUpdate() && l.queue == SessionFrames(fw, sha)
    ensures InstalledAndReady(DeliverAll(l, sha), fw)
  {
    var starts, frames := [OtaStart(|fw|, |Chunks(fw, sha)|)], FramesOf(Chunks(fw, sha));
    forall k | 0 <= k < |frames| ensures SessionChunk(frames[k], fw, sha) && k in VerifiedIn(frames, fw, sha) {
      HostFrameVerifies(fw, sha, k);
      VerifiedAt(frames, k, fw, sha);
    }
    hide HoldsImage, Run, VerifiedIn, DeliverAll, FramesOf, AckedIn, SessionChunk, Chunks;
    DeliverAllRuns(l, sha);
    IntactSessionInstalls(l.dev, starts, frames, fw, sha);
    var r := Run(l.dev, starts + frames, sha);
    assert {} + AckedIn(r.acks) == AckedIn(r.acks);
  }

  /** The START and all chunk frames, broadcast and delivered: every device that was ready or being programmed ends
      READY with the image in flash and every chunk acknowledged. */
  lemma UndisturbedBroadcastInstallsEverywhere(w: World, fw: Image, sha: DigestFunction)
    requires fw != [] && forall a :: a in w ==> SessionStart(w[a], fw)
    ensures var sent := SendAll(w, BROADCAST_ADDRESS, SessionFrames(fw, sha));
      forall a :: a in w && w[a].dev.AcceptsUpdate() ==>
        sent[a].dev.Valid() && InstalledAndReady(DeliverAll(sent[a], sha), fw)
  {
    var sent := SendAll(w, BROADCAST_ADDRESS, SessionFrames(fw, sha));
    BroadcastReachesAll(w, SessionFrames(fw, sha));
    hide InstalledAndReady, SendAll, DeliverAll, SessionFrames;
    forall a | a in w && w[a].dev.AcceptsUpdate()
      ensures sent[a].dev.Valid() && InstalledAndReady(DeliverAll(sent[a], sha), fw)
    {
      assert [] + SessionFrames(fw, sha) == SessionFrames(fw, sha);
      assert sent[a].(queue := []) == w[a];
      UndisturbedLinkInstalls(sent[a], fw, sha);
    }
  }
}
