/** The history of one transfer as the host sees it: chunk frames sent, acknowledgements heard and
    verdicts reached, in the order in which they happened. */
module HostLog {
  import opened Basics

  datatype Record =
    | FrameSent(destination: Addr, k: nat)
    | AckHeard(source: Addr, i: nat)
    | VerdictReached(device: Addr, success: bool)

  function Last(log: seq<Record>): Record
    requires log != []
  {
    log[|log| - 1]
  }

  function Front(log: seq<Record>): seq<Record>
    requires log != []
  {
    log[..|log| - 1]
  }

  /** The acknowledgements heard, as (device, chunk). */
  function AcksIn(log: seq<Record>): set<(Addr, nat)> {
    if log == [] then {}
    else AcksIn(Front(log)) + if Last(log).AckHeard? then {(Last(log).source, Last(log).i)} else {}
  }

  /** The chunk frames sent, as (destination, chunk), in order. */
  function FramesIn(log: seq<Record>): seq<(Addr, nat)> {
    if log == [] then []
    else FramesIn(Front(log)) + if Last(log).FrameSent? then [(Last(log).destination, Last(log).k)] else []
  }

  predicate NoVerdict(log: seq<Record>) {
    forall p :: 0 <= p < |log| ==> !log[p].VerdictReached?
  }

  /** Whether all acks of `a` have been heard. */
  predicate AllHeard(log: seq<Record>, a: Addr, n: nat) {
    forall i :: 0 <= i < n ==> (a, i) in AcksIn(log)
  }

  /** Every verdict is success exactly if all acks of that device had been heard when it was reached, and no
      frame is sent after a verdict. */
  predicate VerdictsFit(log: seq<Record>, n: nat) {
    log == [] ||
    (VerdictsFit(Front(log), n) &&
     match Last(log)
     case FrameSent(_, _) => NoVerdict(Front(log))
     case AckHeard(_, _) => true
     case VerdictReached(a, success) => success <==> AllHeard(Front(log), a, n))
  }

  lemma LogNext(log: seq<Record>, r: Record)
    ensures Front(log + [r]) == log && Last(log + [r]) == r
    ensures AcksIn(log + [r]) == AcksIn(log) + if r.AckHeard? then {(r.source, r.i)} else {}
    ensures FramesIn(log + [r]) == FramesIn(log) + if r.FrameSent? then [(r.destination, r.k)] else []
  {
    assert Front(log + [r]) == log;
  }

  // ----- one log continuing another

  predicate Continues(x: seq<Record>, y: seq<Record>) {
    |x| <= |y| && y[..|x|] == x
  }

  /** Nothing but acknowledgements was added. */
  predicate OnlyAcksAdded(x: seq<Record>, y: seq<Record>) {
    Continues(x, y) && forall p :: |x| <= p < |y| ==> y[p].AckHeard?
  }

  lemma LogReflexive(log: seq<Record>)
    ensures Continues(log, log)
  {
  }

  lemma ContinuesTransitive(x: seq<Record>, y: seq<Record>, z: seq<Record>)
    requires Continues(x, y) && Continues(y, z)
    ensures Continues(x, z)
    ensures OnlyAcksAdded(x, y) && OnlyAcksAdded(y, z) ==> OnlyAcksAdded(x, z)
  {
    assert z[..|x|] == z[..|y|][..|x|];
    assert forall p :: 0 <= p < |y| ==> z[p] == z[..|y|][p] == y[p];
  }

  lemma ContinuesNext(log: seq<Record>, r: Record)
    ensures Continues(log, log + [r]) && (r.AckHeard? ==> OnlyAcksAdded(log, log + [r]))
  {
  }

  lemma {:induction false} AcksGrow(x: seq<Record>, y: seq<Record>)
    requires Continues(x, y)
    ensures AcksIn(x) <= AcksIn(y)
    decreases |y|
  {
    if |x| < |y| {
      assert Front(y)[..|x|] == x;
      AcksGrow(x, Front(y));
    } else {
      assert x == y;
    }
  }

  lemma SomeAckIn(log: seq<Record>)
    requires OnlyAcksAdded([], log)
    ensures log != [] ==> AcksIn(log) != {}
  {
    if log != [] {
      assert (Last(log).source, Last(log).i) in AcksIn(log);
    }
  }

  lemma {:induction false} AcksAddNothingElse(x: seq<Record>, y: seq<Record>, n: nat)
    requires OnlyAcksAdded(x, y)
    ensures FramesIn(y) == FramesIn(x) && (NoVerdict(x) ==> NoVerdict(y)) && (VerdictsFit(x, n) ==> VerdictsFit(y, n))
    decreases |y|
  {
    if |x| < |y| {
      assert Front(y)[..|x|] == x;
      AcksAddNothingElse(x, Front(y), n);
      assert y == Front(y) + [Last(y)];
    } else {
      assert x == y;
    }
  }

  /** A verdict of success means that all acks of the device were heard. */
  lemma {:induction false} SuccessWasHeard(log: seq<Record>, a: Addr, n: nat)
    requires VerdictsFit(log, n) && VerdictReached(a, true) in log
    ensures AllHeard(log, a, n)
    decreases |log|
  {
    if Last(log) != VerdictReached(a, true) {
      assert VerdictReached(a, true) in Front(log);
      SuccessWasHeard(Front(log), a, n);
    }
    AcksGrow(Front(log), log);
  }

  /** Once all acks of a device have been heard, every later verdict on it is success. */
  lemma {:induction false} HeardInTimeSucceeds(log: seq<Record>, p: nat, a: Addr, n: nat)
    requires VerdictsFit(log, n) && p <= |log| && NoVerdict(log[..p]) && AllHeard(log[..p], a, n)
    ensures VerdictReached(a, false) !in log
    decreases |log|
  {
    if p < |log| {
      assert Front(log)[..p] == log[..p];
      HeardInTimeSucceeds(Front(log), p, a, n);
      AcksGrow(log[..p], Front(log));
      assert forall r :: r in log ==> r in Front(log) || r == Last(log);
    } else {
      assert log[..p] == log;
    }
  }

  lemma {:induction false} NoVerdictFits(log: seq<Record>, n: nat)
    requires NoVerdict(log)
    ensures VerdictsFit(log, n)
    decreases |log|
  {
    if log != [] {
      NoVerdictFits(Front(log), n);
    }
  }

  // ----- counting frames

  predicate Reaches(destination: Addr, a: Addr) {
    destination == BROADCAST_ADDRESS || destination == a
  }

  /** Frames for chunk `k` that were sent to `a`, alone or with all. */
  function FramesFor(frames: seq<(Addr, nat)>, a: Addr, k: nat): nat {
    if frames == [] then 0
    else
      var last := frames[|frames| - 1];
      FramesFor(frames[..|frames| - 1], a, k) + if last.1 == k && Reaches(last.0, a) then 1 else 0
  }

  /** `more` frames of one chunk to one destination were added. */
  predicate FramesAdded(x: seq<(Addr, nat)>, y: seq<(Addr, nat)>, destination: Addr, k: nat, more: nat) {
    |y| == |x| + more && y[..|x|] == x && forall p :: |x| <= p < |y| ==> y[p] == (destination, k)
  }

  lemma {:induction false} AddedCount(x: seq<(Addr, nat)>, y: seq<(Addr, nat)>, destination: Addr, k: nat, more: nat,
                                      a: Addr, i: nat)
    requires FramesAdded(x, y, destination, k, more)
    ensures FramesFor(y, a, i) == FramesFor(x, a, i) + if i == k && Reaches(destination, a) then more else 0
    decreases more
  {
    if more > 0 {
      var front := y[..|y| - 1];
      assert front[..|x|] == x;
      AddedCount(x, front, destination, k, more - 1, a, i);
    } else {
      assert x == y;
    }
  }

  lemma AddedThenOne(x: seq<(Addr, nat)>, y: seq<(Addr, nat)>, destination: Addr, k: nat, more: nat)
    requires FramesAdded(x, y, destination, k, more)
    ensures FramesAdded(x, y + [(destination, k)], destination, k, more + 1)
  {
  }

  lemma {:induction false} FramesGrow(x: seq<Record>, y: seq<Record>, a: Addr, k: nat)
    requires Continues(x, y)
    ensures FramesFor(FramesIn(x), a, k) <= FramesFor(FramesIn(y), a, k)
    decreases |y|
  {
    if |x| < |y| {
      assert Front(y)[..|x|] == x;
      FramesGrow(x, Front(y), a, k);
      if Last(y).FrameSent? {
        AddedCount(FramesIn(Front(y)), FramesIn(y), Last(y).destination, Last(y).k, 1, a, k);
      } else {
        assert FramesIn(y) == FramesIn(Front(y));
      }
    } else {
      assert x == y;
    }
  }

  /** The frames keep to the transfer's order and addressing: chunk by chunk, all of them below `k`, by broadcast or
      to one of `devices`. */
  predicate FramesInOrder(frames: seq<(Addr, nat)>, k: nat, byBroadcast: bool, devices: seq<Addr>) {
    && (forall p, q :: 0 <= p < q < |frames| ==> frames[p].1 <= frames[q].1)
    && forall p :: 0 <= p < |frames| ==>
         frames[p].1 < k && if byBroadcast then frames[p].0 == BROADCAST_ADDRESS else frames[p].0 in devices
  }

  lemma MoreFramesAllowed(frames: seq<(Addr, nat)>, k: nat, byBroadcast: bool, devices: seq<Addr>)
    requires FramesInOrder(frames, k, byBroadcast, devices)
    ensures FramesInOrder(frames, k + 1, byBroadcast, devices)
  {
  }

  lemma AddedInOrder(x: seq<(Addr, nat)>, y: seq<(Addr, nat)>, destination: Addr, k: nat, more: nat, byBroadcast: bool,
                     devices: seq<Addr>)
    requires FramesAdded(x, y, destination, k, more) && FramesInOrder(x, k + 1, byBroadcast, devices)
    requires if byBroadcast then destination == BROADCAST_ADDRESS else destination in devices
    ensures FramesInOrder(y, k + 1, byBroadcast, devices)
  {
    assert forall p :: 0 <= p < |x| ==> y[p] == y[..|x|][p] == x[p];
  }
}
