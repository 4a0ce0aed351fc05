/** The frames the host hands to the radio: to whom, when, and on what it had heard by then. */
module Airtime {
  import opened Basics

  /** One frame. Of the acknowledgements that matter to it, the first `tested` had come in when the host last looked,
      and the first `handed` when the frame went out. */
  datatype Transmission = Transmission(destination: Addr, at: nat, tested: nat, handed: nat)

  /** `y` is `x` and then frames to one destination, each sent after a look that came after the frame before it, and
      more than `timeout` later. */
  predicate Burst(x: seq<Transmission>, y: seq<Transmission>, destination: Addr, timeout: nat, begin: nat) {
    && |x| <= |y| && y[..|x|] == x
    && forall p :: |x| <= p < |y| ==>
         && y[p].destination == destination && y[p].tested <= y[p].handed
         && (if p == |x| then begin <= y[p].tested
             else y[p - 1].handed <= y[p].tested && y[p - 1].at + timeout < y[p].at)
  }

  lemma NoBurst(x: seq<Transmission>, destination: Addr, timeout: nat, begin: nat)
    ensures Burst(x, x, destination, timeout, begin)
  {
  }

  lemma BurstKeeps(x: seq<Transmission>, y: seq<Transmission>, destination: Addr, timeout: nat, begin: nat)
    requires Burst(x, y, destination, timeout, begin)
    ensures |x| <= |y| && y[..|x|] == x && (|x| == |y| ==> x == y)
  {
    if |x| == |y| {
      assert y[..|x|] == y;
    }
  }

  lemma BurstNext(x: seq<Transmission>, y: seq<Transmission>, z: seq<Transmission>, destination: Addr, timeout: nat,
                  begin: nat)
    requires Burst(x, y, destination, timeout, begin) && |z| == |y| + 1 && z[..|y|] == y
    requires var t := z[|y|];
      t.destination == destination && t.tested <= t.handed
      && (if |y| == |x| then begin <= t.tested else y[|y| - 1].handed <= t.tested && y[|y| - 1].at + timeout < t.at)
    ensures Burst(x, z, destination, timeout, begin)
  {
    assert z[..|x|] == z[..|y|][..|x|];
    assert forall p :: 0 <= p < |y| ==> z[p] == z[..|y|][p] == y[p];
  }

  /** The frames go to the devices in turn, any number to each. */
  ghost predicate InTurn(ts: seq<Transmission>, devices: seq<Addr>)
    decreases |devices|
  {
    if devices == [] then ts == []
    else exists n :: 0 <= n <= |ts| && InTurn(ts[..n], devices[..|devices| - 1])
                     && forall p :: n <= p < |ts| ==> ts[p].destination == devices[|devices| - 1]
  }

  lemma NoFrames(ts: seq<Transmission>)
    ensures InTurn(ts[|ts|..], [])
  {
  }

  lemma InTurnNext(begin: nat, x: seq<Transmission>, y: seq<Transmission>, devices: seq<Addr>, a: Addr, timeout: nat,
                   first: nat)
    requires begin <= |x| && InTurn(x[begin..], devices) && Burst(x, y, a, timeout, first)
    ensures InTurn(y[begin..], devices + [a])
  {
    var ts, n := y[begin..], |x| - begin;
    assert (devices + [a])[..|devices|] == devices;
    assert ts[..n] == y[..|x|][begin..] == x[begin..];
    forall p | n <= p < |ts| ensures ts[p].destination == a {
      assert ts[p] == y[begin + p];
    }
  }
}
