/** The request/acknowledge handshake between the application core and the network core, one store,
    load or call at a time: the caller, the network core's loop and its interrupt handler may be
    interleaved in any way (the interrupt handler suspends the loop). */
module IpcHandshake {
  datatype IpcReq = NoReq | MariInitReq | NodeTxReq | RngInitReq | RngReadReq

  /** The users of `ipc_network_call`. */
  datatype Call = MariInit | NodeTx(packet: seq<bv8>) | RngInit | RngRead

  /** What the network core did for a request. */
  datatype Effect = Joined | Sent(packet: seq<bv8>) | RngStarted | Drew(value: bv8)

  /** A returned call, with the byte in the shared random-number cell when it returned. */
  datatype Return = Return(call: Call, value: bv8)

  datatype CallerPc = Outside | Filled(call: Call) | Stored(call: Call) | Spinning(call: Call) | Leaving(call: Call)
    | Cleared(call: Call)
  datatype LoopPc = Top | Entered | Dispatching | Served | Acknowledged
  datatype IsrPc = NoIsr | EventCleared

  datatype State = State(
    req: IpcReq, netAck: bool, txPdu: seq<bv8>, rng: bv8,     // shared memory
    bell: bool,                                               // the event register of the request channel
    ipcReq: IpcReq, initialized: bool,                        // network core variables
    caller: CallerPc, loop: LoopPc, isr: IsrPc,
    issued: seq<Call>, executed: seq<Effect>, returned: seq<Return>,  // history
    overwritten: bool,  // history: a request was copied between `net_ack = true` and `ipc_req = IPC_REQ_NONE`
    joins: nat)         // history: calls of `mari_init` on the network core

  datatype Event =
    | Begin(call: Call)   // a caller enters: `mari_node_tx` fills the packet buffer first
    | Caller              // the next store or load of `ipc_network_call`
    | Loop(byte: bv8)     // the next statement of the loop; `byte` is what the generator would draw
    | Isr                 // the next statement of the interrupt handler

  function ReqOf(call: Call): IpcReq {
    match call
    case MariInit => MariInitReq
    case NodeTx(_) => NodeTxReq
    case RngInit => RngInitReq
    case RngRead => RngReadReq
  }

  function Init(req: IpcReq, txPdu: seq<bv8>, rng: bv8): State {
    State(req, false, txPdu, rng, false, NoReq, false, Outside, Top, NoIsr, [], [], [], false, 0)
  }

  function CallerStep(s: State): State {
    match s.caller
    case Outside => s
    case Filled(call) => s.(req := ReqOf(call), caller := Stored(call))
    case Stored(call) => s.(bell := true, caller := Spinning(call))
    case Spinning(call) => if s.netAck then s.(caller := Leaving(call)) else s
    case Leaving(call) => s.(netAck := false, caller := Cleared(call))
    case Cleared(call) => s.(returned := s.returned + [Return(call, s.rng)], caller := Outside)
  }

  /** What the dispatch on `ipc_req` does; the default branch does nothing. */
  function Performed(req: IpcReq, txPdu: seq<bv8>, byte: bv8): seq<Effect> {
    match req
    case NoReq => []
    case MariInitReq => [Joined]
    case NodeTxReq => [Sent(txPdu)]
    case RngInitReq => [RngStarted]
    case RngReadReq => [Drew(byte)]
  }

  function Execute(s: State, byte: bv8): State {
    s.(executed := s.executed + Performed(s.ipcReq, s.txPdu, byte),
       initialized := s.initialized || s.ipcReq == MariInitReq,
       joins := s.joins + if s.ipcReq == MariInitReq && !s.initialized then 1 else 0,
       rng := if s.ipcReq == RngReadReq then byte else s.rng)
  }

  function LoopStep(s: State, byte: bv8): State {
    if s.isr != NoIsr then s
    else match s.loop
      case Top => if s.ipcReq != NoReq then s.(loop := Entered) else s
      case Entered => s.(netAck := false, loop := Dispatching)
      case Dispatching => Execute(s, byte).(loop := Served)
      case Served => s.(netAck := true, loop := Acknowledged)
      case Acknowledged => s.(ipcReq := NoReq, loop := Top)
  }

  function IsrStep(s: State): State {
    match s.isr
    case NoIsr => if s.bell then s.(bell := false, isr := EventCleared) else s
    case EventCleared => s.(ipcReq := s.req, isr := NoIsr, overwritten := s.overwritten || s.loop == Acknowledged)
  }

  function Step(s: State, ev: Event): State {
    match ev
    case Begin(call) =>
      if s.caller != Outside then s
      else s.(txPdu := if call.NodeTx? then call.packet else s.txPdu,
              caller := Filled(call), issued := s.issued + [call])
    case Caller => CallerStep(s)
    case Loop(byte) => LoopStep(s, byte)
    case Isr => IsrStep(s)
  }

  function Run(s: State, events: seq<Event>): State
    decreases |events|
  {
    if events == [] then s else Run(Step(s, events[0]), events[1..])
  }

  // ----- invariant

  predicate Did(call: Call, effect: Effect) {
    match call
    case MariInit => effect == Joined
    case NodeTx(packet) => effect == Sent(packet)
    case RngInit => effect == RngStarted
    case RngRead => effect.Drew?
  }

  /** Call k was executed once, as the k-th execution. */
  predicate InOrder(s: State) {
    |s.executed| <= |s.issued| && forall k :: 0 <= k < |s.executed| ==> Did(s.issued[k], s.executed[k])
  }

  predicate ReturnsFit(s: State) {
    |s.returned| <= |s.executed| && |s.returned| <= |s.issued| && forall k :: 0 <= k < |s.returned| ==>
      s.returned[k].call == s.issued[k] && (s.executed[k].Drew? ==> s.returned[k].value == s.executed[k].value)
  }

  /** Nothing is on its way to the loop, which is at rest or about to forget its last request. */
  predicate Resting(s: State) {
    s.isr == NoIsr && !s.bell && AtRest(s)
  }

  predicate AtRest(s: State) {
    (s.loop == Top && s.ipcReq == NoReq) || s.loop == Acknowledged
  }

  predicate Pending(s: State) {
    |s.executed| == |s.issued| - 1 && !s.netAck
  }

  /** The last execution was for the last call, and what it left in shared memory is still there. */
  predicate Finished(s: State) {
    |s.executed| == |s.issued| > 0
      && (s.executed[|s.executed| - 1].Drew? ==> s.rng == s.executed[|s.executed| - 1].value)
  }

  /** While the caller spins. */
  predicate SpinInv(s: State, call: Call) {
    s.req == ReqOf(call) &&
    ( || (Pending(s) && !s.overwritten && AtRest(s) && (s.bell <==> s.isr == NoIsr))              // on its way
      || (Pending(s) && !s.overwritten && s.isr == NoIsr && !s.bell && s.ipcReq == ReqOf(call)
          && (s.loop == Top || s.loop == Entered || s.loop == Dispatching))                       // taken up
      || (Finished(s) && !s.netAck && !s.overwritten && s.isr == NoIsr && !s.bell && s.loop == Served)
      || (Finished(s) && s.netAck && !s.overwritten && Resting(s))
      || (Pending(s) && s.overwritten && Resting(s)))                                             // lost
  }

  predicate Inv(s: State) {
    && InOrder(s) && ReturnsFit(s)
    && match s.caller
       case Outside => |s.executed| == |s.issued| == |s.returned| && !s.netAck && Resting(s) && !s.overwritten
       case Filled(call) => CallInv(s, call) && Pending(s) && Resting(s) && !s.overwritten
       case Stored(call) => CallInv(s, call) && Pending(s) && Resting(s) && !s.overwritten && s.req == ReqOf(call)
       case Spinning(call) => CallInv(s, call) && SpinInv(s, call)
       case Leaving(call) => CallInv(s, call) && Finished(s) && s.netAck && Resting(s) && !s.overwritten
       case Cleared(call) => CallInv(s, call) && Finished(s) && !s.netAck && Resting(s) && !s.overwritten
  }

  /** The call is the last one issued, not returned, and its packet is still in the buffer. */
  predicate CallInv(s: State, call: Call) {
    && |s.issued| > 0 && s.issued[|s.issued| - 1] == call && |s.returned| == |s.issued| - 1
    && (call.NodeTx? ==> s.txPdu == call.packet)
  }

  lemma BeginKeepsInv(s: State, call: Call)
    requires Inv(s)
    ensures Inv(Step(s, Begin(call)))
  {
  }

  lemma ReturnKeepsInv(s: State)
    requires Inv(s) && s.caller.Cleared?
    ensures Inv(CallerStep(s))
  {
    var last := |s.returned|;
    assert s.executed[last].Drew? ==> s.rng == s.executed[last].value;
  }

  lemma CallerKeepsInv(s: State)
    requires Inv(s)
    ensures Inv(CallerStep(s))
  {
    if s.caller.Cleared? {
      ReturnKeepsInv(s);
    } else {
      var t := CallerStep(s);
      assert InOrder(t) && ReturnsFit(t);
      if s.caller.Filled? || s.caller.Stored? {
        RequestKeepsInv(s);
      } else {
        AnswerKeepsInv(s);
      }
    }
  }

  /** Storing the request and ringing the doorbell. */
  lemma RequestKeepsInv(s: State)
    requires Inv(s) && (s.caller.Filled? || s.caller.Stored?)
    requires InOrder(CallerStep(s)) && ReturnsFit(CallerStep(s))
    ensures Inv(CallerStep(s))
  {
    hide InOrder, ReturnsFit, ReqOf;
  }

  /** Seeing the acknowledgement and clearing it. */
  lemma AnswerKeepsInv(s: State)
    requires Inv(s) && !s.caller.Filled? && !s.caller.Stored? && !s.caller.Cleared?
    requires InOrder(CallerStep(s)) && ReturnsFit(CallerStep(s))
    ensures Inv(CallerStep(s))
  {
    hide InOrder, ReturnsFit, ReqOf;
  }

  function EffectOf(call: Call, byte: bv8): Effect {
    match call
    case MariInit => Joined
    case NodeTx(packet) => Sent(packet)
    case RngInit => RngStarted
    case RngRead => Drew(byte)
  }

  lemma OrderExtends(s: State, t: State, effect: Effect)
    requires InOrder(s) && ReturnsFit(s) && |s.executed| < |s.issued| && Did(s.issued[|s.executed|], effect)
    requires t.issued == s.issued && t.returned == s.returned && t.executed == s.executed + [effect]
    ensures InOrder(t) && ReturnsFit(t)
  {
  }

  /** When the loop dispatches, it is for the call that is waiting, which has not been executed. */
  lemma AtDispatch(s: State)
    requires Inv(s) && s.isr == NoIsr && s.loop == Dispatching
    ensures s.caller.Spinning? && CallInv(s, s.caller.call) && Pending(s) && s.ipcReq == s.req == ReqOf(s.caller.call)
    ensures !s.overwritten && !s.bell
  {
    hide InOrder, ReturnsFit, ReqOf;
  }

  lemma ExecuteKeepsInv(s: State, byte: bv8)
    requires Inv(s) && s.isr == NoIsr && s.loop == Dispatching
    ensures Inv(LoopStep(s, byte))
  {
    hide InOrder, ReturnsFit;
    AtDispatch(s);
    assert InOrder(s) && ReturnsFit(s);
    hide Inv, SpinInv;
    var t, call, effect := LoopStep(s, byte), s.caller.call, EffectOf(s.caller.call, byte);
    assert t == s.(executed := s.executed + [effect], loop := Served, initialized := t.initialized, rng := t.rng,
                  joins := t.joins);
    assert effect.Drew? ==> t.rng == byte;
    assert Did(call, effect);
    hide Execute, Did, LoopStep, EffectOf, ReqOf;
    OrderExtends(s, t, effect);
    assert Finished(t) && CallInv(t, call);
    ServedInv(t, call);
  }

  lemma ServedInv(s: State, call: Call)
    requires InOrder(s) && ReturnsFit(s) && s.caller == Spinning(call) && CallInv(s, call) && Finished(s)
    requires s.req == ReqOf(call) && !s.netAck && !s.overwritten && s.isr == NoIsr && !s.bell && s.loop == Served
    ensures Inv(s)
  {
    hide InOrder, ReturnsFit, CallInv, Finished, ReqOf;
  }

  lemma LoopKeepsInv(s: State, byte: bv8)
    requires Inv(s)
    ensures Inv(LoopStep(s, byte))
  {
    if s.isr == NoIsr && s.loop == Dispatching {
      ExecuteKeepsInv(s, byte);
    } else {
      var t := LoopStep(s, byte);
      hide Execute;
      SameHistory(s, t);
      hide InOrder, ReturnsFit, CallInv, Finished, ReqOf;
    }
  }

  lemma SameHistory(s: State, t: State)
    requires t == s.(loop := t.loop, netAck := t.netAck, ipcReq := t.ipcReq)
    ensures InOrder(t) == InOrder(s) && ReturnsFit(t) == ReturnsFit(s) && Finished(t) == Finished(s)
    ensures forall call :: CallInv(t, call) == CallInv(s, call)
  {
  }

  lemma IsrKeepsInv(s: State)
    requires Inv(s)
    ensures Inv(IsrStep(s))
  {
  }

  lemma StepKeepsInv(s: State, ev: Event)
    requires Inv(s)
    ensures Inv(Step(s, ev))
  {
    match ev
    case Begin(call) => BeginKeepsInv(s, call);
    case Caller => CallerKeepsInv(s);
    case Loop(byte) => LoopKeepsInv(s, byte);
    case Isr => IsrKeepsInv(s);
  }

  lemma {:induction false} RunKeepsInv(s: State, events: seq<Event>)
    requires Inv(s)
    ensures Inv(Run(s, events))
    decreases |events|
  {
    if events != [] {
      hide Inv, Step;
      StepKeepsInv(s, events[0]);
      RunKeepsInv(Step(s, events[0]), events[1..]);
    }
  }

  // ----- what a return means

  /** Over every interleaving from boot: each returned call was executed, in its turn and only once; the
      packet sent for it is the packet it was given, the byte it returned was drawn for it, and
      whenever no call is in progress every issued call has been executed and has returned. */
  lemma EveryReturnWasExecuted(req: IpcReq, txPdu: seq<bv8>, rng: bv8, events: seq<Event>)
    ensures var s := Run(Init(req, txPdu, rng), events);
      && |s.returned| <= |s.executed| <= |s.issued| <= |s.returned| + 1
      && (s.caller == Outside ==> |s.issued| == |s.returned|)
      && (forall k :: 0 <= k < |s.returned| ==>
            && s.returned[k].call == s.issued[k]
            && (s.issued[k].NodeTx? ==> s.executed[k] == Sent(s.issued[k].packet))
            && (s.issued[k].RngRead? ==> s.executed[k] == Drew(s.returned[k].value))
            && Did(s.issued[k], s.executed[k]))
  {
    RunKeepsInv(Init(req, txPdu, rng), events);
    var s := Run(Init(req, txPdu, rng), events);
    hide Run;
    assert forall k :: 0 <= k < |s.executed| ==> Did(s.issued[k], s.executed[k]);
  }

  /** The radio is initialised once if ever it is asked for. */
  predicate JoinedOnce(s: State) {
    s.joins == (if s.initialized then 1 else 0) && (s.initialized <==> Joined in s.executed)
  }

  lemma ExecuteJoinsOnce(s: State, byte: bv8)
    requires JoinedOnce(s)
    ensures JoinedOnce(Execute(s, byte))
  {
    var added := Performed(s.ipcReq, s.txPdu, byte);
    assert Joined in s.executed + added <==> Joined in s.executed || Joined in added;
  }

  lemma StepJoinsOnce(s: State, ev: Event)
    requires JoinedOnce(s)
    ensures JoinedOnce(Step(s, ev))
  {
    if ev.Loop? {
      LoopJoinsOnce(s, ev.byte);
    } else {
      var t := Step(s, ev);
      assert t.joins == s.joins && t.initialized == s.initialized && t.executed == s.executed;
    }
    hide LoopStep;
  }

  lemma LoopJoinsOnce(s: State, byte: bv8)
    requires JoinedOnce(s)
    ensures JoinedOnce(LoopStep(s, byte))
  {
    if s.isr == NoIsr && s.loop == Dispatching {
      ExecuteJoinsOnce(s, byte);
    } else {
      var t := LoopStep(s, byte);
      assert t.joins == s.joins && t.initialized == s.initialized && t.executed == s.executed;
    }
    hide Execute;
  }

  lemma {:induction false} RunJoinsOnce(s: State, events: seq<Event>)
    requires JoinedOnce(s)
    ensures JoinedOnce(Run(s, events))
    decreases |events|
  {
    if events != [] {
      hide Step, JoinedOnce;
      StepJoinsOnce(s, events[0]);
      RunJoinsOnce(Step(s, events[0]), events[1..]);
    }
  }

  /** Over every interleaving from boot the radio is initialised at most once, and exactly once if an initialisation
      request has been executed. */
  lemma RadioInitialisedOnce(req: IpcReq, txPdu: seq<bv8>, rng: bv8, events: seq<Event>)
    ensures var s := Run(Init(req, txPdu, rng), events); s.joins == if Joined in s.executed then 1 else 0
  {
    RunJoinsOnce(Init(req, txPdu, rng), events);
  }

  predicate Extends<T(==)>(xs: seq<T>, ys: seq<T>) {
    |xs| <= |ys| && forall k :: 0 <= k < |xs| ==> ys[k] == xs[k]
  }

  predicate HistoryGrows(s: State, t: State) {
    Extends(s.issued, t.issued) && Extends(s.executed, t.executed) && Extends(s.returned, t.returned)
  }

  lemma ExecuteGrowsHistory(s: State, byte: bv8)
    ensures var t := Execute(s, byte);
      Extends(s.executed, t.executed) && t.issued == s.issued && t.returned == s.returned
  {
  }

  lemma LoopGrowsHistory(s: State, byte: bv8)
    ensures HistoryGrows(s, LoopStep(s, byte))
  {
    ExecuteGrowsHistory(s, byte);
    assert HistoryGrows(s, s);
    hide Execute, Extends;
  }

  lemma StepGrowsHistory(s: State, ev: Event)
    ensures HistoryGrows(s, Step(s, ev))
  {
    if ev.Loop? {
      LoopGrowsHistory(s, ev.byte);
      hide LoopStep;
    }
  }

  lemma {:induction false} RunGrowsHistory(s: State, events: seq<Event>)
    ensures HistoryGrows(s, Run(s, events))
    decreases |events|
  {
    if events != [] {
      hide Step;
      StepGrowsHistory(s, events[0]);
      RunGrowsHistory(Step(s, events[0]), events[1..]);
    }
  }

  /** From the moment a call begins to the moment it has returned, exactly that request is executed,
      exactly once, whatever happens in between. */
  lemma CallExecutedOnce(s: State, call: Call, events: seq<Event>)
    requires Inv(s) && s.caller == Outside
    ensures var t := Run(Step(s, Begin(call)), events);
      |t.returned| == |s.returned| + 1 && t.caller == Outside ==>
        && |t.executed| == |s.executed| + 1 && Extends(s.executed, t.executed)
        && Did(call, t.executed[|s.executed|])
        && t.returned[|s.returned|].call == call
        && (call.RngRead? ==> t.executed[|s.executed|] == Drew(t.returned[|s.returned|].value))
  {
    var begun := Step(s, Begin(call));
    StepKeepsInv(s, Begin(call));
    RunKeepsInv(begun, events);
    RunGrowsHistory(begun, events);
    var t := Run(begun, events);
    assert begun.issued[|s.issued|] == call;
    assert t.caller == Outside && |t.returned| == |s.returned| + 1 ==>
      t.issued[|s.issued|] == call && Did(t.issued[|s.issued|], t.executed[|s.issued|]);
  }

  // ----- the lost doorbell

  /** The caller spins and nothing is left that could answer it. */
  predicate Stuck(s: State) {
    s.caller.Spinning? && !s.netAck && s.loop == Top && s.ipcReq == NoReq && !s.bell && s.isr == NoIsr
  }

  /** The one way to wait on an idle network core: the interrupt handler copied the request between
      `net_ack = true` and `ipc_req = IPC_REQ_NONE`. */
  lemma StuckExactlyIfOverwritten(s: State)
    requires Inv(s)
    ensures Stuck(s) <==> s.overwritten && s.loop == Top
  {
    hide InOrder, ReturnsFit;
  }

  lemma {:induction false} OverwrittenNeverReturns(s: State, events: seq<Event>)
    requires Inv(s) && s.overwritten
    ensures var t := Run(s, events);
      t.overwritten && t.caller == s.caller && t.caller.Spinning? && t.returned == s.returned
    decreases |events|
  {
    if events != [] {
      StepKeepsInv(s, events[0]);
      hide InOrder, ReturnsFit;
      OverwrittenNeverReturns(Step(s, events[0]), events[1..]);
    }
  }

  lemma RunStep(s: State, ev: Event, events: seq<Event>)
    ensures Run(s, [ev] + events) == Run(Step(s, ev), events)
  {
    assert ([ev] + events)[1..] == events;
  }

  /** It can happen after any request: a caller that returns and calls again before the loop has
      forgotten the first request loses the second one. */
  lemma PromptSecondCallIsLost(s: State, first: Call, next: Call) returns (events: seq<Event>)
    requires Inv(s) && s.caller == Spinning(first) && s.loop == Served
    ensures Stuck(Run(s, events)) && Run(s, events).caller == Spinning(next)
  {
    hide Step, Stuck, Inv;
    var acked := Step(Step(Step(Step(s, Loop(0)), Caller), Caller), Caller);
    var rung := Step(Step(Step(acked, Begin(next)), Caller), Caller);
    var stuck := Step(Step(Step(rung, Isr), Isr), Loop(0));
    FirstReturns(s, first);
    SecondRings(acked, next);
    EarlyInterrupt(rung, next);
    assert Run(stuck, []) == stuck;
    var tail := [Isr] + ([Isr] + ([Loop(0)] + []));
    RunThree(rung, Isr, Isr, Loop(0), []);
    var middle := [Begin(next)] + ([Caller] + ([Caller] + tail));
    RunThree(acked, Begin(next), Caller, Caller, tail);
    var head := [Caller] + ([Caller] + ([Caller] + middle));
    RunThree(Step(s, Loop(0)), Caller, Caller, Caller, middle);
    RunStep(s, Loop(0), head);
    events := [Loop(0)] + head;
  }

  /** And it happens: from boot, any first call is served, and any call made at once after it is lost. */
  lemma StuckIsReachable(req: IpcReq, txPdu: seq<bv8>, rng: bv8, first: Call, next: Call) returns (events: seq<Event>)
    ensures Stuck(Run(Init(req, txPdu, rng), events)) && Run(Init(req, txPdu, rng), events).caller == Spinning(next)
  {
    var boot := Init(req, txPdu, rng);
    var rung := Step(Step(Step(boot, Begin(first)), Caller), Caller);
    var taken := Step(Step(rung, Isr), Isr);
    var served := Step(Step(Step(taken, Loop(0)), Loop(0)), Loop(0));
    FirstIsServed(req, txPdu, rng, first);
    var tail := PromptSecondCallIsLost(served, first, next);
    hide Step, Run, Stuck, Inv, Init;
    RunThree(taken, Loop(0), Loop(0), Loop(0), tail);
    var loops := [Loop(0)] + ([Loop(0)] + ([Loop(0)] + tail));
    RunStep(Step(rung, Isr), Isr, loops);
    RunStep(rung, Isr, [Isr] + loops);
    RunThree(boot, Begin(first), Caller, Caller, [Isr] + ([Isr] + loops));
    events := [Begin(first)] + ([Caller] + ([Caller] + ([Isr] + ([Isr] + loops))));
  }

  lemma FirstIsServed(req: IpcReq, txPdu: seq<bv8>, rng: bv8, first: Call)
    ensures var rung := Step(Step(Step(Init(req, txPdu, rng), Begin(first)), Caller), Caller);
      var served := Step(Step(Step(Step(Step(rung, Isr), Isr), Loop(0)), Loop(0)), Loop(0));
      Inv(served) && served.caller == Spinning(first) && served.loop == Served
  {
    var rung := Step(Step(Step(Init(req, txPdu, rng), Begin(first)), Caller), Caller);
    assert rung.caller == Spinning(first) && rung.bell && rung.loop == Top && rung.isr == NoIsr
      && rung.req == ReqOf(first);
    RunKeepsInv(Init(req, txPdu, rng), []);
    StepKeepsInv(Init(req, txPdu, rng), Begin(first));
    StepKeepsInv(Step(Init(req, txPdu, rng), Begin(first)), Caller);
    StepKeepsInv(Step(Step(Init(req, txPdu, rng), Begin(first)), Caller), Caller);
    BellIsServed(rung, first);
  }

  lemma BellIsServed(s: State, first: Call)
    requires Inv(s) && s.caller == Spinning(first) && s.bell && s.loop == Top && s.isr == NoIsr && s.req == ReqOf(first)
    ensures var served := Step(Step(Step(Step(Step(s, Isr), Isr), Loop(0)), Loop(0)), Loop(0));
      Inv(served) && served.caller == Spinning(first) && served.loop == Served
  {
    BellIsTaken(s, first);
    RequestIsServed(Step(Step(s, Isr), Isr), first);
  }

  lemma BellIsTaken(s: State, first: Call)
    requires Inv(s) && s.caller == Spinning(first) && s.bell && s.loop == Top && s.isr == NoIsr && s.req == ReqOf(first)
    ensures var t := Step(Step(s, Isr), Isr);
      Inv(t) && t.caller == Spinning(first) && t.loop == Top && t.isr == NoIsr && t.ipcReq == ReqOf(first)
  {
    StepKeepsInv(s, Isr);
    StepKeepsInv(Step(s, Isr), Isr);
    hide Inv, ReqOf;
  }

  lemma RequestIsServed(s: State, first: Call)
    requires Inv(s) && s.caller == Spinning(first) && s.loop == Top && s.isr == NoIsr && s.ipcReq == ReqOf(first)
    ensures var t := Step(Step(Step(s, Loop(0)), Loop(0)), Loop(0));
      Inv(t) && t.caller == Spinning(first) && t.loop == Served
  {
    StepKeepsInv(s, Loop(0));
    StepKeepsInv(Step(s, Loop(0)), Loop(0));
    StepKeepsInv(Step(Step(s, Loop(0)), Loop(0)), Loop(0));
    assert s.ipcReq != NoReq;
    hide Inv, ReqOf, Performed;
  }

  lemma FirstReturns(s: State, first: Call)
    requires Inv(s) && s.caller == Spinning(first) && s.loop == Served
    ensures var t := Step(Step(Step(Step(s, Loop(0)), Caller), Caller), Caller);
      t.caller == Outside && t.loop == Acknowledged && t.isr == NoIsr && !t.bell && !t.netAck
  {
    hide InOrder, ReturnsFit;
  }

  lemma SecondRings(s: State, next: Call)
    requires s.caller == Outside && s.loop == Acknowledged && s.isr == NoIsr && !s.bell && !s.netAck
    ensures var t := Step(Step(Step(s, Begin(next)), Caller), Caller);
      t.caller == Spinning(next) && t.bell && t.loop == Acknowledged && !t.netAck && t.isr == NoIsr
  {
  }

  lemma EarlyInterrupt(s: State, next: Call)
    requires s.caller == Spinning(next) && s.bell && s.loop == Acknowledged && !s.netAck && s.isr == NoIsr
    ensures var t := Step(Step(Step(s, Isr), Isr), Loop(0)); Stuck(t) && t.caller == Spinning(next)
  {
  }

  lemma RunThree(s: State, a: Event, b: Event, c: Event, events: seq<Event>)
    ensures Run(s, [a] + ([b] + ([c] + events))) == Run(Step(Step(Step(s, a), b), c), events)
  {
    hide Step;
    RunStep(s, a, [b] + ([c] + events));
    RunStep(Step(s, a), b, [c] + events);
    RunStep(Step(Step(s, a), b), c, events);
  }

  /** The interrupt handler has taken the doorbell too early and can only complete the copy. */
  predicate Doomed(s: State) {
    s.overwritten || (s.isr == EventCleared && s.loop == Acknowledged)
  }

  /** How far a waiting call is from its return. */
  function Distance(s: State): nat {
    match s.caller
    case Outside => 0
    case Filled(_) => 14
    case Stored(_) => 13
    case Cleared(_) => 1
    case Leaving(_) => 2
    case Spinning(_) =>
      if s.netAck then 3
      else if s.loop == Served then 4
      else if s.loop == Dispatching then 5
      else if s.loop == Entered then 6
      else if s.ipcReq != NoReq && s.loop == Top then 7
      else if s.isr == EventCleared then 8
      else if s.loop == Top then 9
      else 10
  }

  function NextUseful(s: State): Event {
    if !s.caller.Spinning? || s.netAck then Caller
    else if s.isr == EventCleared || (s.loop == Top && s.ipcReq == NoReq) then Isr
    else Loop(0)
  }

  lemma UsefulStep(s: State)
    requires Inv(s) && !Doomed(s) && s.caller != Outside
    ensures var t := Step(s, NextUseful(s)); Inv(t) && !Doomed(t) && Distance(t) < Distance(s)
  {
    StepKeepsInv(s, NextUseful(s));
    hide InOrder, ReturnsFit, Execute;
  }

  /** In every other reachable state the call in progress can still return. */
  lemma {:induction false} OtherwiseCanReturn(s: State) returns (events: seq<Event>)
    requires Inv(s) && !Doomed(s)
    ensures Run(s, events).caller == Outside
    decreases Distance(s)
  {
    if s.caller == Outside {
      events := [];
    } else {
      hide Inv, Doomed, Step, NextUseful;
      UsefulStep(s);
      var rest := OtherwiseCanReturn(Step(s, NextUseful(s)));
      events := [NextUseful(s)] + rest;
      RunStep(s, NextUseful(s), rest);
    }
  }
}
