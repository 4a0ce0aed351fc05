/** What survives a reset on the two-core device, and where each boot leads: the boot intent in
    retained RAM, the sticky reset reasons, the status shared with the network core (which the
    start-up code clears to READY), and the watchdog a STOP arms. Every read, clear and write around
    the boot decision is a step of its own, so a reset may fall between any two of them. */
module Lifecycle {
  import opened Flash

  const BOOT_INTENT_USER_IMAGE: u32 := 0xC0DE_C0DE
  const BOOT_INTENT_BOOTLOADER: u32 := 0xB007_B007

  // The status byte in shared RAM.
  const READY: nat := 0
  const RUNNING: nat := 1
  const STOPPING: nat := 2
  const RESETTING: nat := 3
  const PROGRAMMING: nat := 4

  /** Where the application core is; in `Starting` the network core is still held in reset, and
      `IntentWritten` is the point before `NVIC_SystemReset`. */
  datatype Phase = Starting | Released | ReasonRead | ReasonCleared | IntentRead | IntentConsumed | MainLoop
    | IntentWritten | UserImage

  /** Doorbells rung by the network core, and the request flags its interrupts set. */
  datatype Requests = Requests(startBell: bool, resetBell: bool, startApplication: bool, resetRequested: bool)

  const NO_REQUESTS := Requests(false, false, false, false)

  /** The locals `resetreas` (its soft-reset bit) and `boot_intent`. */
  datatype Locals = Locals(reason: bool, taken: u32)

  /** `accepted` and `userBoots` are history: STARTs accepted, boots into the user image. */
  datatype System = System(
    phase: Phase, locals: Locals, status: nat, intent: u32, softReset: bool, armed: bool, halted: bool,
    requests: Requests, accepted: nat, userBoots: nat)
  {
    predicate Booting() {
      !phase.MainLoop? && !phase.IntentWritten? && !phase.UserImage?
    }

    /** In the main loop or in the user image. */
    predicate Settled() {
      phase.MainLoop? || phase.UserImage?
    }
  }

  datatype Packet = Start | Stop | Reset | OtaStart | LastMatrix

  datatype Event =
    | PowerOn(intent: u32)                // retained RAM holds anything
    | PinReset
    | WatchdogExpires
    | Receive(packet: Packet)             // on the network core
    | Interrupt                           // on the application core
    | Advance                             // the application core's next step
    | LastChunkWritten                    // a main-loop pass that ends an update

  predicate StopsFrom(status: nat) {
    status == RUNNING || status == RESETTING || status == PROGRAMMING
  }

  /** One packet on the network core, once it runs and until it waits for the reset after a commit. */
  function OnPacket(s: System, packet: Packet): System {
    if s.phase.Starting? || s.halted then s
    else
      match packet
      case Start =>
        if s.status != READY then s else s.(requests := s.requests.(startBell := true), accepted := s.accepted + 1)
      case Stop => if StopsFrom(s.status) then s.(status := STOPPING, armed := true) else s
      case Reset => if s.status == READY then s.(status := RESETTING) else s
      case OtaStart => if s.status == READY || s.status == PROGRAMMING then s.(status := PROGRAMMING) else s
      case LastMatrix => if s.status == READY then s.(requests := s.requests.(resetBell := true), halted := true) else s
  }

  /** The interrupt handler; in the user image the interrupt belongs to the non-secure side. */
  function OnInterrupt(s: System): System {
    if s.phase.UserImage? then s
    else
      var r := s.requests;
      s.(requests := Requests(false, false, r.startApplication || r.startBell, r.resetRequested || r.resetBell))
  }

  /** Any reset: both cores start over. Retained RAM and the reset reasons stay; the start-up code clears shared
      RAM, which makes the status READY, before `main` releases the network core. */
  function AfterReset(s: System, soft: bool): System {
    System(Starting, s.locals, READY, s.intent, s.softReset || soft, false, false, NO_REQUESTS, s.accepted, s.userBoots)
  }

  predicate BootsUserImage(reason: bool, taken: u32) {
    reason && taken == BOOT_INTENT_USER_IMAGE
  }

  function OnAdvance(s: System): System {
    match s.phase
    case Starting => s.(phase := Released)
    case Released => s.(phase := ReasonRead, locals := s.locals.(reason := s.softReset))
    case ReasonRead => s.(phase := ReasonCleared, softReset := false)
    case ReasonCleared => s.(phase := IntentRead, locals := s.locals.(taken := s.intent))
    case IntentRead => s.(phase := IntentConsumed, intent := 0)
    case IntentConsumed =>
      if BootsUserImage(s.locals.reason, s.locals.taken)
      then s.(phase := UserImage, status := RUNNING, userBoots := s.userBoots + 1)
      else s.(phase := MainLoop, status := READY)
    case MainLoop =>
      if s.requests.startApplication then s.(phase := IntentWritten, intent := BOOT_INTENT_USER_IMAGE)
      else if s.requests.resetRequested then s.(phase := IntentWritten, intent := BOOT_INTENT_BOOTLOADER)
      else s
    case IntentWritten => AfterReset(s, true)
    case UserImage => s
  }

  /** The STOP watchdog once armed, and the one that guards the user image. */
  predicate WatchdogRuns(s: System) {
    s.armed || s.phase.UserImage?
  }

  function Step(s: System, e: Event): System {
    match e
    case PowerOn(intent) => AfterReset(s.(intent := intent, softReset := false), false)
    case PinReset => AfterReset(s, false)
    case WatchdogExpires => if WatchdogRuns(s) then AfterReset(s, false) else s
    case Receive(packet) => OnPacket(s, packet)
    case Interrupt => OnInterrupt(s)
    case Advance => OnAdvance(s)
    case LastChunkWritten => if s.phase.MainLoop? then s.(status := READY) else s
  }

  function After(s: System, es: seq<Event>): System
    decreases |es|
  {
    if es == [] then s else After(Step(s, es[0]), es[1..])
  }

  /** The first power-on: retained RAM holds anything. */
  function First(intent: u32): System {
    System(Starting, Locals(false, 0), READY, intent, false, false, false, NO_REQUESTS, 0, 0)
  }

  // ---- What every run keeps

  predicate Inv(s: System) {
    && (s.phase.ReasonRead? ==> s.locals.reason == s.softReset)
    && (s.softReset ==> s.phase.Starting? || s.phase.Released? || s.phase.ReasonRead?)
    && (s.phase.IntentWritten? || s.softReset ==>
       s.intent == BOOT_INTENT_USER_IMAGE || s.intent == BOOT_INTENT_BOOTLOADER)
    && (s.Settled() || s.phase.IntentConsumed? ==> s.intent == 0)
    && (s.phase.MainLoop? ==> s.status <= PROGRAMMING)
    && (s.phase.UserImage? ==> s.status == RUNNING || s.status == STOPPING)
    && (s.Settled() && s.status == STOPPING ==> s.armed)
    && (s.halted ==> s.requests.resetBell || s.requests.resetRequested)
  }

  lemma AdvanceKeepsInv(s: System)
    requires Inv(s)
    ensures Inv(OnAdvance(s))
  {
  }

  lemma StepKeepsInv(s: System, e: Event)
    requires Inv(s)
    ensures Inv(Step(s, e))
  {
    hide OnAdvance;
    AdvanceKeepsInv(s);
  }

  lemma {:induction false} RunKeepsInv(s: System, es: seq<Event>)
    requires Inv(s)
    ensures Inv(After(s, es))
    decreases |es|
  {
    if es != [] {
      hide Inv, Step;
      StepKeepsInv(s, es[0]);
      RunKeepsInv(Step(s, es[0]), es[1..]);
    }
  }

  lemma {:induction false} RunConcat(s: System, xs: seq<Event>, ys: seq<Event>)
    ensures After(s, xs + ys) == After(After(s, xs), ys)
    decreases |xs|
  {
    if xs == [] {
      assert xs + ys == ys;
    } else {
      assert (xs + ys)[1..] == xs[1..] + ys;
      RunConcat(Step(s, xs[0]), xs[1..], ys);
    }
  }

  // ---- A START boots the user image at most once

  /** A reset asked for by a START is on its way to the boot decision. */
  predicate UserBootDue(s: System) {
    if s.phase.Starting? || s.phase.Released? then BootsUserImage(s.softReset, s.intent)
    else if s.phase.ReasonRead? || s.phase.ReasonCleared? then BootsUserImage(s.locals.reason, s.intent)
    else if s.phase.IntentRead? || s.phase.IntentConsumed? then BootsUserImage(s.locals.reason, s.locals.taken)
    else s.phase.IntentWritten? && s.intent == BOOT_INTENT_USER_IMAGE
  }

  /** User boots that STARTs already accepted can still cause. */
  function Outstanding(s: System): nat {
    (if UserBootDue(s) then 1 else 0)
    + (if s.requests.startBell && !s.phase.UserImage? && !s.phase.IntentWritten? then 1 else 0)
    + (if s.requests.startApplication && !s.phase.UserImage? && !s.phase.IntentWritten? then 1 else 0)
  }

  /** What a run has spent: boots made and outstanding, less the STARTs accepted. */
  function Balance(s: System): int {
    s.userBoots + Outstanding(s) - s.accepted
  }

  lemma AdvanceSpends(s: System)
    requires Inv(s)
    ensures Balance(OnAdvance(s)) <= Balance(s)
  {
    if s.phase.IntentWritten? {
      SoftResetSpends(s);
    } else {
      hide BootsUserImage, AfterReset;
    }
  }

  lemma SoftResetSpends(s: System)
    requires s.phase.IntentWritten?
    ensures Balance(AfterReset(s, true)) <= Balance(s)
  {
  }

  lemma PacketSpends(s: System, packet: Packet)
    ensures Balance(OnPacket(s, packet)) <= Balance(s)
  {
    hide UserBootDue;
    assert UserBootDue(OnPacket(s, packet)) == UserBootDue(s) by { PacketsLeaveTheBoot(s, packet); }
  }

  lemma PacketsLeaveTheBoot(s: System, packet: Packet)
    ensures UserBootDue(OnPacket(s, packet)) == UserBootDue(s)
  {
    var t := OnPacket(s, packet);
    assert t.phase == s.phase && t.intent == s.intent && t.softReset == s.softReset;
  }

  lemma ResetSpends(s: System)
    requires Inv(s)
    ensures Balance(AfterReset(s, false)) <= Balance(s)
  {
  }

  lemma StepSpends(s: System, e: Event)
    requires Inv(s)
    ensures Balance(Step(s, e)) <= Balance(s)
  {
    match e {
      case PowerOn(_) =>
      case Receive(packet) => hide *; PacketSpends(s, packet);
      case Advance => AdvanceSpends(s);
      case PinReset => ResetSpends(s);
      case WatchdogExpires => ResetSpends(s);
      case _ =>
    }
  }

  lemma {:induction false} RunSpends(s: System, es: seq<Event>)
    requires Inv(s)
    ensures Balance(After(s, es)) <= Balance(s)
    decreases |es|
  {
    hide Inv, Step, Balance;
    if es != [] {
      StepKeepsInv(s, es[0]);
      StepSpends(s, es[0]);
      RunSpends(Step(s, es[0]), es[1..]);
    }
  }

  /** Over any stretch of any run, user boots never outnumber the STARTs accepted in it plus those outstanding
      when it began. */
  lemma BootsSpendStarts(s: System, es: seq<Event>)
    requires Inv(s)
    ensures var t := After(s, es); t.userBoots - s.userBoots <= t.accepted - s.accepted + Outstanding(s)
  {
    hide After, Inv, Outstanding;
    RunSpends(s, es);
  }

  lemma BootsNeverOutnumberStarts(intent: u32, es: seq<Event>)
    ensures var t := After(First(intent), es); t.userBoots <= t.accepted
  {
    BootsSpendStarts(First(intent), es);
  }

  /** Once the image runs, nothing but a new START boots it again, whatever resets come. */
  lemma OneStartOneBoot(s: System, es: seq<Event>)
    requires Inv(s) && s.phase.UserImage? && After(s, es).accepted == s.accepted
    ensures After(s, es).userBoots == s.userBoots
  {
    BootsSpendStarts(s, es);
    BootsGrow(s, es);
  }

  lemma StepBoots(s: System, e: Event)
    ensures s.userBoots <= Step(s, e).userBoots
  {
  }

  lemma {:induction false} BootsGrow(s: System, es: seq<Event>)
    ensures s.userBoots <= After(s, es).userBoots
    decreases |es|
  {
    hide OnAdvance, OnPacket;
    if es != [] {
      StepBoots(s, es[0]);
      BootsGrow(Step(s, es[0]), es[1..]);
    }
  }

  // ---- What a packet needs

  /** A START counts only in READY, on a network core that runs and is not waiting for a reset. */
  lemma StartNeedsReady(s: System, e: Event)
    ensures Step(s, e).accepted > s.accepted <==>
      e == Receive(Start) && s.status == 0 && !s.phase.Starting? && !s.halted
    ensures Step(s, e).accepted <= s.accepted + 1
  {
  }

  /** The status never reads READY along the run. */
  predicate NeverReady(s: System, es: seq<Event>)
    decreases |es|
  {
    s.status != 0 && (es == [] || NeverReady(Step(s, es[0]), es[1..]))
  }

  /** A device that is past its boot, with no START outstanding, does not boot its image while it is not READY: a
      half-written image is never started. */
  lemma {:induction false} NoBootUnlessReady(s: System, es: seq<Event>)
    requires Inv(s) && (s.Settled() || s.phase.IntentWritten?) && Outstanding(s) == 0 && NeverReady(s, es)
    ensures After(s, es).accepted == s.accepted && After(s, es).userBoots == s.userBoots
    decreases |es|
  {
    if es != [] {
      NotReadyKeeps(s, es[0]);
      StepKeepsInv(s, es[0]);
      hide Inv, Step, Outstanding;
      assert NeverReady(Step(s, es[0]), es[1..]) && Step(s, es[0]).status != 0;
      NoBootUnlessReady(Step(s, es[0]), es[1..]);
    }
  }

  lemma NotReadyKeeps(s: System, e: Event)
    requires Inv(s) && (s.Settled() || s.phase.IntentWritten?) && Outstanding(s) == 0
    requires s.status != 0 && Step(s, e).status != 0
    ensures var t := Step(s, e);
      t.accepted == s.accepted && t.userBoots == s.userBoots
      && (t.Settled() || t.phase.IntentWritten?) && Outstanding(t) == 0
  {
  }

  /** The status diagram, in the protocol's numbers: READY 0, RUNNING 1, STOPPING 2, RESETTING 3, PROGRAMMING 4. The
      status changes along these arrows only. */
  lemma StatusDiagram(s: System, e: Event)
    requires Step(s, e).status != s.status
    ensures var t := Step(s, e);
      || (e == Receive(Stop) && (s.status == 1 || s.status == 3 || s.status == 4) && t.status == 2)
      || (e == Receive(Reset) && s.status == 0 && t.status == 3)
      || (e == Receive(OtaStart) && s.status == 0 && t.status == 4)
      || (e == LastChunkWritten && s.phase.MainLoop? && t.status == 0)
      || (e == Advance && s.phase.IntentConsumed? && t.status == (if t.phase.UserImage? then 1 else 0))
      || (t.phase.Starting? && t.status == 0)
  {
  }

  /** And each packet takes its arrow when it may, and changes nothing when it may not. */
  lemma PacketsTakeTheirArrows(s: System, packet: Packet)
    ensures var t := Step(s, Receive(packet)); var heard := !s.phase.Starting? && !s.halted;
      match packet
      case Start => if heard && s.status == 0 then t.requests.startBell && t.accepted == s.accepted + 1 else t == s
      case Stop =>
        if heard && (s.status == 1 || s.status == 3 || s.status == 4) then t.status == 2 && t.armed else t == s
      case Reset => if heard && s.status == 0 then t.status == 3 else t == s
      case OtaStart => if heard && (s.status == 0 || s.status == 4) then t.status == 4 else t == s
      case LastMatrix => if heard && s.status == 0 then t.halted && t.requests.resetBell else t == s
  {
  }

  /** The STOP watchdog runs only since an accepted STOP of the same run: a reset turns it off, and only STOP starts
      it. */
  lemma WatchdogNeedsStop(s: System, e: Event)
    ensures Step(s, e).armed && !s.armed ==> e == Receive(Stop) && (s.status == 1 || s.status == 3 || s.status == 4)
    ensures Step(s, e).phase.Starting? && !s.phase.Starting? ==>
      var t := Step(s, e); !t.armed && !t.halted && t.requests == NO_REQUESTS && t.status == 0
  {
  }

  // ---- Where a reset leads

  function Advances(n: nat): seq<Event> {
    if n == 0 then [] else [Advance] + Advances(n - 1)
  }

  lemma AdvanceTwice(s: System, n: nat)
    ensures After(s, Advances(n + 2)) == After(OnAdvance(OnAdvance(s)), Advances(n))
  {
    assert Advances(n + 2)[1..] == Advances(n + 1);
    assert Advances(n + 1)[1..] == Advances(n);
  }

  /** The end of an undisturbed boot. */
  function Booted(s: System): System {
    var user := BootsUserImage(s.softReset, s.intent);
    System(if user then UserImage else MainLoop, Locals(s.softReset, s.intent),
           if user then RUNNING else READY, 0, false,
           s.armed, s.halted, s.requests, s.accepted, if user then s.userBoots + 1 else s.userBoots)
  }

  /** Left alone, a boot decides. */
  lemma SixAdvancesSettle(s: System)
    requires s.phase.Starting?
    ensures After(s, Advances(6)) == Booted(s)
  {
    assert Advances(6)[1..] == Advances(5);
    FiveAdvancesSettle(OnAdvance(s));
  }

  lemma FiveAdvancesSettle(s: System)
    requires s.phase.Released?
    ensures After(s, Advances(5)) == Booted(s)
  {
    AdvanceTwice(s, 3);
    ReasonTaken(s);
    var s2 := OnAdvance(OnAdvance(s));
    AdvanceTwice(s2, 1);
    IntentTaken(s2);
    var s4 := OnAdvance(OnAdvance(s2));
    assert Advances(1)[1..] == [];
    assert After(s4, Advances(1)) == OnAdvance(s4);
  }

  lemma ReasonTaken(s: System)
    requires s.phase.Released?
    ensures OnAdvance(OnAdvance(s)) ==
      System(ReasonCleared, Locals(s.softReset, s.locals.taken), s.status, s.intent, false,
             s.armed, s.halted, s.requests, s.accepted, s.userBoots)
  {
  }

  lemma IntentTaken(s: System)
    requires s.phase.ReasonCleared?
    ensures OnAdvance(OnAdvance(s)) ==
      System(IntentConsumed, Locals(s.locals.reason, s.intent), s.status, 0, s.softReset,
             s.armed, s.halted, s.requests, s.accepted, s.userBoots)
  {
  }

  /** The bound on user boots is reached: a START in the main loop does boot the image. */
  lemma StartBoots(s: System)
    requires Inv(s) && s.phase.MainLoop? && s.status == READY && !s.halted
    ensures var t := After(s, [Receive(Start), Interrupt] + Advances(8));
      t.phase.UserImage? && t.status == RUNNING && t.userBoots == s.userBoots + 1 && t.accepted == s.accepted + 1
  {
    hide OnPacket, OnInterrupt, OnAdvance, After, Advances, Inv;
    var u := OnInterrupt(OnPacket(s, Start));
    StartRequested(s);
    TwoEvents(s, Receive(Start), Interrupt);
    RunConcat(s, [Receive(Start), Interrupt], Advances(8));
    AdvanceTwice(u, 6);
    StartResets(u);
    SixAdvancesSettle(OnAdvance(OnAdvance(u)));
  }

  lemma StartRequested(s: System)
    requires s.phase.MainLoop? && s.status == READY && !s.halted
    ensures var u := OnInterrupt(OnPacket(s, Start));
      u.phase.MainLoop? && u.requests.startApplication && u.accepted == s.accepted + 1 && u.userBoots == s.userBoots
  {
  }

  lemma TwoEvents(s: System, d: Event, e: Event)
    ensures After(s, [d, e]) == Step(Step(s, d), e)
  {
    assert [d, e][1..] == [e];
    assert After(Step(s, d), [e]) == After(Step(Step(s, d), e), []);
  }

  lemma StartResets(s: System)
    requires s.phase.MainLoop? && s.requests.startApplication
    ensures OnAdvance(OnAdvance(s)) == AfterReset(s.(intent := BOOT_INTENT_USER_IMAGE), true)
  {
  }

  predicate IsReset(e: Event) {
    e.PowerOn? || e.PinReset? || e.WatchdogExpires?
  }

  predicate ResetFree(es: seq<Event>) {
    forall e :: e in es ==> !IsReset(e)
  }

  /** The first state of a run that is past the boot decision, or the end of the run. */
  function Decided(s: System, es: seq<Event>): System
    decreases |es|
  {
    if es == [] || !s.Booting() then s else Decided(Step(s, es[0]), es[1..])
  }

  lemma BootStep(s: System, e: Event)
    requires Inv(s) && s.Booting() && !IsReset(e)
    ensures var t := Step(s, e); Inv(t)
    ensures var t := Step(s, e); if t.Booting() then UserBootDue(t) == UserBootDue(s)
      else t.phase == (if UserBootDue(s) then UserImage else MainLoop)
           && t.status == if UserBootDue(s) then RUNNING else READY
  {
    StepKeepsInv(s, e);
    if e.Receive? {
      PacketsLeaveTheBoot(s, e.packet);
    }
  }

  /** Whatever packets and interrupts fall into the boot, it leads where it was due when it began. */
  lemma {:induction false} BootGoesWhereDue(s: System, es: seq<Event>)
    requires Inv(s) && s.Booting() && ResetFree(es) && !Decided(s, es).Booting()
    ensures Decided(s, es).phase == if UserBootDue(s) then UserImage else MainLoop
    ensures Decided(s, es).status == if UserBootDue(s) then RUNNING else READY
    decreases |es|
  {
    hide Step, Inv, UserBootDue;
    BootStep(s, es[0]);
    var t := Step(s, es[0]);
    if t.Booting() {
      BootGoesWhereDue(t, es[1..]);
    } else {
      assert Decided(s, es) == t;
    }
  }

  /** A START's soft reset whose reason is still in the register and whose intent is still in RAM. */
  predicate UnconsumedStart(s: System) {
    s.softReset && s.intent == BOOT_INTENT_USER_IMAGE
  }

  /** A pin or watchdog reset comes up READY unless it cuts short the boot that a START asked for, before that
      boot cleared the reset reasons. */
  lemma HardResetComesUpReady(s: System, e: Event, es: seq<Event>)
    requires Inv(s) && (e.PinReset? || (e.WatchdogExpires? && WatchdogRuns(s)))
    requires ResetFree(es) && !Decided(Step(s, e), es).Booting()
    ensures var t := Decided(Step(s, e), es);
      if UnconsumedStart(s) then t.phase.UserImage? && t.status == RUNNING else t.phase.MainLoop? && t.status == READY
    ensures UnconsumedStart(s) ==> s.phase.Starting? || s.phase.Released? || s.phase.ReasonRead?
  {
    BootGoesWhereDue(Step(s, e), es);
  }

  lemma PowerOnComesUpReady(s: System, intent: u32, es: seq<Event>)
    requires Inv(s) && ResetFree(es) && !Decided(Step(s, PowerOn(intent)), es).Booting()
    ensures var t := Decided(Step(s, PowerOn(intent)), es); t.phase.MainLoop? && t.status == READY
  {
    BootGoesWhereDue(Step(s, PowerOn(intent)), es);
  }

  /** The reset after a calibration commit comes up READY exactly if no START was waiting as well. */
  lemma CommitResetComesUpReady(s: System, es: seq<Event>)
    requires Inv(s) && s.phase.MainLoop? && s.requests.resetRequested
    requires ResetFree(es) && !Decided(OnAdvance(OnAdvance(s)), es).Booting()
    ensures var t := Decided(OnAdvance(OnAdvance(s)), es);
      if s.requests.startApplication then t.phase.UserImage? else t.phase.MainLoop? && t.status == READY
  {
    BootGoesWhereDue(OnAdvance(OnAdvance(s)), es);
  }

  // ---- STOP and its watchdog

  /** No reset of any kind happens in this run: none comes from outside and the core asks for none. */
  predicate NeverResets(s: System, es: seq<Event>)
    decreases |es|
  {
    es == [] || (!IsReset(es[0]) && !(es[0].Advance? && s.phase.IntentWritten?) && NeverResets(Step(s, es[0]), es[1..]))
  }

  /** Settled, or about to reset. */
  predicate PastBoot(s: System) {
    !s.Booting()
  }

  lemma StepStaysArmed(s: System, e: Event)
    requires Inv(s) && s.armed && !IsReset(e) && !(e.Advance? && s.phase.IntentWritten?)
    ensures Step(s, e).armed && (PastBoot(s) ==> PastBoot(Step(s, e)))
  {
  }

  lemma {:induction false} StaysArmed(s: System, es: seq<Event>)
    requires Inv(s) && s.armed && NeverResets(s, es)
    ensures Inv(After(s, es)) && After(s, es).armed && (PastBoot(s) ==> PastBoot(After(s, es)))
    decreases |es|
  {
    hide Inv, Step, PastBoot, IsReset;
    if es != [] {
      StepKeepsInv(s, es[0]);
      StepStaysArmed(s, es[0]);
      StaysArmed(Step(s, es[0]), es[1..]);
    }
  }

  /** From RUNNING, RESETTING or PROGRAMMING a STOP leads back to READY: whatever happens until its watchdog expires
      and during the boot that follows. The one exception is a STOP that fell into a START's own boot. */
  lemma StopLeadsToReady(s: System, between: seq<Event>, boot: seq<Event>)
    requires Inv(s) && StopsFrom(s.status) && !s.phase.Starting? && !s.halted
    requires NeverResets(OnPacket(s, Stop), between)
    requires var w := Step(After(OnPacket(s, Stop), between), WatchdogExpires);
      ResetFree(boot) && !Decided(w, boot).Booting()
    ensures var u := After(OnPacket(s, Stop), between);
      var t := Decided(Step(u, WatchdogExpires), boot);
      if UnconsumedStart(u) then t.phase.UserImage? else t.phase.MainLoop? && t.status == READY
    ensures s.Settled() ==> !UnconsumedStart(After(OnPacket(s, Stop), between))
  {
    var stopped := OnPacket(s, Stop);
    assert stopped == s.(status := STOPPING, armed := true);
    StepKeepsInv(s, Receive(Stop));
    StaysArmed(stopped, between);
    HardResetComesUpReady(After(stopped, between), WatchdogExpires, boot);
  }

  /** From every status that the main loop or the user image can be in, sending STOP and letting its watchdog
      expire leads back to READY, exactly if the device is not READY already and the network core still listens. */
  lemma EveryStatusHasAWayBack(s: System)
    requires Inv(s) && s.Settled()
    ensures OnPacket(s, Stop).armed <==> s.armed || (s.status != READY && !s.halted)
    ensures OnPacket(s, Stop).armed ==> var t := After(s, [Receive(Stop), WatchdogExpires] + Advances(6));
      t.phase.MainLoop? && t.status == READY
  {
    var u := Step(OnPacket(s, Stop), WatchdogExpires);
    TwoEvents(s, Receive(Stop), WatchdogExpires);
    RunConcat(s, [Receive(Stop), WatchdogExpires], Advances(6));
    if OnPacket(s, Stop).armed {
      SixAdvancesSettle(u);
    }
  }

  ghost predicate Reaches(s: System, t: System) {
    exists es :: After(s, es) == t
  }

  lemma ReachesAlong(s: System, t: System, es: seq<Event>)
    requires Reaches(s, t)
    ensures Reaches(s, After(t, es))
  {
    var first :| After(s, first) == t;
    RunConcat(s, first, es);
  }

  /** A START's soft reset is reached; the cleared status reads READY until the boot has decided. */
  lemma StartResetReached() returns (t: System)
    ensures Reaches(First(0), t) && Inv(t) && UnconsumedStart(t)
    ensures t.phase.Starting? && t.status == READY && !t.halted
  {
    var first := First(0);
    var s := Booted(first);
    SixAdvancesSettle(first);
    assert Reaches(first, s);
    var u := OnInterrupt(OnPacket(s, Start));
    TwoEvents(s, Receive(Start), Interrupt);
    ReachesAlong(first, s, [Receive(Start), Interrupt]);
    StartResets(u);
    TwoEvents(u, Advance, Advance);
    ReachesAlong(first, u, [Advance, Advance]);
    t := OnAdvance(OnAdvance(u));
  }

  /** The exception for hard resets is real: a pin reset during a START's boot does not stop the user image. */
  lemma PinResetMayBootUserImage()
    ensures exists s :: Reaches(First(0), s) && After(Step(s, PinReset), Advances(6)).phase.UserImage?
  {
    var s := StartResetReached();
    SixAdvancesSettle(Step(s, PinReset));
  }

  /** The network core can be deaf under a running image: it accepts a last calibration matrix on the READY that
      the start-up code of a START's boot left, waits for a reset, and the user image starts. */
  lemma CommitDuringBootDeafensTheImage()
    ensures exists t :: Reaches(First(0), t) && t.phase.UserImage? && t.halted
  {
    var s := StartResetReached();
    TwoEvents(s, Advance, Receive(LastMatrix));
    ReachesAlong(First(0), s, [Advance, Receive(LastMatrix)]);
    var deaf := OnPacket(OnAdvance(s), LastMatrix);
    assert deaf.halted;
    FiveAdvancesSettle(deaf);
    ReachesAlong(First(0), deaf, Advances(5));
  }

  // ---- The code

  /** A boot and, if it stays in the bootloader, one turn of its loop. */
  function BootedAndServed(s: System): System {
    var b := Booted(s);
    if b.phase.MainLoop? then OnAdvance(OnInterrupt(b)) else b
  }

  lemma BootedAndServedKeeps(s: System)
    requires Inv(s) && s.phase.Released?
    ensures Inv(BootedAndServed(s)) && Balance(BootedAndServed(s)) <= Balance(s)
  {
    var b := Booted(s);
    FiveAdvancesSettle(s);
    RunKeepsInv(s, Advances(5));
    RunSpends(s, Advances(5));
    StepKeepsInv(b, Interrupt);
    StepSpends(b, Interrupt);
    StepKeepsInv(OnInterrupt(b), Advance);
    StepSpends(OnInterrupt(b), Advance);
    hide Balance, Inv, Booted, OnInterrupt, OnAdvance, After, Advances;
  }

  /** A START or a commit is waiting for the main loop. */
  predicate ResetAsked(s: System) {
    s.requests.startBell || s.requests.startApplication || s.requests.resetBell || s.requests.resetRequested
  }

  /** Where a boot and one loop turn lead. */
  lemma BootedAndServedLeads(s: System)
    requires s.phase.Released?
    ensures var t := BootedAndServed(s); var asked := s.requests.startBell || s.requests.startApplication;
      if UserBootDue(s) then t.phase.UserImage? && t.status == RUNNING && t.userBoots == s.userBoots + 1
      else t.status == READY && t.userBoots == s.userBoots
           && t.phase == (if ResetAsked(s) then IntentWritten else MainLoop)
           && (UserBootDue(t) <==> asked)
  {
  }

  /** The boot of the application core, its interrupt handler and the end of its loop body, and the
      network core's packet switch. */
  class Board {
    var phase: Phase
    var status: nat
    var bootIntent: u32
    var resetReason: bool          // the soft-reset bit of RESETREAS
    var watchdogStarted: bool
    var waitingForReset: bool      // the network core, after a commit
    var startBell: bool
    var resetBell: bool
    var startApplication: bool
    var systemResetRequested: bool
    ghost var locals: Locals
    ghost var accepted: nat
    ghost var userBoots: nat

    ghost function State(): System
      reads this
    {
      System(phase, locals, status, bootIntent, resetReason, watchdogStarted, waitingForReset,
             Requests(startBell, resetBell, startApplication, systemResetRequested), accepted, userBoots)
    }

    /** The boot decision, when no reset interrupts it. */
    method Boot()
      requires phase == Released
      modifies this
      ensures State() == After(old(State()), Advances(5)) == Booted(old(State()))
    {
      hide OnAdvance, Step, After, Advances;
      FiveAdvancesSettle(State());
      var resetreas := resetReason;
      resetReason := false;
      var intent := bootIntent;
      bootIntent := 0;
      locals := Locals(resetreas, intent);
      if resetreas && intent == BOOT_INTENT_USER_IMAGE {
        status := RUNNING;
        phase := UserImage;
        userBoots := userBoots + 1;
      } else {
        status := READY;
        phase := MainLoop;
      }
    }

    /** The two reset requests at the end of a loop pass. */
    method ServeResetRequests()
      requires phase == MainLoop
      modifies this
      ensures State() == OnAdvance(old(State()))
    {
      if startApplication {
        bootIntent := BOOT_INTENT_USER_IMAGE;
        phase := IntentWritten;
      } else if systemResetRequested {
        bootIntent := BOOT_INTENT_BOOTLOADER;
        phase := IntentWritten;
      }
    }

    method HandleInterrupt()
      requires phase != UserImage
      modifies this
      ensures State() == OnInterrupt(old(State()))
    {
      if startBell {
        startBell := false;
        startApplication := true;
      }
      if resetBell {
        resetBell := false;
        systemResetRequested := true;
      }
    }

    /** A boot and, if it stays in the bootloader, one turn of its loop, with no reset in between. A START that asked
        for the reset boots the image and is spent; otherwise the device comes up READY, and asks for a reset exactly
        if a START or a commit came in meanwhile, for the image exactly if a START did. */
    method BootAndPass()
      requires phase == Released && Inv(State())
      modifies this
      ensures Inv(State()) && Balance(State()) <= old(Balance(State()))
      ensures var s := old(State()); var asked := s.requests.startBell || s.requests.startApplication;
        if UnconsumedStart(s) then phase == UserImage && status == RUNNING && userBoots == s.userBoots + 1
        else status == READY && userBoots == s.userBoots
             && phase == (if ResetAsked(s) then IntentWritten else MainLoop)
             && (UserBootDue(State()) <==> asked)
    {
      BootedAndServedKeeps(State());
      BootedAndServedLeads(State());
      ghost var s := State();
      hide Inv, Balance, Outstanding, UserBootDue, After, Advances, OnInterrupt, OnAdvance;
      Boot();
      if phase == MainLoop {
        HandleInterrupt();
        ServeResetRequests();
      }
      assert State() == BootedAndServed(s);
    }

    method HandlePacket(packet: Packet)
      requires phase != Starting && !waitingForReset
      modifies this
      ensures State() == OnPacket(old(State()), packet)
    {
      match packet
      case Start =>
        if status != READY { return; }
        startBell := true;
        accepted := accepted + 1;
      case Stop =>
        if status != RUNNING && status != RESETTING && status != PROGRAMMING { return; }
        status := STOPPING;
        watchdogStarted := true;
      case Reset =>
        if status != READY { return; }
        status := RESETTING;
      case OtaStart =>
        if status != READY && status != PROGRAMMING { return; }
        status := PROGRAMMING;
      case LastMatrix =>
        if status != READY { return; }
        resetBell := true;
        waitingForReset := true;
    }
  }
}
