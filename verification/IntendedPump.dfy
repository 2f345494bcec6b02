/**
  NOT the code as written: the evident intent of the serial port's pipeline, obtained by
  changing startWrite in one place.  As written, startWrite sends only a message it has just
  popped, and gives up when `current` is non-empty; here it goes on to send what `current`
  holds.  Everything else is the step machine of the code.

  On a serial port the changed pipeline drains: every accepted byte is handed over, and in
  order.  On the other kinds the same change would send a message twice.
 */
module IntendedPump {
  import opened Streams
  import opened PumpCore
  import opened Pump
  import opened PumpStrand
  import opened PumpTheorems

  /** The one instruction that is changed: the lock holder finds `current` non-empty. */
  predicate Resends(s: State, st: Step) {
    st.Go? && PcOf(s, st.a).Inside? && s.core.section.TestingCurrent? && s.core.current != []
  }

  function IntendedNext(s: State, st: Step): State
    requires Enabled(s, st)
  {
    if Resends(s, st) then s.(core := Resent(s.core)) else Next(s, st)
  }

  function Resent(c: Core): Core {
    c.(section := SettingFlag)
  }

  /** What the lock holder's next instruction makes of the core. */
  function IntendedHold(c: Core): Core
    requires Can(c, Hold)
  {
    if c.section.TestingCurrent? && c.current != [] then Resent(c) else AfterHold(c)
  }

  ghost predicate IntendedLegal(s: State, steps: seq<Step>)
    decreases |steps|
  {
    steps == [] || (Enabled(s, steps[0]) && IntendedLegal(IntendedNext(s, steps[0]), steps[1..]))
  }

  ghost function IntendedExec(s: State, steps: seq<Step>): State
    requires IntendedLegal(s, steps)
    decreases |steps|
  {
    if steps == [] then s else IntendedExec(IntendedNext(s, steps[0]), steps[1..])
  }

  // ---------------------------------------------------------------------------
  // Safety on a serial port.

  ghost predicate SerialInv(s: State) {
    s.kind.Serial? && StreamInv(s) && AgentsOk(s)
  }

  lemma StrandIsFree(s: State)
    requires OneStream(s) && s.core.section.TestingCurrent?
    ensures !Busy(s.core) && PcOf(s, STRAND).Inside? && s.core.handler.NotRunning?
  {
  }

  /** The change shows in the stalled state only. */
  lemma DiffersOnlyWhenStalled(s: State, st: Step)
    requires SerialInv(s) && Enabled(s, st)
    ensures IntendedNext(s, st) != Next(s, st) <==> Resends(s, st)
    ensures Resends(s, st) ==> Stalled(s.core)
  {
    if Resends(s, st) {
      StrandIsFree(s);
      assert Next(s, st).core.section.Unlocking?;
    }
  }

  lemma ResendKeepsSerialInv(s: State, st: Step)
    requires SerialInv(s) && Enabled(s, st) && Resends(s, st)
    ensures SerialInv(IntendedNext(s, st))
  {
    StrandIsFree(s);
    var s' := IntendedNext(s, st);
    assert forall a: nat :: PcOf(s', a) == PcOf(s, a);
    SameAccount(s.core, s'.core);
  }

  lemma StepKeepsSerialInv(s: State, st: Step)
    requires SerialInv(s) && Enabled(s, st)
    ensures SerialInv(IntendedNext(s, st))
  {
    if Resends(s, st) {
      ResendKeepsSerialInv(s, st);
    } else {
      StepKeepsStreamInv(s, st);
      KeepsAgents(s, st);
    }
  }

  // ---------------------------------------------------------------------------
  // Nothing is left lying about, as long as no send fails.

  /** The flag is on only over a send on its way, or while the handler runs. */
  predicate FlagHonest(c: Core) {
    c.inProgress ==> Busy(c) || c.handler.ResettingFlag?
  }

  ghost predicate Diligent(s: State) {
    (s.core.queue != [] || s.core.current != []) && !s.unkicked ==> SomeoneWillLook(s)
  }

  ghost predicate LiveInv(s: State) {
    SerialInv(s) && FlagHonest(s.core) && Diligent(s)
  }

  lemma EventKeepsHonest(c: Core, e: Event)
    requires FlagHonest(c) && Can(c, e) && !e.Fail?
    ensures FlagHonest(After(c, e))
  {
  }

  lemma ResendKeepsLiveInv(s: State, st: Step)
    requires LiveInv(s) && Enabled(s, st) && Resends(s, st)
    ensures LiveInv(IntendedNext(s, st))
  {
    ResendKeepsSerialInv(s, st);
    assert Loaded(IntendedNext(s, st).core);
  }

  lemma StepKeepsDiligent(s: State, st: Step)
    requires LiveInv(s) && Enabled(s, st) && !st.SendFailed? && !Resends(s, st)
    ensures Diligent(Next(s, st))
  {
    match st
    case RunPosted => assert Coming(PcOf(Next(s, st), STRAND));
    case Go(a) => InstructionKeepsDiligent(s, a);
    case SendDone(i, w) => assert Pending(Next(s, st).core);
    case Begin(a, m) => StillComing(s, st);
    case SetRun(on) => StillComing(s, st);
  }

  lemma InstructionKeepsDiligent(s: State, a: nat)
    requires LiveInv(s) && Enabled(s, Go(a)) && !Resends(s, Go(a))
    ensures Diligent(Instruction(s, a))
  {
    var s' := Instruction(s, a);
    match PcOf(s, a)
    case Inside => StillComing(s, Go(a)); HoldKeepsDiligent(s, a);
    case Handling => StillComing(s, Go(a)); HandleKeepsDiligent(s);
    case Locking => assert CoreWillLook(s'.core);
    case TestingFlag => if !s.core.inProgress { assert Coming(PcOf(s', a)); }
    case TestingRun => if s.run { assert Coming(PcOf(s', a)); } else { assert s'.unkicked; }
    case Pushing(m) => assert Coming(PcOf(s', a));
    case Posting => assert s'.posted > 0;
    case TestingOuterFlag => if !s.core.inProgress { assert Coming(PcOf(s', a)); }
  }

  lemma HoldKeepsDiligent(s: State, a: nat)
    requires Diligent(s) && Conserved(s.core) && Enabled(s, Go(a)) && PcOf(s, a).Inside? && !Resends(s, Go(a))
    requires (exists b: nat :: Coming(PcOf(s, b))) ==> exists b: nat :: Coming(PcOf(Instruction(s, a), b))
    ensures Diligent(Instruction(s, a))
  {
    var s' := Instruction(s, a);
    assert s'.core == After(s.core, Hold) && s'.posted == s.posted && s'.unkicked == s.unkicked;
  }

  lemma HandleKeepsDiligent(s: State)
    requires Diligent(s) && Enabled(s, Go(STRAND)) && PcOf(s, STRAND).Handling?
    requires (exists b: nat :: Coming(PcOf(s, b))) ==> exists b: nat :: Coming(PcOf(Instruction(s, STRAND), b))
    ensures Diligent(Instruction(s, STRAND))
  {
    var s' := Instruction(s, STRAND);
    if s.core.handler.ResettingFlag? {
      assert Coming(PcOf(s', STRAND));
    }
  }

  lemma StepKeepsLiveInv(s: State, st: Step)
    requires LiveInv(s) && Enabled(s, st) && !st.SendFailed?
    ensures LiveInv(IntendedNext(s, st))
  {
    if Resends(s, st) {
      ResendKeepsLiveInv(s, st);
    } else {
      StepKeepsSerialInv(s, st);
      StepKeepsDiligent(s, st);
      if Next(s, st).core != s.core {
        EventKeepsHonest(s.core, EventOf(s, st));
      }
    }
  }

  lemma {:induction false} RunKeepsSerialInv(s: State, steps: seq<Step>)
    requires SerialInv(s) && IntendedLegal(s, steps)
    ensures SerialInv(IntendedExec(s, steps))
    decreases |steps|
  {
    if steps != [] {
      StepKeepsSerialInv(s, steps[0]);
      RunKeepsSerialInv(IntendedNext(s, steps[0]), steps[1..]);
    }
  }

  lemma {:induction false} RunKeepsLiveInv(s: State, steps: seq<Step>)
    requires LiveInv(s) && IntendedLegal(s, steps) && NoFailures(steps)
    ensures LiveInv(IntendedExec(s, steps))
    decreases |steps|
  {
    if steps != [] {
      assert !steps[0].SendFailed?;
      StepKeepsLiveInv(s, steps[0]);
      RunKeepsLiveInv(IntendedNext(s, steps[0]), steps[1..]);
    }
  }

  // ---------------------------------------------------------------------------
  // The strand comes to an end.

  /** A step of the strand, or a completion; a send of a non-empty buffer that succeeds has
      taken at least one byte of it. */
  predicate Works(s: State, st: Step) {
    && Enabled(s, st)
    && match st {
         case Go(a) => a == STRAND
         case RunPosted => true
         case SendDone(i, w) => s.core.inFlight[i] != [] ==> w > 0
         case _ => false
       }
  }

  ghost predicate Working(s: State, steps: seq<Step>)
    decreases |steps|
  {
    steps == [] || (Works(s, steps[0]) && Working(IntendedNext(s, steps[0]), steps[1..]))
  }

  lemma {:induction false} WorkingIsLegal(s: State, steps: seq<Step>)
    requires Working(s, steps)
    ensures IntendedLegal(s, steps) && NoFailures(steps)
    decreases |steps|
  {
    if steps != [] {
      WorkingIsLegal(IntendedNext(s, steps[0]), steps[1..]);
      assert forall i :: 0 < i < |steps| ==> steps[i] == steps[1..][i - 1];
    }
  }

  const BYTE: nat := 30
  const MESSAGE: nat := 30

  function Weight(m: Message): nat {
    BYTE * |m|
  }

  function QueueWeight(q: seq<Message>): nat {
    if q == [] then 0 else Weight(q[0]) + MESSAGE + QueueWeight(q[1..])
  }

  /** What is left of `current`; the send of it that is on its way is paid for by one byte. */
  function CurrentWeight(c: Core): nat {
    if Loaded(c) || c.inFlight != [] then (if c.current == [] then 0 else Weight(c.current[1..]))
    else Weight(Rest(c))
  }

  function SectionRank(section: Section): nat {
    match section
    case Unlocked => 0
    case TestingCurrent => 4
    case TestingQueue => 3
    case Popping => 2
    case Assigning(m) => 26 + Weight(m)
    case SettingFlag => 25
    case Sending => 24
    case Unlocking => 1
  }

  function HandlerRank(handler: Handler): nat {
    match handler
    case NotRunning => 0
    case Completed(_) => 21
    case Erasing(_) => 20
    case Retesting(_) => 20
    case Repopping => 19
    case Reassigning(m) => 18 + Weight(m)
    case Clearing => 19
    case ResettingFlag => 17
  }

  function StrandRank(s: State): nat {
    match PcOf(s, STRAND)
    case Idle => 0
    case Pushing(m) => 18 + Weight(m) + MESSAGE
    case TestingRun => 17
    case TestingOuterFlag => 7
    case Posting => 16
    case TestingFlag => 6
    case Locking => 5
    case Inside => SectionRank(s.core.section)
    case Handling => HandlerRank(s.core.handler)
  }

  /** A bound on how many more steps the strand and the completions can make by themselves. */
  function Remaining(s: State): nat {
    CurrentWeight(s.core) + QueueWeight(s.core.queue) + StrandRank(s) + 8 * s.posted + Flying(s.core)
  }

  lemma QueueWeightSnoc(q: seq<Message>, m: Message)
    ensures QueueWeight(q + [m]) == QueueWeight(q) + Weight(m) + MESSAGE
  {
    if q != [] {
      assert (q + [m])[1..] == q[1..] + [m];
      QueueWeightSnoc(q[1..], m);
    } else {
      assert (q + [m])[1..] == [];
    }
  }

  lemma WorkGoesDown(s: State, st: Step)
    requires SerialInv(s) && Works(s, st)
    ensures Remaining(IntendedNext(s, st)) < Remaining(s)
  {
    match st
    case Go(a) =>
      if PcOf(s, STRAND).Inside? {
        HoldingGoesDown(s);
      } else if PcOf(s, STRAND).Handling? {
        HandlingGoesDown(s);
      } else {
        CallingGoesDown(s);
      }
    case RunPosted => assert IntendedNext(s, st).core == s.core;
    case SendDone(i, w) => CompletingGoesDown(s, w);
  }

  lemma CallingGoesDown(s: State)
    requires Enabled(s, Go(STRAND)) && !PcOf(s, STRAND).Inside? && !PcOf(s, STRAND).Handling?
    requires s.core.section.Unlocked? && s.core.handler.NotRunning?
    ensures Remaining(IntendedNext(s, Go(STRAND))) < Remaining(s)
  {
    if PcOf(s, STRAND).Pushing? {
      QueueWeightSnoc(s.core.queue, PcOf(s, STRAND).msg);
    }
  }

  lemma HoldingGoesDown(s: State)
    requires SerialInv(s) && Enabled(s, Go(STRAND)) && PcOf(s, STRAND).Inside?
    ensures Remaining(IntendedNext(s, Go(STRAND))) < Remaining(s)
  {
    var s' := IntendedNext(s, Go(STRAND));
    assert s.core.handler.NotRunning? && (!s.core.section.Unlocking? ==> s.core.inFlight == []);
    assert s'.core == IntendedHold(s.core) && s'.posted == s.posted;
    assert StrandRank(s') == SectionRank(s'.core.section);
    HoldingPays(s.core);
  }

  function Flying(c: Core): nat {
    if c.inFlight == [] then 0 else 22
  }

  lemma HoldingPays(c: Core)
    requires Ownership(c) && Can(c, Hold) && c.handler.NotRunning? && (!c.section.Unlocking? ==> c.inFlight == [])
    ensures var c' := IntendedHold(c);
            CurrentWeight(c') + QueueWeight(c'.queue) + SectionRank(c'.section) + Flying(c')
            < CurrentWeight(c) + QueueWeight(c.queue) + SectionRank(c.section) + Flying(c)
  {
    if c.section.Popping? {
      assert QueueWeight(c.queue) == Weight(c.queue[0]) + MESSAGE + QueueWeight(c.queue[1..]);
    }
  }

  lemma HandlingGoesDown(s: State)
    requires SerialInv(s) && Enabled(s, Go(STRAND)) && PcOf(s, STRAND).Handling?
    ensures Remaining(IntendedNext(s, Go(STRAND))) < Remaining(s)
  {
    assert s.core.section.Unlocked? && s.core.inFlight == [];
    var s', c' := IntendedNext(s, Go(STRAND)), AfterHandle(s.core);
    assert s'.core == c';
    HandlingPays(s.core);
  }

  lemma HandlingPays(c: Core)
    requires Ownership(c) && Can(c, Handle) && c.section.Unlocked? && c.inFlight == []
    ensures var c' := AfterHandle(c);
            && c'.inFlight == [] && !Loaded(c')
            && CurrentWeight(c') + QueueWeight(c'.queue) + HandlerRank(c'.handler)
               < CurrentWeight(c) + QueueWeight(c.queue) + HandlerRank(c.handler)
            && (c.handler.ResettingFlag? ==> CurrentWeight(c') == CurrentWeight(c) && c'.queue == c.queue)
  {
    match c.handler
    case Erasing(w) => assert Rest(AfterHandle(c)) == Rest(c);
    case Completed(w) => assert Rest(AfterHandle(c)) == Rest(c);
    case _ =>
  }

  lemma CompletingGoesDown(s: State, w: nat)
    requires SerialInv(s) && Works(s, SendDone(0, w))
    ensures Remaining(IntendedNext(s, SendDone(0, w))) < Remaining(s)
  {
    var c := s.core;
    assert c.inFlight == [c.current] && RemoveAt(c.inFlight, 0) == [];
  }

  lemma {:induction false} WorkIsBounded(s: State, steps: seq<Step>)
    requires SerialInv(s) && Working(s, steps)
    ensures |steps| <= Remaining(s)
    decreases |steps|
  {
    if steps != [] {
      WorkGoesDown(s, steps[0]);
      StepKeepsSerialInv(s, steps[0]);
      WorkIsBounded(IntendedNext(s, steps[0]), steps[1..]);
    }
  }

  /** The strand and the completions can do no more. */
  ghost predicate Spent(s: State) {
    forall st: Step :: !Works(s, st)
  }

  /** Then, with nobody in the middle of a write, everything is at rest. */
  lemma SpentIsQuiet(s: State)
    requires SerialInv(s) && Spent(s)
    requires forall a: nat :: PcOf(s, a).Idle? || (a == STRAND && !PcOf(s, a).Pushing?)
    ensures Quiet(s)
  {
    assert !Works(s, Go(STRAND)) && !Works(s, RunPosted);
    assert PcOf(s, STRAND).Inside? <==> s.owner == Some(STRAND);
    assert s.owner == None || PcOf(s, STRAND).Inside? by {
      SectionHasOwner(s);
    }
    assert PcOf(s, STRAND).Idle?;
    assert !Works(s, SendDone(0, |s.core.current|));
  }

  lemma QuietIsDelivered(s: State)
    requires LiveInv(s) && Quiet(s) && !s.unkicked
    ensures Flatten(s.core.written) == Flatten(s.core.accepted)
  {
    SectionHasOwner(s);
    assert !PcOf(s, STRAND).Handling?;
    assert forall a: nat :: !Coming(PcOf(s, a));
    assert s.core.queue == [] && s.core.current == [] && Hand(s.core) == [] && Rest(s.core) == [];
  }

  /** After any run on a serial port, with any number of callers, any split of the bytes, opens
      and closes: the bytes add up and the output is a prefix of the input.  The strand and the
      completions alone can go on for a bounded number of steps only.  And once they can do no
      more, nobody is in the middle of a write, no send has failed and the last write was
      kicked, every accepted byte has been handed over. */
  lemma IntendedPumpDrains(steps: seq<Step>, more: seq<Step>)
    requires IntendedLegal(Init(Serial), steps) && Working(IntendedExec(Init(Serial), steps), more)
    ensures IntendedLegal(IntendedExec(Init(Serial), steps), more)
    ensures |more| <= Remaining(IntendedExec(Init(Serial), steps))
    ensures var t := IntendedExec(IntendedExec(Init(Serial), steps), more);
            && BytesAddUp(t) && OutputIsPrefix(t)
            && (Spent(t) && (forall a: nat :: PcOf(t, a).Idle?) && NoFailures(steps) && !t.unkicked ==>
                 Flatten(t.core.written) == Flatten(t.core.accepted))
  {
    InitKeepsInv();
    RunKeepsSerialInv(Init(Serial), steps);
    var s := IntendedExec(Init(Serial), steps);
    WorkIsBounded(s, more);
    WorkingIsLegal(s, more);
    RunKeepsSerialInv(s, more);
    AddsUp(IntendedExec(s, more));
    if NoFailures(steps) {
      RunKeepsLiveInv(Init(Serial), steps);
      RunKeepsLiveInv(s, more);
      SpentIsDelivered(IntendedExec(s, more));
    }
  }

  lemma InitKeepsInv()
    ensures LiveInv(Init(Serial))
  {
  }

  lemma AddsUp(t: State)
    requires SerialInv(t)
    ensures BytesAddUp(t) && OutputIsPrefix(t)
  {
  }

  lemma SpentIsDelivered(t: State)
    requires LiveInv(t)
    ensures Spent(t) && (forall a: nat :: PcOf(t, a).Idle?) && !t.unkicked ==>
              Flatten(t.core.written) == Flatten(t.core.accepted)
  {
    if Spent(t) && (forall a: nat :: PcOf(t, a).Idle?) && !t.unkicked {
      SpentIsQuiet(t);
      QuietIsDelivered(t);
    }
  }

  // ---------------------------------------------------------------------------
  // On the other kinds the change would not do.

  ghost predicate Reachable(kind: Kind, s: State) {
    exists steps: seq<Step> :: IntendedLegal(Init(kind), steps) && IntendedExec(Init(kind), steps) == s
  }

  lemma {:induction false} IntendedSnoc(s: State, steps: seq<Step>, st: Step)
    requires IntendedLegal(s, steps) && Enabled(IntendedExec(s, steps), st)
    ensures IntendedLegal(s, steps + [st])
    ensures IntendedExec(s, steps + [st]) == IntendedNext(IntendedExec(s, steps), st)
    decreases |steps|
  {
    if steps == [] {
      assert steps + [st] == [st] && [st][1..] == [];
    } else {
      assert (steps + [st])[0] == steps[0] && (steps + [st])[1..] == steps[1..] + [st];
      IntendedSnoc(IntendedNext(s, steps[0]), steps[1..], st);
    }
  }

  lemma Reach(kind: Kind, s: State, st: Step) returns (t: State)
    requires Reachable(kind, s) && Enabled(s, st)
    ensures t == IntendedNext(s, st) && Reachable(kind, t)
    ensures forall b: nat :: b != Mover(st) ==> PcOf(t, b) == PcOf(s, b)
  {
    OthersStay(s, st);
    t := IntendedNext(s, st);
    var steps: seq<Step> :| IntendedLegal(Init(kind), steps) && IntendedExec(Init(kind), steps) == s;
    IntendedSnoc(Init(kind), steps, st);
  }

  /** Inside the lock, up to the unlock. */
  lemma ReachInside(kind: Kind, s: State, a: nat, c: Core) returns (t: State)
    requires Reachable(kind, s) && PcOf(s, a).Inside? && Can(s.core, Hold)
    requires c == IntendedHold(s.core) && !c.section.Unlocked?
    ensures t == s.(core := c) && Reachable(kind, t)
  {
    t := Reach(kind, s, Go(a));
  }

  /** A caller enqueues, passes the flag and stands before the lock. */
  lemma Arrives(kind: Kind, s: State, a: nat, m: Message) returns (t: State)
    requires Reachable(kind, s) && !s.kind.Serial? && s.run && !s.core.inProgress
    requires PcOf(s, a).Idle? && |s.core.queue| < QUEUE_CAPACITY
    ensures Reachable(kind, t) && t.kind == s.kind && t.run && t.owner == s.owner && PcOf(t, a) == Locking
    ensures t.core == s.core.(queue := s.core.queue + [m], accepted := s.core.accepted + [m])
    ensures forall b: nat :: b != a ==> PcOf(t, b) == PcOf(s, b)
  {
    t := Enqueues(kind, s, a, m);
    t := PassesFlags(kind, t, a);
  }

  lemma Enqueues(kind: Kind, s: State, a: nat, m: Message) returns (t: State)
    requires Reachable(kind, s) && PcOf(s, a).Idle? && |s.core.queue| < QUEUE_CAPACITY
    ensures Reachable(kind, t) && t.kind == s.kind && t.run == s.run && t.owner == s.owner
    ensures PcOf(t, a) == if s.kind.Server? then TestingOuterFlag else TestingRun
    ensures t.core == s.core.(queue := s.core.queue + [m], accepted := s.core.accepted + [m])
    ensures forall b: nat :: b != a ==> PcOf(t, b) == PcOf(s, b)
  {
    t := Reach(kind, s, Begin(a, m));
    assert PcOf(t, a) == Pushing(m) && t.core == s.core;
    t := Reach(kind, t, Go(a));
  }

  lemma PassesFlags(kind: Kind, s: State, a: nat) returns (t: State)
    requires Reachable(kind, s) && !s.kind.Serial? && s.run && !s.core.inProgress
    requires PcOf(s, a) == if s.kind.Server? then TestingOuterFlag else TestingRun
    ensures Reachable(kind, t) && t.kind == s.kind && t.run && t.owner == s.owner && PcOf(t, a) == Locking
    ensures t.core == s.core
    ensures forall b: nat :: b != a ==> PcOf(t, b) == PcOf(s, b)
  {
    t := Reach(kind, s, Go(a));
    assert PcOf(t, a) == TestingFlag && t.core == s.core;
    t := Reach(kind, t, Go(a));
  }

  lemma Locks(kind: Kind, s: State, a: nat) returns (t: State)
    requires Reachable(kind, s) && PcOf(s, a).Locking? && s.owner == None && s.core.section.Unlocked?
    ensures Reachable(kind, t) && PcOf(t, a).Inside? && t.kind == s.kind
    ensures t.core == s.core.(section := TestingCurrent)
    ensures forall b: nat :: b != a ==> PcOf(t, b) == PcOf(s, b)
  {
    t := Reach(kind, s, Go(a));
  }

  /** The lock holder sends what `current` holds. */
  lemma SendsCurrent(kind: Kind, s: State, a: nat) returns (t: State)
    requires Reachable(kind, s) && PcOf(s, a).Inside? && s.core.section.SettingFlag?
    ensures t == s.(core := s.core.(section := Unlocking, inProgress := true,
                                    inFlight := s.core.inFlight + [s.core.current]))
    ensures Reachable(kind, t)
  {
    var c := s.core.(section := Sending, inProgress := true);
    t := ReachInside(kind, s, a, c);
    t := ReachInside(kind, t, a, c.(section := Unlocking, inFlight := c.inFlight + [c.current]));
  }

  /** The lock holder finds `current` in flight and sends it a second time. */
  lemma SendsAgain(kind: Kind, s: State, a: nat) returns (t: State)
    requires Reachable(kind, s) && PcOf(s, a).Locking? && s.owner == None && s.core.section.Unlocked?
    requires s.core.current != []
    ensures Reachable(kind, t) && PcOf(t, a).Inside?
    ensures t.core == s.core.(section := Unlocking, inProgress := true, inFlight := s.core.inFlight + [s.core.current])
  {
    t := Locks(kind, s, a);
    t := ReachInside(kind, t, a, Resent(t.core));
    t := SendsCurrent(kind, t, a);
  }

  /** The lock holder finds `current` empty and sends the next message. */
  lemma SendsNext(kind: Kind, s: State, a: nat, m: Message) returns (t: State)
    requires Reachable(kind, s) && PcOf(s, a).Locking? && s.owner == None && s.core.section.Unlocked?
    requires s.core.current == [] && s.core.queue != [] && s.core.queue[0] == m
    ensures Reachable(kind, t) && PcOf(t, a).Idle? && t.owner == None && t.kind == s.kind
    ensures t.core == s.core.(current := m, inProgress := true, queue := s.core.queue[1..],
                              inFlight := s.core.inFlight + [m], taken := s.core.taken + [m])
    ensures forall b: nat :: b != a ==> PcOf(t, b) == PcOf(s, b)
  {
    t := Locks(kind, s, a);
    t := FetchesNext(kind, t, a, m);
    t := SendsCurrent(kind, t, a);
    t := Reach(kind, t, Go(a));
  }

  lemma FetchesNext(kind: Kind, s: State, a: nat, m: Message) returns (t: State)
    requires Reachable(kind, s) && PcOf(s, a).Inside? && s.core.section.TestingCurrent?
    requires s.core.current == [] && s.core.queue != [] && s.core.queue[0] == m
    ensures t == s.(core := s.core.(section := SettingFlag, current := m, queue := s.core.queue[1..],
                                    taken := s.core.taken + [m]))
    ensures Reachable(kind, t)
  {
    var c := s.core;
    var c1 := c.(section := Assigning(m), queue := c.queue[1..]);
    t := ReachInside(kind, s, a, c.(section := TestingQueue));
    t := ReachInside(kind, t, a, c.(section := Popping));
    t := ReachInside(kind, t, a, c1);
    t := ReachInside(kind, t, a, c1.(section := SettingFlag, current := m, taken := c.taken + [m]));
  }

  /** On every kind but the serial port: two callers pass the flag, the first one's message
      goes in flight, and the second sends it again; the peer is given it twice. */
  lemma ChangeSendsTwice(kind: Kind, m: Message) returns (s: State)
    requires !kind.Serial? && m != []
    ensures Reachable(kind, s) && s.core.inFlight == [m, m] && s.core.accepted == [m, m] && s.core.queue == [m]
  {
    s := Init(kind);
    assert IntendedLegal(s, []) && IntendedExec(s, []) == s;
    s := Arrives(kind, s, 1, m);
    s := Arrives(kind, s, 2, m);
    s := SendsNext(kind, s, 1, m);
    s := SendsAgain(kind, s, 2);
  }
}
