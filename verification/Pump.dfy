/**
  The outbound pipeline of the four connections, run by any number of agents.

  Callers run `write`: enqueue, then `doWrite`, then `startWrite`.  Send completions run the
  completion handler and then `startWrite` again.  Every access to shared state is one step.
  Agent 0 is the strand: handlers run there, one at a time; callers may run there too (from
  a receive callback), and every other agent is a caller thread.

  The serial port posts every `startWrite` to the strand; the other kinds run it where
  they are.
 */
module Pump {
  import opened Streams
  import opened PumpCore

  datatype Kind = Tcp | Udp | Server | Serial

  const STRAND: nat := 0

  /** An agent's next instruction; inside the lock and inside the handler it is the
      core's section and handler that say which. */
  datatype PC =
    | Idle
    | Pushing(msg: Message)
    | TestingRun               // doWrite: should_run_ (tcp, udp, serial)
    | TestingOuterFlag         // doWrite: write_in_progress_ (server)
    | Posting                  // serial: post startWrite to the strand
    | TestingFlag              // startWrite: write_in_progress_, without the lock
    | Locking
    | Inside                   // holds write_lock_
    | Handling

  datatype State = State(
    kind: Kind,
    core: Core,
    owner: Option<nat>,        // who holds write_lock_
    run: bool,                 // should_run_
    posted: nat,               // startWrite calls waiting in the strand
    pcs: map<nat, PC>,
    unkicked: bool             // history: the last doWrite to test should_run_ found it false
  )

  datatype Step =
    | Begin(a: nat, msg: Message)       // a caller enters write
    | Go(a: nat)                        // an agent executes its next instruction
    | RunPosted                         // the strand takes up a posted startWrite
    | SendDone(i: nat, w: nat)          // the strand starts the handler of a successful send
    | SendFailed(i: nat)                // a send ends in an error
    | SetRun(on: bool)                  // disconnect, or opening and closing a serial port

  function PcOf(s: State, a: nat): PC {
    if a in s.pcs then s.pcs[a] else Idle
  }

  function Init(kind: Kind): State {
    State(kind, EMPTY, None, !kind.Serial?, 0, map[], false)
  }

  predicate Enabled(s: State, st: Step) {
    match st
    case Begin(a, _) => PcOf(s, a).Idle?
    case Go(a) => (
      match PcOf(s, a)
      case Idle => false
      case Pushing(m) => Can(s.core, Push(m))
      case Locking => s.owner == None && Can(s.core, Enter)
      case Inside => Can(s.core, Hold)
      case Handling => Can(s.core, Handle)
      case _ => true
    )
    case RunPosted => s.posted > 0 && PcOf(s, STRAND).Idle?
    case SendDone(i, w) => PcOf(s, STRAND).Idle? && Can(s.core, Complete(i, w))
    case SendFailed(i) => Can(s.core, Fail(i))
    case SetRun(on) => if on then s.kind.Serial? else !s.kind.Server?
  }

  function Set(s: State, a: nat, pc: PC): State {
    s.(pcs := s.pcs[a := pc])
  }

  function Next(s: State, st: Step): State
    requires Enabled(s, st)
  {
    match st
    case Begin(a, m) => Set(s, a, Pushing(m))
    case Go(a) => Instruction(s, a)
    case RunPosted => Set(s, STRAND, TestingFlag).(posted := s.posted - 1)
    case SendDone(i, w) => Set(s, STRAND, Handling).(core := After(s.core, Complete(i, w)))
    case SendFailed(i) => s.(core := After(s.core, Fail(i)))
    case SetRun(on) => s.(run := on)
  }

  function Instruction(s: State, a: nat): State
    requires Enabled(s, Go(a))
  {
    match PcOf(s, a)
    case Pushing(m) =>
      Set(s, a, if s.kind.Server? then TestingOuterFlag else TestingRun).(core := After(s.core, Push(m)))
    case TestingRun =>
      if !s.run then Set(s, a, Idle).(unkicked := true)
      else Set(s, a, if s.kind.Serial? then Posting else TestingFlag).(unkicked := false)
    case TestingOuterFlag => Set(s, a, if s.core.inProgress then Idle else TestingFlag)
    case Posting => Set(s, a, Idle).(posted := s.posted + 1)
    case TestingFlag => Set(s, a, if s.core.inProgress then Idle else Locking)
    case Locking => Set(s, a, Inside).(owner := Some(a), core := After(s.core, Enter))
    case Inside =>
      var c := After(s.core, Hold);
      if c.section.Unlocked? then Set(s, a, Idle).(owner := None, core := c) else s.(core := c)
    case Handling =>
      var c := After(s.core, Handle);
      if c.handler.NotRunning?
      then Set(s, a, if s.kind.Serial? then Posting else TestingFlag).(core := c)
      else s.(core := c)
  }

  // ---------------------------------------------------------------------------
  // Runs.

  ghost predicate Legal(s: State, steps: seq<Step>)
    decreases |steps|
  {
    steps == [] || (Enabled(s, steps[0]) && Legal(Next(s, steps[0]), steps[1..]))
  }

  ghost function Exec(s: State, steps: seq<Step>): State
    requires Legal(s, steps)
    decreases |steps|
  {
    if steps == [] then s else Exec(Next(s, steps[0]), steps[1..])
  }

  /** Every message written during the run is allowed. */
  ghost predicate Writes(steps: seq<Step>, allowed: Message -> bool) {
    forall i :: 0 <= i < |steps| && steps[i].Begin? ==> allowed(steps[i].msg)
  }

  predicate NonEmpty(m: Message) {
    m != []
  }

  lemma WritesWeaken(steps: seq<Step>, from: Message -> bool, to: Message -> bool)
    requires Writes(steps, from) && forall m :: from(m) ==> to(m)
    ensures Writes(steps, to)
  {
    forall i | 0 <= i < |steps| && steps[i].Begin?
      ensures to(steps[i].msg)
    {
      assert from(steps[i].msg);
    }
  }

  /** Every state that can be reached while only allowed messages are written is good. */
  ghost predicate Always(kind: Kind, allowed: Message -> bool, good: State -> bool) {
    forall steps: seq<Step> :: Legal(Init(kind), steps) && Writes(steps, allowed) ==> good(Exec(Init(kind), steps))
  }

  lemma NotAlways(kind: Kind, allowed: Message -> bool, good: State -> bool, steps: seq<Step>)
    requires Legal(Init(kind), steps) && Writes(steps, allowed) && !good(Exec(Init(kind), steps))
    ensures !Always(kind, allowed, good)
  {
  }

  /** No send of the run fails. */
  ghost predicate NoFailures(steps: seq<Step>) {
    forall i :: 0 <= i < |steps| ==> !steps[i].SendFailed?
  }

  lemma {:induction false} LegalConcat(s: State, a: seq<Step>, b: seq<Step>)
    requires Legal(s, a) && Legal(Exec(s, a), b)
    ensures Legal(s, a + b) && Exec(s, a + b) == Exec(Exec(s, a), b)
    decreases |a|
  {
    if a == [] {
      assert a + b == b;
    } else {
      assert (a + b)[0] == a[0] && (a + b)[1..] == a[1..] + b;
      LegalConcat(Next(s, a[0]), a[1..], b);
    }
  }

  /** Every successful send of the run reports the full size. */
  ghost predicate FullSends(s: State, steps: seq<Step>)
    requires Legal(s, steps)
    decreases |steps|
  {
    steps == [] ||
    ((steps[0].SendDone? ==> steps[0].w == |s.core.inFlight[steps[0].i]|) && FullSends(Next(s, steps[0]), steps[1..]))
  }

  lemma {:induction false} FullConcat(s: State, a: seq<Step>, b: seq<Step>)
    requires Legal(s, a) && FullSends(s, a) && Legal(Exec(s, a), b) && FullSends(Exec(s, a), b)
    ensures Legal(s, a + b) && FullSends(s, a + b)
    decreases |a|
  {
    LegalConcat(s, a, b);
    if a == [] {
      assert a + b == b;
    } else {
      assert (a + b)[0] == a[0] && (a + b)[1..] == a[1..] + b;
      FullConcat(Next(s, a[0]), a[1..], b);
    }
  }

  lemma {:induction false} NoCompletionIsFull(s: State, steps: seq<Step>)
    requires Legal(s, steps) && forall i :: 0 <= i < |steps| ==> !steps[i].SendDone?
    ensures FullSends(s, steps)
    decreases |steps|
  {
    if steps != [] {
      assert !steps[0].SendDone?;
      NoCompletionIsFull(Next(s, steps[0]), steps[1..]);
    }
  }

  // ---------------------------------------------------------------------------
  // Where the agents are.

  /** The agent whose program counter a step may change. */
  function Mover(st: Step): nat {
    match st
    case Begin(a, _) => a
    case Go(a) => a
    case _ => STRAND
  }

  lemma OthersStay(s: State, st: Step)
    requires Enabled(s, st)
    ensures forall b: nat :: b != Mover(st) ==> PcOf(Next(s, st), b) == PcOf(s, b)
    ensures PcOf(Next(s, st), Mover(st)).Pushing? ==>
              PcOf(Next(s, st), Mover(st)) == PcOf(s, Mover(st))
              || (st.Begin? && PcOf(Next(s, st), Mover(st)).msg == st.msg)
  {
  }

  ghost predicate AgentsOk(s: State) {
    && (forall a: nat :: PcOf(s, a).Inside? <==> s.owner == Some(a))
    && (s.owner == None <==> s.core.section.Unlocked?)
    && (forall a: nat :: PcOf(s, a).Handling? ==> a == STRAND)
    && (PcOf(s, STRAND).Handling? <==> !s.core.handler.NotRunning?)
  }

  lemma SectionHasOwner(s: State)
    requires AgentsOk(s)
    ensures !s.core.section.Unlocked? || s.owner.Some? ==> exists a: nat :: PcOf(s, a).Inside?
  {
    if s.owner.Some? {
      assert PcOf(s, s.owner.value).Inside?;
    }
  }

  ghost predicate PushesOk(s: State) {
    forall a: nat :: PcOf(s, a).Pushing? ==> PcOf(s, a).msg != []
  }

  lemma KeepsAgents(s: State, st: Step)
    requires AgentsOk(s) && Enabled(s, st)
    ensures AgentsOk(Next(s, st))
  {
    if st.Go? {
      InstructionKeepsAgents(s, st.a);
    }
  }

  lemma InstructionKeepsAgents(s: State, a: nat)
    requires AgentsOk(s) && Enabled(s, Go(a))
    ensures AgentsOk(Instruction(s, a))
  {
    OthersStay(s, Go(a));
    OwnerMoves(s, a);
    HandlerStays(s, a);
    var s' := Instruction(s, a);
    forall b: nat
      ensures PcOf(s', b).Inside? <==> s'.owner == Some(b)
    {
      assert PcOf(s, b).Inside? <==> s.owner == Some(b);
    }
  }

  /** What one instruction does to the lock. */
  lemma OwnerMoves(s: State, a: nat)
    requires AgentsOk(s) && Enabled(s, Go(a))
    ensures var s' := Instruction(s, a);
            && (PcOf(s', a).Inside? <==> s'.owner == Some(a))
            && (s'.owner == s.owner || s.owner == Some(a) || (s.owner == None && s'.owner == Some(a)))
            && (s'.owner == s.owner || s'.owner == None || s'.owner == Some(a))
            && (s'.owner == None <==> s'.core.section.Unlocked?)
  {
    assert PcOf(s, a).Inside? <==> s.owner == Some(a);
  }

  lemma HandlerStays(s: State, a: nat)
    requires AgentsOk(s) && Enabled(s, Go(a))
    ensures var s' := Instruction(s, a);
            && (PcOf(s', a).Handling? ==> a == STRAND)
            && (PcOf(s', STRAND).Handling? <==> !s'.core.handler.NotRunning?)
  {
    OthersStay(s, Go(a));
    assert PcOf(s, a).Handling? ==> a == STRAND;
  }

  lemma KeepsPushes(s: State, st: Step)
    requires PushesOk(s) && Enabled(s, st) && (st.Begin? ==> st.msg != [])
    ensures PushesOk(Next(s, st))
  {
    OthersStay(s, st);
  }

  /** The core event that a step amounts to, if it touches the core at all. */
  function EventOf(s: State, st: Step): (e: Event)
    requires Enabled(s, st) && Next(s, st).core != s.core
    ensures Can(s.core, e) && Next(s, st).core == After(s.core, e)
    ensures (e.Fail? <==> st.SendFailed?) && (e.Complete? <==> st.SendDone?)
    ensures e.Hold? ==> st.Go? && PcOf(s, st.a).Inside?
  {
    match st
    case SendDone(i, w) => Complete(i, w)
    case SendFailed(i) => Fail(i)
    case Go(a) =>
      match PcOf(s, a) {
        case Pushing(m) => Push(m)
        case Locking => Enter
        case Inside => Hold
        case Handling => Handle
      }
  }

  lemma KeepsCore(s: State, st: Step)
    requires PushesOk(s) && CoreInv(s.core) && Enabled(s, st)
    ensures CoreInv(Next(s, st).core)
  {
    if Next(s, st).core != s.core {
      EventKeepsInv(s.core, EventOf(s, st));
    }
  }

  // ---------------------------------------------------------------------------
  // Who will look at the queue.

  /** On the way to the test of the queue. */
  predicate Coming(pc: PC) {
    pc.TestingRun? || pc.TestingOuterFlag? || pc.Posting? || pc.TestingFlag? || pc.Locking?
  }

  /** The lock holder has yet to test `current` or to send it, a send has yet to complete, or a
      handler, which always ends with startWrite, is running. */
  predicate CoreWillLook(c: Core) {
    c.section.TestingCurrent? || Choosing(c) || Busy(c) || c.handler.ResettingFlag?
  }

  ghost predicate SomeoneWillLook(s: State) {
    s.posted > 0 || CoreWillLook(s.core) || exists a: nat :: Coming(PcOf(s, a))
  }

  ghost predicate Awake(s: State) {
    s.core.queue != [] && s.core.current == [] && !s.unkicked ==> SomeoneWillLook(s)
  }

  /** It takes the failed send of an empty message to send everybody to sleep: the flag stays
      on with nobody left to reset it. */
  lemma KeepsAwake(s: State, st: Step)
    requires AgentsOk(s) && FlagWatched(s.core) && Awake(s) && Enabled(s, st)
    requires st.SendFailed? ==> s.core.current != []
    ensures Awake(Next(s, st))
  {
    match st
    case RunPosted => assert Coming(PcOf(Next(s, st), STRAND));
    case Go(a) => InstructionKeepsAwake(s, a);
    case SendDone(i, w) => assert Pending(Next(s, st).core);
    case SendFailed(i) => assert Next(s, st).core.current != [];
    case Begin(a, m) => StillComing(s, st);
    case SetRun(on) => StillComing(s, st);
  }

  /** A step of an agent that was not coming leaves everyone who was. */
  lemma StillComing(s: State, st: Step)
    requires Enabled(s, st) && (!Coming(PcOf(s, Mover(st))) || st.SetRun?)
    ensures (exists b: nat :: Coming(PcOf(s, b))) ==> exists b: nat :: Coming(PcOf(Next(s, st), b))
  {
    OthersStay(s, st);
    if b: nat :| Coming(PcOf(s, b)) {
      assert Coming(PcOf(Next(s, st), b));
    }
  }

  lemma InstructionKeepsAwake(s: State, a: nat)
    requires AgentsOk(s) && FlagWatched(s.core) && Awake(s) && Enabled(s, Go(a))
    ensures Awake(Instruction(s, a))
  {
    var s' := Instruction(s, a);
    match PcOf(s, a)
    case Inside => StillComing(s, Go(a)); HoldKeepsAwake(s, a);
    case Handling => StillComing(s, Go(a)); HandleKeepsAwake(s);
    case Locking => assert CoreWillLook(s'.core);
    case TestingFlag => if !s.core.inProgress { assert Coming(PcOf(s', a)); }
    case TestingOuterFlag => if !s.core.inProgress { assert Coming(PcOf(s', a)); }
    case TestingRun => if s.run { assert Coming(PcOf(s', a)); } else { assert s'.unkicked; }
    case Pushing(m) => assert Coming(PcOf(s', a));
    case Posting => assert s'.posted > 0;
  }

  lemma HoldKeepsAwake(s: State, a: nat)
    requires Awake(s) && Enabled(s, Go(a)) && PcOf(s, a).Inside?
    requires (exists b: nat :: Coming(PcOf(s, b))) ==> exists b: nat :: Coming(PcOf(Instruction(s, a), b))
    ensures Awake(Instruction(s, a))
  {
    var s' := Instruction(s, a);
    assert s'.core == After(s.core, Hold) && s'.posted == s.posted && s'.unkicked == s.unkicked;
  }

  lemma HandleKeepsAwake(s: State)
    requires Awake(s) && Enabled(s, Go(STRAND)) && PcOf(s, STRAND).Handling?
    requires (exists b: nat :: Coming(PcOf(s, b))) ==> exists b: nat :: Coming(PcOf(Instruction(s, STRAND), b))
    ensures Awake(Instruction(s, STRAND))
  {
    var s' := Instruction(s, STRAND);
    if s.core.handler.ResettingFlag? {
      assert Coming(PcOf(s', STRAND));
    }
  }

  /** Without failed sends nothing need be asked of the messages. */
  ghost predicate Attended(s: State) {
    AgentsOk(s) && FlagWatched(s.core) && Awake(s)
  }

  lemma StepKeepsAttended(s: State, st: Step)
    requires Attended(s) && Enabled(s, st) && !st.SendFailed?
    ensures Attended(Next(s, st))
  {
    KeepsAgents(s, st);
    KeepsAwake(s, st);
    if Next(s, st).core != s.core {
      KeepsFlag(s.core, EventOf(s, st));
    }
  }

  lemma {:induction false} RunKeepsAttended(s: State, steps: seq<Step>)
    requires Attended(s) && Legal(s, steps) && NoFailures(steps)
    ensures Attended(Exec(s, steps))
    decreases |steps|
  {
    if steps != [] {
      assert !steps[0].SendFailed?;
      StepKeepsAttended(s, steps[0]);
      RunKeepsAttended(Next(s, steps[0]), steps[1..]);
    }
  }

  // ---------------------------------------------------------------------------

  ghost predicate Inv(s: State) {
    AgentsOk(s) && PushesOk(s) && CoreInv(s.core) && Awake(s)
  }

  lemma InitInv(kind: Kind)
    ensures Inv(Init(kind))
  {
  }

  lemma StepKeepsInv(s: State, st: Step)
    requires Inv(s) && Enabled(s, st)
    requires st.Begin? ==> st.msg != []
    ensures Inv(Next(s, st))
  {
    KeepsAgents(s, st);
    KeepsPushes(s, st);
    if st.SendFailed? {
      assert Busy(s.core);
    }
    KeepsCore(s, st);
    KeepsAwake(s, st);
  }

  lemma {:induction false} RunKeepsInv(s: State, steps: seq<Step>)
    requires Inv(s) && Legal(s, steps) && Writes(steps, NonEmpty)
    ensures Inv(Exec(s, steps))
    decreases |steps|
  {
    if steps != [] {
      StepKeepsInv(s, steps[0]);
      RunKeepsInv(Next(s, steps[0]), steps[1..]);
    }
  }

  lemma ReachableInv(kind: Kind, steps: seq<Step>)
    requires Legal(Init(kind), steps) && Writes(steps, NonEmpty)
    ensures Inv(Exec(Init(kind), steps))
  {
    InitInv(kind);
    RunKeepsInv(Init(kind), steps);
  }
}
