/**
  The connection object as the code writes it: one `tx_queue_`, one `tx_current_`, the two
  flags, and the methods write, doWrite, startWrite and the completion handler, each run to
  its end.  That is how the strand runs them on a serial port; on the other kinds it is the
  case without interference.

  Each call is shown to be a run of the step machine of module Pump, and any sequence of
  calls to be one run, so what is proved of that machine's runs holds of the object.
 */
module Connections {
  import opened Streams
  import opened RingBuffers
  import opened PumpCore
  import opened Pump
  import opened PumpRuns
  import opened PumpTheorems

  // ---------------------------------------------------------------------------
  // What each call does to the state, when nothing interferes.

  predicate AtRest(s: State) {
    s.pcs == map[] && s.owner == None && s.core.section.Unlocked? && s.core.handler.NotRunning?
  }

  /** The message at the head of the queue becomes `current` and is sent. */
  function Launched(c: Core): Core
    requires c.queue != []
  {
    c.(current := c.queue[0], queue := c.queue[1..], inProgress := true,
       inFlight := c.inFlight + [c.queue[0]], taken := c.taken + [c.queue[0]])
  }

  function Started(s: State): State {
    if s.core.inProgress || s.core.current != [] || s.core.queue == [] then s else s.(core := Launched(s.core))
  }

  function Pushed(s: State, m: Message): State {
    s.(core := s.core.(queue := s.core.queue + [m], accepted := s.core.accepted + [m]))
  }

  function Kicked(s: State): State {
    if s.kind.Server? then Started(s)
    else if !s.run then s.(unkicked := true)
    else if s.kind.Serial? then s.(posted := s.posted + 1, unkicked := false)
    else Started(s.(unkicked := false))
  }

  /** What the handler makes of `current`: cut, refilled from the queue, or cleared.  It is
      left about to reset the flag. */
  function Resolved(c: Core, w: nat): Core {
    var d := c.(handler := ResettingFlag, outcomes := c.outcomes + [Sent(|c.current|, w, c.queue != [])]);
    if w < |c.current| then d.(current := c.current[w..])
    else if c.queue != [] then d.(current := c.queue[0], queue := c.queue[1..], taken := c.taken + [c.queue[0]])
    else d.(current := [])
  }

  /** The completion handler, up to its startWrite. */
  function Handled(c: Core, i: nat, w: nat): Core
    requires i < |c.inFlight| && w <= |c.inFlight[i]|
  {
    Resolved(c, w).(
      handler := NotRunning, inProgress := false,
      inFlight := RemoveAt(c.inFlight, i), written := c.written + [c.inFlight[i][..w]])
  }

  function SentDone(s: State, i: nat, w: nat): State
    requires i < |s.core.inFlight| && w <= |s.core.inFlight[i]|
  {
    var d := s.(core := Handled(s.core, i, w));
    if s.kind.Serial? then d.(posted := d.posted + 1) else Started(d)
  }

  // ---------------------------------------------------------------------------
  // Each of them is a run of the step machine.

  /** Agent `a` runs startWrite to its end. */
  lemma StartedIsARun(s: State, a: nat) returns (n: nat)
    requires PcOf(s, a) == TestingFlag && s.owner == None && s.core.section.Unlocked?
    ensures Legal(s, Gos(a, n))
    ensures Exec(s, Gos(a, n)) == Started(s).(pcs := s.pcs[a := Idle])
  {
    var s1 := Next(s, Go(a));
    if s.core.inProgress {
      GoThen(s, s1, a, 0);
      return 1;
    }
    SameKeyTwice(s, a, Locking, Idle);
    var k := 8;
    if s.core.current == [] && s.core.queue != [] {
      LockToSend(s1, a, s.core.queue[0]);
      assert Gos(a, 8) == Gos(a, 4) + Gos(a, 4);
    } else {
      k := LooksInVain(s1, a);
    }
    GoThen(s, s1, a, k);
    n := k + 1;
  }

  /** The run has ended with every agent idle, in the given state. */
  ghost predicate EndsIn(s: State, steps: seq<Step>, end: State) {
    && Legal(s, steps)
    && Exec(s, steps).(pcs := map[]) == end
    && forall a: nat :: PcOf(Exec(s, steps), a).Idle?
  }

  lemma Prepend(s: State, st: Step, rest: seq<Step>, end: State)
    requires Enabled(s, st) && EndsIn(Next(s, st), rest, end)
    ensures EndsIn(s, [st] + rest, end)
  {
    assert ([st] + rest)[1..] == rest;
  }

  lemma StartedEnds(s: State, a: nat) returns (n: nat)
    requires s.pcs.Keys == {a} && PcOf(s, a) == TestingFlag && s.owner == None && s.core.section.Unlocked?
    ensures EndsIn(s, Gos(a, n), Started(s.(pcs := map[])))
  {
    n := StartedIsARun(s, a);
  }

  /** A whole write: the enqueue, then doWrite. */
  lemma WriteIsARun(s: State, a: nat, m: Message) returns (n: nat)
    requires AtRest(s) && |s.core.queue| < QUEUE_CAPACITY
    ensures EndsIn(s, [Begin(a, m)] + Gos(a, n), Kicked(Pushed(s, m)))
  {
    var s1 := Next(s, Begin(a, m));
    var s2 := Next(s1, Go(a));
    n := KickIsARun(s2, a);
    assert s2.(pcs := map[]) == Pushed(s, m);
    Prepend(s1, Go(a), Gos(a, n), Kicked(Pushed(s, m)));
    n := n + 1;
    assert Gos(a, n) == [Go(a)] + Gos(a, n - 1);
    Prepend(s, Begin(a, m), Gos(a, n), Kicked(Pushed(s, m)));
  }

  lemma KickIsARun(s: State, a: nat) returns (n: nat)
    requires s.pcs.Keys == {a} && PcOf(s, a) == (if s.kind.Server? then TestingOuterFlag else TestingRun)
    requires s.owner == None && s.core.section.Unlocked?
    ensures EndsIn(s, Gos(a, n), Kicked(s.(pcs := map[])))
  {
    var s1 := Next(s, Go(a));
    if PcOf(s1, a).Idle? {
      n := 1;
      GoThen(s, s1, a, 0);
    } else if s.kind.Serial? {
      n := 2;
      TwoGos(s, s1, Next(s1, Go(a)), a);
    } else {
      n := StartedEnds(s1, a);
      n := n + 1;
      assert Gos(a, n) == [Go(a)] + Gos(a, n - 1);
      assert Kicked(s.(pcs := map[])) == Started(s1.(pcs := map[]));
      Prepend(s, Go(a), Gos(a, n - 1), Kicked(s.(pcs := map[])));
    }
  }

  /** The strand takes up a posted startWrite. */
  lemma PostedIsARun(s: State) returns (n: nat)
    requires AtRest(s) && s.posted > 0
    ensures EndsIn(s, [RunPosted] + Gos(STRAND, n), Started(s.(posted := s.posted - 1)))
  {
    var s1 := Next(s, RunPosted);
    n := StartedEnds(s1, STRAND);
    assert s1.(pcs := map[]) == s.(posted := s.posted - 1);
    Prepend(s, RunPosted, Gos(STRAND, n), Started(s.(posted := s.posted - 1)));
  }

  /** The handler, from its first instruction up to the reset of the flag. */
  lemma HandlerReachesReset(s: State, w: nat) returns (n: nat)
    requires PcOf(s, STRAND).Handling? && s.core.handler == Completed(w)
    ensures Legal(s, Gos(STRAND, n))
    ensures Exec(s, Gos(STRAND, n)) == s.(core := Resolved(s.core, w))
  {
    if w < |s.core.current| {
      n := 2;
      HandlerCuts(s, w);
    } else {
      var s1 := s.(core := s.core.(handler := Retesting(w)));
      InsideHandler(s, s1.core);
      var noted := s.core.outcomes + [Sent(|s.core.current|, w, s.core.queue != [])];
      if s.core.queue == [] {
        n := 3;
        HandlerClears(s1, w, noted);
      } else {
        n := 4;
        HandlerRefills(s1, w, noted);
      }
      GoThen(s, s1, STRAND, n - 1);
    }
  }

  lemma HandlerCuts(s: State, w: nat)
    requires PcOf(s, STRAND).Handling? && s.core.handler == Completed(w) && w < |s.core.current|
    ensures Legal(s, Gos(STRAND, 2)) && Exec(s, Gos(STRAND, 2)) == s.(core := Resolved(s.core, w))
  {
    var noted := s.core.outcomes + [Sent(|s.core.current|, w, s.core.queue != [])];
    var s1 := s.(core := s.core.(handler := Erasing(w), outcomes := noted));
    InsideHandler(s, s1.core);
    InsideHandler(s1, Resolved(s.core, w));
    TwoGos(s, s1, s.(core := Resolved(s.core, w)), STRAND);
  }

  lemma HandlerClears(s: State, w: nat, noted: seq<Outcome>)
    requires PcOf(s, STRAND).Handling? && s.core.handler == Retesting(w) && s.core.queue == []
    requires w >= |s.core.current| && noted == s.core.outcomes + [Sent(|s.core.current|, w, false)]
    ensures Legal(s, Gos(STRAND, 2)) && Exec(s, Gos(STRAND, 2)) == s.(core := Resolved(s.core, w))
  {
    var s1 := s.(core := s.core.(handler := Clearing, outcomes := noted));
    InsideHandler(s, s1.core);
    InsideHandler(s1, Resolved(s.core, w));
    TwoGos(s, s1, s.(core := Resolved(s.core, w)), STRAND);
  }

  lemma HandlerRefills(s: State, w: nat, noted: seq<Outcome>)
    requires PcOf(s, STRAND).Handling? && s.core.handler == Retesting(w) && s.core.queue != []
    requires w >= |s.core.current| && noted == s.core.outcomes + [Sent(|s.core.current|, w, true)]
    ensures Legal(s, Gos(STRAND, 3)) && Exec(s, Gos(STRAND, 3)) == s.(core := Resolved(s.core, w))
  {
    var s1 := s.(core := s.core.(handler := Repopping, outcomes := noted));
    var s2 := s.(core := s1.core.(handler := Reassigning(s.core.queue[0]), queue := s.core.queue[1..]));
    InsideHandler(s, s1.core);
    InsideHandler(s1, s2.core);
    InsideHandler(s2, Resolved(s.core, w));
    ThreeGos(s, s1, s2, s.(core := Resolved(s.core, w)), STRAND);
  }

  lemma ResetIsARun(s: State) returns (n: nat)
    requires s.pcs.Keys == {STRAND} && PcOf(s, STRAND).Handling? && s.core.handler.ResettingFlag?
    requires s.owner == None && s.core.section.Unlocked?
    ensures var d := s.(pcs := map[], core := s.core.(handler := NotRunning, inProgress := false));
            EndsIn(s, Gos(STRAND, n), if s.kind.Serial? then d.(posted := d.posted + 1) else Started(d))
  {
    var s1 := Next(s, Go(STRAND));
    if s.kind.Serial? {
      n := 2;
      TwoGos(s, s1, Next(s1, Go(STRAND)), STRAND);
    } else {
      n := StartedEnds(s1, STRAND);
      assert Gos(STRAND, n + 1) == [Go(STRAND)] + Gos(STRAND, n);
      Prepend(s, Go(STRAND), Gos(STRAND, n), Started(s1.(pcs := map[])));
      n := n + 1;
    }
  }

  /** The handler of a successful send, to the end of its startWrite. */
  lemma SentDoneIsARun(s: State, i: nat, w: nat) returns (steps: seq<Step>)
    requires AtRest(s) && Can(s.core, Complete(i, w))
    ensures EndsIn(s, steps, SentDone(s, i, w)) && forall k :: 0 <= k < |steps| ==> !steps[k].Begin?
  {
    var s1 := Next(s, SendDone(i, w));
    var k := HandlerReachesReset(s1, w);
    var s2 := s1.(core := Resolved(s1.core, w));
    var n := ResetIsARun(s2);
    LegalConcat(s1, Gos(STRAND, k), Gos(STRAND, n));
    assert s2.core.(handler := NotRunning, inProgress := false) == Handled(s.core, i, w);
    assert s2.(pcs := map[], core := Handled(s.core, i, w)) == s.(core := Handled(s.core, i, w));
    steps := [SendDone(i, w)] + (Gos(STRAND, k) + Gos(STRAND, n));
    Prepend(s, SendDone(i, w), Gos(STRAND, k) + Gos(STRAND, n), SentDone(s, i, w));
  }

  // ---------------------------------------------------------------------------
  // So every call keeps the invariants of the step machine.

  lemma EndKeepsInv(s: State, steps: seq<Step>, end: State)
    requires Inv(s) && EndsIn(s, steps, end) && Writes(steps, NonEmpty)
    ensures Inv(end)
  {
    RunKeepsInv(s, steps);
    var t := Exec(s, steps);
    assert forall a: nat :: PcOf(end, a).Idle? && PcOf(t, a).Idle?;
    SectionHasOwner(t);
  }

  // ---------------------------------------------------------------------------
  // Sequences of calls.

  datatype Call =
    | Write(msg: Message)
    | StartPosted
    | SendOk(i: nat, w: nat)
    | SendError(i: nat)
    | Switch(on: bool)

  predicate CanCall(s: State, c: Call) {
    match c
    case Write(_) => |s.core.queue| < QUEUE_CAPACITY
    case StartPosted => s.posted > 0
    case SendOk(i, w) => Can(s.core, Complete(i, w))
    case SendError(i) => Can(s.core, Fail(i))
    case Switch(on) => Enabled(s, SetRun(on))
  }

  function AfterCall(s: State, c: Call): State
    requires CanCall(s, c)
  {
    match c
    case Write(m) => Kicked(Pushed(s, m))
    case StartPosted => Started(s.(posted := s.posted - 1))
    case SendOk(i, w) => SentDone(s, i, w)
    case SendError(i) => s.(core := After(s.core, Fail(i)))
    case Switch(on) => s.(run := on)
  }

  /** Whatever has happened before: what is written after the switch is turned off is queued,
      and neither sent nor posted. */
  lemma SwitchedOffSendsNothing(s: State, m: Message)
    requires !s.kind.Server? && |s.core.queue| < 100
    ensures var t := AfterCall(AfterCall(s, Switch(false)), Call.Write(m));
            && t.core.queue == s.core.queue + [m] && t.core.accepted == s.core.accepted + [m]
            && t.core.inFlight == s.core.inFlight && t.core.taken == s.core.taken && t.posted == s.posted
            && t.core.current == s.core.current
  {
  }

  ghost predicate CallsLegal(s: State, calls: seq<Call>)
    decreases |calls|
  {
    calls == [] || (CanCall(s, calls[0]) && CallsLegal(AfterCall(s, calls[0]), calls[1..]))
  }

  ghost function AfterCalls(s: State, calls: seq<Call>): State
    requires CallsLegal(s, calls)
    decreases |calls|
  {
    if calls == [] then s else AfterCalls(AfterCall(s, calls[0]), calls[1..])
  }

  ghost predicate CallsWrite(calls: seq<Call>, allowed: Message -> bool) {
    forall i :: 0 <= i < |calls| && calls[i].Write? ==> allowed(calls[i].msg)
  }

  lemma StaysAtRest(s: State, c: Call)
    requires AtRest(s) && CanCall(s, c)
    ensures AtRest(AfterCall(s, c))
  {
  }

  lemma StepIsARun(s: State, st: Step)
    requires AtRest(s) && Enabled(s, st) && (st.SendFailed? || st.SetRun?)
    ensures EndsIn(s, [st], Next(s, st))
  {
    StepThen(s, st, []);
    assert [st] + [] == [st];
    assert forall a: nat :: PcOf(Next(s, st), a).Idle?;
  }

  lemma CallIsARun(s: State, c: Call, allowed: Message -> bool) returns (steps: seq<Step>)
    requires AtRest(s) && CanCall(s, c) && (c.Write? ==> allowed(c.msg))
    ensures EndsIn(s, steps, AfterCall(s, c)) && Writes(steps, allowed)
  {
    match c
    case Write(m) =>
      var n := WriteIsARun(s, 1, m);
      steps := [Begin(1, m)] + Gos(1, n);
    case StartPosted =>
      var n := PostedIsARun(s);
      steps := [RunPosted] + Gos(STRAND, n);
    case SendOk(i, w) =>
      steps := SentDoneIsARun(s, i, w);
    case SendError(i) =>
      StepIsARun(s, SendFailed(i));
      steps := [SendFailed(i)];
    case Switch(on) =>
      StepIsARun(s, SetRun(on));
      steps := [SetRun(on)];
  }

  /** Two states that differ only in whether an idle agent is listed. */
  ghost predicate Same(s: State, t: State) {
    s.(pcs := map[]) == t.(pcs := map[]) && forall a: nat :: PcOf(s, a) == PcOf(t, a)
  }

  lemma NextSame(s: State, t: State, st: Step)
    requires Same(s, t) && Enabled(s, st)
    ensures Enabled(t, st) && Same(Next(s, st), Next(t, st))
  {
    OthersStay(s, st);
    assert t == s.(pcs := t.pcs);
    assert Enabled(t, st);
    OthersStay(t, st);
    if st.Go? {
      InstructionSame(s, t, st.a);
    }
    var s', t' := Next(s, st), Next(t, st);
    forall b: nat
      ensures PcOf(s', b) == PcOf(t', b)
    {
      assert PcOf(s, b) == PcOf(t, b);
    }
  }

  lemma InstructionSame(s: State, t: State, a: nat)
    requires t == s.(pcs := t.pcs) && PcOf(s, a) == PcOf(t, a) && Enabled(s, Go(a)) && Enabled(t, Go(a))
    ensures Instruction(s, a).(pcs := map[]) == Instruction(t, a).(pcs := map[])
    ensures PcOf(Instruction(s, a), a) == PcOf(Instruction(t, a), a)
  {
    assert s.kind == t.kind && s.core == t.core && s.owner == t.owner && s.run == t.run && s.posted == t.posted;
  }

  lemma {:induction false} RunSame(s: State, t: State, steps: seq<Step>)
    requires Same(s, t) && Legal(s, steps)
    ensures Legal(t, steps) && Same(Exec(s, steps), Exec(t, steps))
    decreases |steps|
  {
    if steps != [] {
      NextSame(s, t, steps[0]);
      RunSame(Next(s, steps[0]), Next(t, steps[0]), steps[1..]);
    }
  }

  /** Any sequence of calls is one run of the step machine. */
  lemma {:induction false} CallsAreARun(s: State, calls: seq<Call>, allowed: Message -> bool) returns (steps: seq<Step>)
    requires AtRest(s) && CallsLegal(s, calls) && CallsWrite(calls, allowed)
    ensures Legal(s, steps) && Writes(steps, allowed) && Same(Exec(s, steps), AfterCalls(s, calls))
    decreases |calls|
  {
    if calls == [] {
      return [];
    }
    var front := CallIsARun(s, calls[0], allowed);
    var t := AfterCall(s, calls[0]);
    StaysAtRest(s, calls[0]);
    var back := CallsAreARun(t, calls[1..], allowed);
    assert Same(t, Exec(s, front));
    RunSame(t, Exec(s, front), back);
    LegalConcat(s, front, back);
    steps := front + back;
    WritesConcat(front, back, allowed);
  }

  /** So the run theorems hold after any calls to the object.  For one: at most one send is in
      flight, the bytes add up, and the output is a prefix of the input. */
  lemma CallsConserve(kind: Kind, calls: seq<Call>)
    requires CallsLegal(Init(kind), calls) && (kind.Serial? || CallsWrite(calls, NonEmpty))
    ensures var s := AfterCalls(Init(kind), calls);
            Exclusive(s) && BytesAddUp(s) && OutputIsPrefix(s)
  {
    var allowed := if kind.Serial? then (m: Message) => true else NonEmpty;
    var steps := CallsAreARun(Init(kind), calls, allowed);
    assert Clear(kind, steps);
    Exclusion(kind, steps);
    ByteConservation(kind, steps);
    assert Exec(Init(kind), steps).core == AfterCalls(Init(kind), calls).core;
  }

  lemma {:induction false} CallsKeepInv(s: State, calls: seq<Call>)
    requires AtRest(s) && Inv(s) && CallsLegal(s, calls) && CallsWrite(calls, NonEmpty)
    ensures AtRest(AfterCalls(s, calls)) && Inv(AfterCalls(s, calls))
    decreases |calls|
  {
    if calls != [] {
      var steps := CallIsARun(s, calls[0], NonEmpty);
      EndKeepsInv(s, steps, AfterCall(s, calls[0]));
      StaysAtRest(s, calls[0]);
      CallsKeepInv(AfterCall(s, calls[0]), calls[1..]);
    }
  }

  // ---------------------------------------------------------------------------
  // The object.

  class Connection {
    const kind: Kind
    const txQueue: RingBuffer<Message>
    var txCurrent: Message
    var writeInProgress: bool
    var shouldRun: bool
    var posted: nat                 // startWrite calls handed to the strand
    var inFlight: seq<Message>      // sends handed to the operating system

    ghost var accepted: seq<Message>
    ghost var taken: seq<Message>
    ghost var written: seq<Message>
    ghost var outcomes: seq<Outcome>
    ghost var unkicked: bool

    ghost predicate Valid()
      reads this, txQueue, txQueue.slots
    {
      txQueue.Valid() && txQueue.slots.Length == QUEUE_CAPACITY
    }

    ghost function Model(): (s: State)
      requires Valid()
      reads this, txQueue, txQueue.slots
      ensures AtRest(s)
    {
      State(kind,
            Core(Unlocked, NotRunning, txQueue.Contents(), txCurrent, writeInProgress, inFlight,
                 accepted, taken, written, outcomes),
            None, shouldRun, posted, map[], unkicked)
    }

    constructor (kind: Kind)
      ensures Valid() && fresh(txQueue) && fresh(txQueue.slots)
      ensures this.kind == kind && shouldRun == !kind.Serial? && Model() == Init(kind) && Inv(Model())
    {
      this.kind := kind;
      var q := new RingBuffer(QUEUE_CAPACITY);
      txQueue := q;
      txCurrent, writeInProgress, shouldRun, posted, inFlight := [], false, !kind.Serial?, 0, [];
      accepted, taken, written, outcomes, unkicked := [], [], [], [], false;
      new;
      InitInv(kind);
    }

    /** Waits while the queue is full, so `blocked` says that nothing happened yet. */
    method Write(data: Message) returns (blocked: bool)
      requires Valid()
      modifies this, txQueue, txQueue.slots
      ensures Valid()
      ensures blocked == (|old(Model()).core.queue| == 100)
      ensures accepted == if blocked then old(accepted) else old(accepted) + [data]
      ensures Model() == if blocked then old(Model()) else AfterCall(old(Model()), Call.Write(data))
    {
      blocked := txQueue.PushFront(data);
      if !blocked {
        accepted := accepted + [data];
        DoWrite();
      }
    }

    method DoWrite()
      requires Valid()
      modifies this, txQueue, txQueue.slots
      ensures Valid() && Model() == Kicked(old(Model()))
    {
      if kind.Server? {
        if writeInProgress {
          return;
        }
      } else if !shouldRun {
        unkicked := true;
        return;
      } else {
        unkicked := false;
      }
      if kind.Serial? {
        posted := posted + 1;
      } else {
        StartWrite();
      }
    }

    method StartWrite()
      requires Valid()
      modifies this, txQueue, txQueue.slots
      ensures Valid() && Model() == Started(old(Model()))
    {
      if writeInProgress {
        return;
      }
      if txCurrent == [] && txQueue.IsNotEmpty() {
        Pop();
      } else {
        return;
      }
      writeInProgress := true;
      inFlight := inFlight + [txCurrent];
    }

    /** tx_current_ = tx_queue_.pop_back(), where the queue has been found not empty. */
    method Pop()
      requires Valid() && Model().core.queue != []
      modifies this`txCurrent, this`taken, txQueue
      ensures Valid()
      ensures var s := old(Model());
              Model() == s.(core := s.core.(current := s.core.queue[0], queue := s.core.queue[1..],
                                            taken := s.core.taken + [s.core.queue[0]]))
    {
      ghost var q := txQueue.Contents();
      var next := txQueue.PopBack();
      assert q[0] == next.value && q[1..] == txQueue.Contents();
      txCurrent := next.value;
      taken := taken + [txCurrent];
    }

    /** The strand takes up a posted startWrite. */
    method RunPosted()
      requires Valid() && posted > 0
      modifies this, txQueue, txQueue.slots
      ensures Valid() && Model() == AfterCall(old(Model()), StartPosted)
    {
      posted := posted - 1;
      StartWrite();
    }

    /** The handler of a send that succeeded; `length` bytes were taken of what it was given. */
    method OnSent(i: nat, length: nat)
      requires Valid() && i < |inFlight| && length <= |inFlight[i]|
      modifies this, txQueue, txQueue.slots
      ensures Valid() && Model() == AfterCall(old(Model()), SendOk(i, length))
    {
      ghost var s := Model();
      written := written + [inFlight[i][..length]];
      inFlight := RemoveAt(inFlight, i);
      ReplaceCurrent(length);
      writeInProgress := false;
      assert Model() == s.(core := Handled(s.core, i, length));
      if kind.Serial? {
        posted := posted + 1;
      } else {
        StartWrite();
      }
    }

    /** The three branches of the handler. */
    method ReplaceCurrent(length: nat)
      requires Valid()
      modifies this`txCurrent, this`taken, this`outcomes, txQueue
      ensures Valid()
      ensures Model() == old(Model()).(core := Resolved(old(Model()).core, length).(handler := NotRunning))
    {
      outcomes := outcomes + [Sent(|txCurrent|, length, txQueue.Contents() != [])];
      if |txCurrent| > length {
        txCurrent := txCurrent[length..];
      } else if txQueue.IsNotEmpty() {
        Pop();
      } else {
        txCurrent := [];
      }
    }

    /** disconnect; on a serial port also opening and closing it. */
    method SetRun(on: bool)
      requires Valid() && (if on then kind.Serial? else !kind.Server?)
      modifies this`shouldRun
      ensures Valid() && shouldRun == on
      ensures Model() == AfterCall(old(Model()), Switch(on))
    {
      shouldRun := on;
    }

    /** The handler of a send that failed does nothing. */
    method OnSendFailed(i: nat)
      requires Valid() && i < |inFlight|
      modifies this`inFlight, this`outcomes
      ensures Valid() && Model() == AfterCall(old(Model()), SendError(i))
    {
      inFlight := RemoveAt(inFlight, i);
      outcomes := outcomes + [Failed];
    }
  }
}
