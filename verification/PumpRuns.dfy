/** Stretches of runs out of which the concrete runs of the other modules are built. */
module PumpRuns {
  import opened Streams
  import opened PumpCore
  import opened Pump

  /** `n` consecutive instructions of agent `a`. */
  function Gos(a: nat, n: nat): seq<Step> {
    seq(n, _ => Go(a))
  }

  ghost predicate GoLeads(s: State, a: nat, t: State) {
    Enabled(s, Go(a)) && t == Next(s, Go(a))
  }

  /** Consecutive instructions of agent `a` lead through these states. */
  ghost predicate Path(states: seq<State>, a: nat) {
    states != [] && forall i :: 0 <= i < |states| - 1 ==> GoLeads(states[i], a, states[i + 1])
  }

  /** One more instruction in front. */
  lemma GoThen(s: State, s': State, a: nat, n: nat)
    requires GoLeads(s, a, s') && Legal(s', Gos(a, n))
    ensures Legal(s, Gos(a, n + 1)) && Exec(s, Gos(a, n + 1)) == Exec(s', Gos(a, n))
  {
    assert Gos(a, n + 1)[0] == Go(a) && Gos(a, n + 1)[1..] == Gos(a, n);
  }

  lemma OneGo(s: State, a: nat)
    requires Enabled(s, Go(a))
    ensures Legal(s, Gos(a, 1)) && Exec(s, Gos(a, 1)) == Next(s, Go(a))
  {
    GoThen(s, Next(s, Go(a)), a, 0);
  }

  lemma StepThen(s: State, st: Step, rest: seq<Step>)
    requires Enabled(s, st) && Legal(Next(s, st), rest)
    ensures Legal(s, [st] + rest) && Exec(s, [st] + rest) == Exec(Next(s, st), rest)
  {
    assert ([st] + rest)[1..] == rest;
  }

  lemma {:induction false} PathIsARun(states: seq<State>, a: nat)
    requires Path(states, a)
    ensures Legal(states[0], Gos(a, |states| - 1))
    ensures Exec(states[0], Gos(a, |states| - 1)) == states[|states| - 1]
  {
    if |states| > 1 {
      var rest := states[1..];
      assert Path(rest, a) by {
        forall i | 0 <= i < |rest| - 1
          ensures GoLeads(rest[i], a, rest[i + 1])
        {
          assert GoLeads(states[i + 1], a, states[i + 2]);
        }
      }
      PathIsARun(rest, a);
      assert GoLeads(states[0], a, states[1]);
      GoThen(states[0], rest[0], a, |states| - 2);
    }
  }

  lemma TwoGos(s: State, s1: State, s2: State, a: nat)
    requires GoLeads(s, a, s1) && GoLeads(s1, a, s2)
    ensures Legal(s, Gos(a, 2)) && Exec(s, Gos(a, 2)) == s2
  {
    PathIsARun([s, s1, s2], a);
  }

  lemma ThreeGos(s: State, s1: State, s2: State, s3: State, a: nat)
    requires GoLeads(s, a, s1) && GoLeads(s1, a, s2) && GoLeads(s2, a, s3)
    ensures Legal(s, Gos(a, 3)) && Exec(s, Gos(a, 3)) == s3
  {
    PathIsARun([s, s1, s2, s3], a);
  }

  lemma FourGos(s: State, s1: State, s2: State, s3: State, s4: State, a: nat)
    requires GoLeads(s, a, s1) && GoLeads(s1, a, s2) && GoLeads(s2, a, s3) && GoLeads(s3, a, s4)
    ensures Legal(s, Gos(a, 4)) && Exec(s, Gos(a, 4)) == s4
  {
    PathIsARun([s, s1, s2, s3, s4], a);
  }

  /** Agent `a` enqueues `m` and passes the flag. */
  function Arrive(a: nat, m: Message): seq<Step> {
    [Begin(a, m)] + Gos(a, 3)
  }

  lemma ArriveReachesLock(s: State, a: nat, m: Message)
    requires !s.kind.Serial? && s.run && !s.core.inProgress
    requires PcOf(s, a).Idle? && |s.core.queue| < QUEUE_CAPACITY
    ensures Legal(s, Arrive(a, m))
    ensures var t := Exec(s, Arrive(a, m));
            t == s.(core := s.core.(queue := s.core.queue + [m], accepted := s.core.accepted + [m]),
                    unkicked := s.unkicked && s.kind.Server?, pcs := s.pcs[a := Locking])
  {
    var s1 := s.(pcs := s.pcs[a := Pushing(m)]);
    var c := s.core.(queue := s.core.queue + [m], accepted := s.core.accepted + [m]);
    var s2 := s.(core := c, pcs := s.pcs[a := if s.kind.Server? then TestingOuterFlag else TestingRun]);
    var s3 := s.(core := c, unkicked := s.unkicked && s.kind.Server?, pcs := s.pcs[a := TestingFlag]);
    var s4 := s3.(pcs := s.pcs[a := Locking]);
    SameKeyTwice(s, a, Pushing(m), s2.pcs[a]);
    SameKeyTwice(s, a, s2.pcs[a], TestingFlag);
    SameKeyTwice(s, a, TestingFlag, Locking);
    ThreeGos(s1, s2, s3, s4, a);
    assert Arrive(a, m)[0] == Begin(a, m) && Arrive(a, m)[1..] == Gos(a, 3);
  }

  lemma SameKeyTwice(s: State, a: nat, first: PC, second: PC)
    ensures s.pcs[a := first][a := second] == s.pcs[a := second]
  {
  }

  /** An instruction inside the lock changes the core alone, up to the unlock. */
  lemma InsideLock(s: State, a: nat, c: Core)
    requires PcOf(s, a).Inside? && Can(s.core, Hold) && c == After(s.core, Hold) && !c.section.Unlocked?
    ensures GoLeads(s, a, s.(core := c))
  {
  }

  /** An instruction of the handler changes the core alone, up to its last. */
  lemma InsideHandler(s: State, c: Core)
    requires PcOf(s, STRAND).Handling? && Can(s.core, Handle) && c == After(s.core, Handle) && !c.handler.NotRunning?
    ensures GoLeads(s, STRAND, s.(core := c))
  {
  }

  /** From the lock to a message in hand. */
  lemma LockToHand(s: State, a: nat, m: Message)
    requires PcOf(s, a).Locking? && s.owner == None && s.core.section.Unlocked?
    requires s.core.current == [] && s.core.queue != [] && s.core.queue[0] == m
    ensures Legal(s, Gos(a, 4))
    ensures var t := Exec(s, Gos(a, 4));
            t == s.(core := s.core.(section := Assigning(m), queue := s.core.queue[1..]),
                    owner := Some(a), pcs := s.pcs[a := Inside])
  {
    var s1 := Next(s, Go(a));
    var s2 := s1.(core := s1.core.(section := TestingQueue));
    var s3 := s1.(core := s1.core.(section := Popping));
    var s4 := s1.(core := s1.core.(section := Assigning(m), queue := s1.core.queue[1..]));
    assert Next(s, Go(a)) == s1;
    InsideLock(s1, a, s2.core);
    InsideLock(s2, a, s3.core);
    InsideLock(s3, a, s4.core);
    FourGos(s, s1, s2, s3, s4, a);
  }

  /** From a message in hand to its send and the unlock. */
  lemma HandToSend(s: State, a: nat, m: Message)
    requires PcOf(s, a).Inside? && s.owner == Some(a) && s.core.section == Assigning(m)
    ensures Legal(s, Gos(a, 4))
    ensures var t := Exec(s, Gos(a, 4));
            t == s.(core := s.core.(section := Unlocked, current := m, inProgress := true,
                                    inFlight := s.core.inFlight + [m], taken := s.core.taken + [m]),
                    owner := None, pcs := s.pcs[a := Idle])
  {
    var s1 := s.(core := s.core.(section := SettingFlag, current := m, taken := s.core.taken + [m]));
    var s2 := s.(core := s1.core.(section := Sending, inProgress := true));
    var s3 := s.(core := s2.core.(section := Unlocking, inFlight := s.core.inFlight + [m]));
    InsideLock(s, a, s1.core);
    InsideLock(s1, a, s2.core);
    InsideLock(s2, a, s3.core);
    FourGos(s, s1, s2, s3, Next(s3, Go(a)), a);
  }

  lemma LockToSend(s: State, a: nat, m: Message)
    requires PcOf(s, a).Locking? && s.owner == None && s.core.section.Unlocked?
    requires s.core.current == [] && s.core.queue != [] && s.core.queue[0] == m
    ensures Legal(s, Gos(a, 4) + Gos(a, 4))
    ensures var t := Exec(s, Gos(a, 4) + Gos(a, 4));
            t == s.(core := s.core.(current := m, inProgress := true, queue := s.core.queue[1..],
                                    inFlight := s.core.inFlight + [m], taken := s.core.taken + [m]),
                    pcs := s.pcs[a := Idle])
  {
    LockToHand(s, a, m);
    HandToSend(Exec(s, Gos(a, 4)), a, m);
    LegalConcat(s, Gos(a, 4), Gos(a, 4));
  }

  /** Agent `a` takes the lock, finds nothing to do and releases it. */
  lemma LooksInVain(s: State, a: nat) returns (n: nat)
    requires PcOf(s, a) == Locking && s.owner == None && s.core.section.Unlocked?
    requires s.core.current != [] || s.core.queue == []
    ensures Legal(s, Gos(a, n)) && Exec(s, Gos(a, n)) == s.(pcs := s.pcs[a := Idle])
  {
    var s1 := Next(s, Go(a));
    var s2 := s1.(core := s1.core.(section := if s.core.current == [] then TestingQueue else Unlocking));
    InsideLock(s1, a, s2.core);
    var s3 := s1.(core := s1.core.(section := Unlocking));
    SameKeyTwice(s, a, Inside, Idle);
    var s4 := s.(pcs := s.pcs[a := Idle]);
    if s.core.current == [] {
      InsideLock(s2, a, s3.core);
      FourGos(s, s1, s2, s3, s4, a);
      n := 4;
    } else {
      ThreeGos(s, s1, s3, s4, a);
      n := 3;
    }
  }

  lemma WritesConcat(a: seq<Step>, b: seq<Step>, allowed: Message -> bool)
    requires Writes(a, allowed) && Writes(b, allowed)
    ensures Writes(a + b, allowed)
  {
  }

  // ---------------------------------------------------------------------------
  // Runs put together from such stretches, with what is known at their end.

  /** A run from the initial state in which these callers write messages of this kind. */
  datatype Trace = Trace(kind: Kind, steps: seq<Step>, end: State, allowed: Message -> bool, callers: set<nat>) {
    ghost predicate Ok() {
      && Legal(Init(kind), steps) && Exec(Init(kind), steps) == end
      && Writes(steps, allowed) && Callers(steps, callers)
    }

    /** Every successful send of the run reports the full size. */
    ghost predicate Full() {
      Ok() && FullSends(Init(kind), steps)
    }
  }

  ghost predicate Callers(steps: seq<Step>, callers: set<nat>) {
    forall i :: 0 <= i < |steps| && steps[i].Begin? ==> steps[i].a in callers
  }

  lemma Nowhere(kind: Kind, allowed: Message -> bool, callers: set<nat>) returns (r: Trace)
    ensures r == Trace(kind, [], Init(kind), allowed, callers) && r.Full()
  {
    r := Trace(kind, [], Init(kind), allowed, callers);
  }

  /** The run goes on, and moves only agent `a`. */
  ghost predicate Follows(r: Trace, r': Trace, a: nat) {
    && r'.Ok() && r'.kind == r.kind && r'.allowed == r.allowed && r'.callers == r.callers
    && r'.end.kind == r.end.kind && r'.end.unkicked == r.end.unkicked
    && forall b: nat :: b != a ==> PcOf(r'.end, b) == PcOf(r.end, b)
  }

  ghost predicate Moves(r: Trace, r': Trace, a: nat) {
    Follows(r, r', a) && r'.end.run == r.end.run && r'.end.posted == r.end.posted
  }

  lemma AppendAny(r: Trace, back: seq<Step>) returns (r': Trace)
    requires r.Ok() && Legal(r.end, back) && Writes(back, r.allowed) && Callers(back, r.callers)
    ensures r' == r.(steps := r.steps + back, end := Exec(r.end, back)) && r'.Ok()
    ensures r.Full() && FullSends(r.end, back) ==> r'.Full()
  {
    LegalConcat(Init(r.kind), r.steps, back);
    r' := r.(steps := r.steps + back, end := Exec(r.end, back));
    if r.Full() && FullSends(r.end, back) {
      FullConcat(Init(r.kind), r.steps, back);
    }
  }

  /** A stretch without completions. */
  lemma Append(r: Trace, back: seq<Step>) returns (r': Trace)
    requires r.Ok() && Legal(r.end, back) && Writes(back, r.allowed) && Callers(back, r.callers)
    requires forall i :: 0 <= i < |back| ==> !back[i].SendDone?
    ensures r' == r.(steps := r.steps + back, end := Exec(r.end, back)) && r'.Ok()
    ensures r.Full() ==> r'.Full()
  {
    NoCompletionIsFull(r.end, back);
    r' := AppendAny(r, back);
  }

  function Took(c: Core, m: Message): Core
    requires c.queue != []
  {
    c.(current := m, inProgress := true, queue := c.queue[1..],
       inFlight := c.inFlight + [m], taken := c.taken + [m])
  }

  function Gave(c: Core, m: Message): Core {
    c.(queue := c.queue + [m], accepted := c.accepted + [m])
  }

  /** Agent `a` enqueues `m`, passes the flag and stands before the lock. */
  lemma Arrives(r: Trace, a: nat, m: Message) returns (r': Trace)
    requires r.Ok() && r.allowed(m) && a in r.callers
    requires !r.end.kind.Serial? && r.end.run && !r.end.unkicked && !r.end.core.inProgress
    requires PcOf(r.end, a).Idle? && |r.end.core.queue| < QUEUE_CAPACITY
    ensures Moves(r, r', a) && PcOf(r'.end, a) == Locking && r'.end.owner == r.end.owner
    ensures r'.end.core == Gave(r.end.core, m)
    ensures r.Full() ==> r'.Full()
  {
    ArriveReachesLock(r.end, a, m);
    r' := Append(r, Arrive(a, m));
  }

  /** Agent `a` only enqueues. */
  lemma Enqueues(r: Trace, a: nat, m: Message) returns (r': Trace)
    requires r.Ok() && r.allowed(m) && a in r.callers
    requires PcOf(r.end, a).Idle? && |r.end.core.queue| < QUEUE_CAPACITY
    ensures Moves(r, r', a) && r'.end.owner == r.end.owner
    ensures r'.end.core == Gave(r.end.core, m)
    ensures r.Full() ==> r'.Full()
  {
    var s1 := Next(r.end, Begin(a, m));
    OneGo(s1, a);
    StepThen(r.end, Begin(a, m), Gos(a, 1));
    r' := Append(r, [Begin(a, m)] + Gos(a, 1));
  }

  /** From the lock through the send and the unlock. */
  lemma Sends(r: Trace, a: nat, m: Message) returns (r': Trace)
    requires r.Ok() && PcOf(r.end, a).Locking? && r.end.owner == None && r.end.core.section.Unlocked?
    requires r.end.core.current == [] && r.end.core.queue != [] && r.end.core.queue[0] == m
    ensures Moves(r, r', a) && PcOf(r'.end, a) == Idle && r'.end.owner == None
    ensures r'.end.core == Took(r.end.core, m)
    ensures r.Full() ==> r'.Full()
  {
    LockToSend(r.end, a, m);
    r' := Append(r, Gos(a, 4) + Gos(a, 4));
  }

  /** From the lock to a message in hand. */
  lemma Takes(r: Trace, a: nat, m: Message) returns (r': Trace)
    requires r.Ok() && PcOf(r.end, a).Locking? && r.end.owner == None && r.end.core.section.Unlocked?
    requires r.end.core.current == [] && r.end.core.queue != [] && r.end.core.queue[0] == m
    ensures Moves(r, r', a) && PcOf(r'.end, a) == Inside && r'.end.owner == Some(a)
    ensures r'.end.core == r.end.core.(section := Assigning(m), queue := r.end.core.queue[1..])
    ensures r.Full() ==> r'.Full()
  {
    LockToHand(r.end, a, m);
    r' := Append(r, Gos(a, 4));
  }

  /** From a message in hand through its send and the unlock. */
  lemma SendsHand(r: Trace, a: nat, m: Message) returns (r': Trace)
    requires r.Ok() && PcOf(r.end, a).Inside? && r.end.owner == Some(a) && r.end.core.section == Assigning(m)
    ensures Moves(r, r', a) && PcOf(r'.end, a) == Idle && r'.end.owner == None
    ensures r'.end.core == r.end.core.(section := Unlocked, current := m, inProgress := true,
                                       inFlight := r.end.core.inFlight + [m], taken := r.end.core.taken + [m])
    ensures r.Full() ==> r'.Full()
  {
    HandToSend(r.end, a, m);
    r' := Append(r, Gos(a, 4));
  }

  /** The test of the flag in startWrite. */
  lemma Tests(r: Trace, a: nat) returns (r': Trace)
    requires r.Ok() && PcOf(r.end, a).TestingFlag?
    ensures Moves(r, r', a) && r'.end.owner == r.end.owner && r'.end.core == r.end.core
    ensures PcOf(r'.end, a) == if r.end.core.inProgress then Idle else Locking
    ensures r.Full() ==> r'.Full()
  {
    OneGo(r.end, a);
    r' := Append(r, Gos(a, 1));
  }

  /** Agent `a` takes the lock, finds nothing to do and releases it. */
  lemma Looks(r: Trace, a: nat) returns (r': Trace)
    requires r.Ok() && PcOf(r.end, a) == Locking && r.end.owner == None && r.end.core.section.Unlocked?
    requires r.end.core.current != [] || r.end.core.queue == []
    ensures Moves(r, r', a) && PcOf(r'.end, a) == Idle && r'.end.owner == None && r'.end.core == r.end.core
    ensures r.Full() ==> r'.Full()
  {
    var n := LooksInVain(r.end, a);
    r' := Append(r, Gos(a, n));
  }

  /** The strand takes up a completion. */
  lemma Completes(r: Trace, i: nat, w: nat) returns (r': Trace)
    requires r.Ok() && PcOf(r.end, STRAND).Idle? && Can(r.end.core, Complete(i, w))
    ensures Moves(r, r', STRAND) && PcOf(r'.end, STRAND) == Handling && r'.end.owner == r.end.owner
    ensures r'.end.core == After(r.end.core, Complete(i, w))
    ensures r.Full() && w == |r.end.core.inFlight[i]| ==> r'.Full()
  {
    StepThen(r.end, SendDone(i, w), []);
    assert [SendDone(i, w)] + [] == [SendDone(i, w)];
    if w == |r.end.core.inFlight[i]| {
      assert [SendDone(i, w)][1..] == [] && FullSends(Next(r.end, SendDone(i, w)), []);
      assert FullSends(r.end, [SendDone(i, w)]);
    }
    r' := AppendAny(r, [SendDone(i, w)]);
  }

  /** One instruction of the handler. */
  lemma Handles(r: Trace) returns (r': Trace)
    requires r.Ok() && PcOf(r.end, STRAND).Handling? && Can(r.end.core, Handle)
    ensures Moves(r, r', STRAND) && r'.end.owner == r.end.owner
    ensures r'.end.core == After(r.end.core, Handle)
    ensures PcOf(r'.end, STRAND) ==
            if !r'.end.core.handler.NotRunning? then Handling else if r.end.kind.Serial? then Posting else TestingFlag
    ensures r.Full() ==> r'.Full()
  {
    OneGo(r.end, STRAND);
    r' := Append(r, Gos(STRAND, 1));
  }

  /** One instruction of the handler, not its last, with the core that it leaves. */
  lemma HandlesTo(r: Trace, c: Core) returns (r': Trace)
    requires r.Ok() && PcOf(r.end, STRAND).Handling? && Can(r.end.core, Handle)
    requires c == After(r.end.core, Handle) && !c.handler.NotRunning?
    ensures Moves(r, r', STRAND) && PcOf(r'.end, STRAND) == Handling && r'.end.owner == r.end.owner
    ensures r'.end.core == c
    ensures r.Full() ==> r'.Full()
  {
    r' := Handles(r);
  }

  /** What the handler makes of the core when it finds `current` used up and the queue empty;
      it is left about to reset the flag. */
  function Finished(c: Core, i: nat, w: nat): Core
    requires i < |c.inFlight| && w <= |c.inFlight[i]|
  {
    c.(handler := ResettingFlag, current := [], outcomes := c.outcomes + [Sent(|c.current|, w, false)],
       inFlight := RemoveAt(c.inFlight, i), written := c.written + [c.inFlight[i][..w]])
  }

  lemma Finishes(r: Trace, i: nat, w: nat) returns (r': Trace)
    requires r.Ok() && PcOf(r.end, STRAND).Idle? && Can(r.end.core, Complete(i, w))
    requires r.end.core.queue == [] && |r.end.core.current| <= w
    ensures Moves(r, r', STRAND) && PcOf(r'.end, STRAND) == Handling && r'.end.owner == r.end.owner
    ensures r'.end.core == Finished(r.end.core, i, w)
    ensures r.Full() && w == |r.end.core.inFlight[i]| ==> r'.Full()
  {
    var done := Finished(r.end.core, i, w);
    r' := Completes(r, i, w);
    r' := HandlesTo(r', r'.end.core.(handler := Retesting(w)));
    r' := HandlesTo(r', done.(handler := Clearing, current := r.end.core.current));
    r' := HandlesTo(r', done);
  }

  /** A serial port is opened. */
  lemma Opens(r: Trace) returns (r': Trace)
    requires r.Ok() && r.end.kind.Serial?
    ensures Follows(r, r', STRAND) && r'.end == r.end.(run := true)
    ensures r.Full() ==> r'.Full()
  {
    StepThen(r.end, SetRun(true), []);
    assert [SetRun(true)] + [] == [SetRun(true)];
    r' := Append(r, [SetRun(true)]);
  }

  /** On an open serial port agent `a` enqueues and posts. */
  lemma Posts(r: Trace, a: nat, m: Message) returns (r': Trace)
    requires r.Ok() && r.allowed(m) && a in r.callers
    requires r.end.kind.Serial? && r.end.run && !r.end.unkicked
    requires PcOf(r.end, a).Idle? && |r.end.core.queue| < QUEUE_CAPACITY
    ensures Follows(r, r', a) && PcOf(r'.end, a) == Idle && r'.end.owner == r.end.owner
    ensures r'.end.run && r'.end.posted == r.end.posted + 1
    ensures r'.end.core == Gave(r.end.core, m)
    ensures r.Full() ==> r'.Full()
  {
    var s := r.end;
    var s1 := Next(s, Begin(a, m));
    var s2 := s1.(core := Gave(s.core, m), pcs := s1.pcs[a := TestingRun]);
    var s3 := s2.(pcs := s2.pcs[a := Posting]);
    var s4 := s3.(posted := s.posted + 1, pcs := s3.pcs[a := Idle]);
    ThreeGos(s1, s2, s3, s4, a);
    StepThen(s, Begin(a, m), Gos(a, 3));
    r' := Append(r, [Begin(a, m)] + Gos(a, 3));
  }

  /** The strand takes up a posted startWrite. */
  lemma TakesUp(r: Trace) returns (r': Trace)
    requires r.Ok() && r.end.posted > 0 && PcOf(r.end, STRAND).Idle?
    ensures Follows(r, r', STRAND) && PcOf(r'.end, STRAND) == TestingFlag && r'.end.owner == r.end.owner
    ensures r'.end.run == r.end.run && r'.end.posted == r.end.posted - 1
    ensures r'.end.core == r.end.core
    ensures r.Full() ==> r'.Full()
  {
    StepThen(r.end, RunPosted, []);
    assert [RunPosted] + [] == [RunPosted];
    r' := Append(r, [RunPosted]);
  }

  /** Off a serial port, a write that finds the flag on: it only enqueues. */
  lemma TurnsBack(r: Trace, a: nat, m: Message) returns (r': Trace)
    requires r.Ok() && r.allowed(m) && a in r.callers
    requires !r.end.kind.Serial? && r.end.run && !r.end.unkicked && r.end.core.inProgress
    requires PcOf(r.end, a).Idle? && |r.end.core.queue| < QUEUE_CAPACITY
    ensures Moves(r, r', a) && PcOf(r'.end, a) == Idle && r'.end.owner == r.end.owner
    ensures r'.end.core == Gave(r.end.core, m)
    ensures r.Full() ==> r'.Full()
  {
    var s := r.end;
    var s1 := Next(s, Begin(a, m));
    var s2 := s1.(core := Gave(s.core, m),
                  pcs := s1.pcs[a := if s.kind.Server? then TestingOuterFlag else TestingRun]);
    if s.kind.Server? {
      var s3 := s2.(pcs := s2.pcs[a := Idle]);
      TwoGos(s1, s2, s3, a);
      StepThen(s, Begin(a, m), Gos(a, 2));
      r' := Append(r, [Begin(a, m)] + Gos(a, 2));
    } else {
      var s3 := s2.(pcs := s2.pcs[a := TestingFlag]);
      var s4 := s3.(pcs := s3.pcs[a := Idle]);
      ThreeGos(s1, s2, s3, s4, a);
      StepThen(s, Begin(a, m), Gos(a, 3));
      r' := Append(r, [Begin(a, m)] + Gos(a, 3));
    }
  }

  // ---------------------------------------------------------------------------
  // On every kind of connection.

  /** Switched on, and nobody is doing anything. */
  ghost predicate Resting(s: State) {
    && s.run && !s.unkicked && s.posted == 0 && s.owner == None
    && s.core.section.Unlocked? && s.core.handler.NotRunning?
    && forall a: nat :: PcOf(s, a) == Idle
  }

  /** One caller writes one message, and its send is in flight. */
  lemma OneInFlight(kind: Kind, allowed: Message -> bool, m: Message) returns (r: Trace)
    requires allowed(m)
    ensures r.Ok() && r.kind == r.end.kind == kind && r.allowed == allowed && 1 in r.callers
    ensures Resting(r.end) && r.Full()
    ensures r.end.core == EMPTY.(current := m, inProgress := true, inFlight := [m], accepted := [m], taken := [m])
  {
    r := Nowhere(kind, allowed, {1});
    if kind.Serial? {
      r := Opens(r);
      r := Posts(r, 1, m);
      r := TakesUp(r);
      r := Tests(r, STRAND);
      r := Sends(r, STRAND, m);
    } else {
      r := Arrives(r, 1, m);
      r := Sends(r, 1, m);
    }
  }

  /** A write that finds the flag on ends with its message queued. */
  lemma WritesInVain(r: Trace, m: Message) returns (r': Trace)
    requires r.Ok() && r.allowed(m) && 1 in r.callers && r.kind == r.end.kind
    requires Resting(r.end) && r.end.core.inProgress && |r.end.core.queue| < QUEUE_CAPACITY
    ensures r'.Ok() && r'.kind == r'.end.kind == r.kind && r'.allowed == r.allowed && r'.callers == r.callers
    ensures Resting(r'.end) && r'.end.core == Gave(r.end.core, m)
    ensures r.Full() ==> r'.Full()
  {
    if r.end.kind.Serial? {
      r' := Posts(r, 1, m);
      r' := TakesUp(r');
      r' := Tests(r', STRAND);
    } else {
      r' := TurnsBack(r, 1, m);
    }
  }

  /** The only send in flight fails. */
  lemma Fails(r: Trace) returns (r': Trace)
    requires r.Ok() && Resting(r.end) && |r.end.core.inFlight| == 1
    ensures Moves(r, r', STRAND) && Resting(r'.end)
    ensures r'.end.core == r.end.core.(inFlight := [], outcomes := r.end.core.outcomes + [Failed])
    ensures r.Full() ==> r'.Full()
  {
    var s := Next(r.end, SendFailed(0));
    StepThen(r.end, SendFailed(0), []);
    assert [SendFailed(0)] + [] == [SendFailed(0)];
    assert RemoveAt(r.end.core.inFlight, 0) == [];
    assert s == r.end.(core := r.end.core.(inFlight := [], outcomes := r.end.core.outcomes + [Failed]));
    r' := Append(r, [SendFailed(0)]);
  }

  /** After its handler, the strand comes to startWrite. */
  lemma Restarts(r: Trace) returns (r': Trace)
    requires r.Ok() && PcOf(r.end, STRAND) == if r.end.kind.Serial? then Posting else TestingFlag
    ensures Moves(r, r', STRAND) && r'.end.owner == r.end.owner && r'.end.core == r.end.core
    ensures PcOf(r'.end, STRAND) == TestingFlag
    ensures r.Full() ==> r'.Full()
  {
    r' := r;
    if r.end.kind.Serial? {
      OneGo(r.end, STRAND);
      r' := Append(r, Gos(STRAND, 1));
      r' := TakesUp(r');
    }
  }
}
