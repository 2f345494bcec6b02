/**
  Exactly when the in-progress flag tells that a send is in flight.

  A caller that passed the flag while it was off can be overtaken: another agent sends its
  message, the send completes, and the handler empties `current`.  If the overtaken caller
  now takes the lock, it sends a newer message, and the handler resets the flag over it.
  That takes two callers besides the strand.  With one such caller, and no empty messages,
  whoever is overtaken finds the queue empty.
 */
module PumpFlag {
  import opened Streams
  import opened PumpCore
  import opened Pump
  import opened PumpStrand
  import opened PumpRuns
  import opened PumpConservation

  ghost predicate Covered(s: State) {
    s.core.inFlight != [] ==> s.core.inProgress
  }

  /** The flag is on during every send, as long as only these callers write, and only these
      messages. */
  ghost predicate AlwaysCovered(kind: Kind, allowed: Message -> bool, callers: set<nat>) {
    forall steps: seq<Step> :: Legal(Init(kind), steps) && Writes(steps, allowed) && Callers(steps, callers) ==>
      Covered(Exec(Init(kind), steps))
  }

  // ---------------------------------------------------------------------------
  // One caller besides the strand.

  /** Agent `a` will not send unless it passes the flag first. */
  predicate NotPast(s: State, a: nat) {
    match PcOf(s, a)
    case Locking => false
    case Inside => s.core.section.Unlocking?
    case _ => true
  }

  /** The handler has emptied `current`, or is about to. */
  predicate Emptying(c: Core) {
    c.handler.Clearing? || (c.handler.ResettingFlag? && c.current == [])
  }

  predicate Refilling(c: Core) {
    c.section.Popping? || c.section.Assigning? || Loaded(c)
  }

  /** While the handler runs the flag is on and nobody is on the way to a send; and if `a` can
      still find `current` empty, then it finds the queue empty too. */
  ghost predicate OneCaller(s: State, a: nat) {
    && !s.kind.Serial?
    && (forall b: nat :: b != a && b != STRAND ==> PcOf(s, b).Idle?)
    && (s.core.inFlight != [] || s.core.section.Sending? ==> s.core.inProgress)
    && (!s.core.handler.NotRunning? ==> s.core.inProgress && s.core.inFlight == [] && !Refilling(s.core))
    && (Emptying(s.core) && !NotPast(s, a) ==> s.core.queue == [])
  }

  lemma StepKeepsOneCaller(s: State, st: Step, a: nat)
    requires a != STRAND && Inv(s) && OneCaller(s, a) && Enabled(s, st)
    requires st.Begin? ==> st.a == a || st.a == STRAND
    ensures OneCaller(Next(s, st), a)
  {
    OthersStay(s, st);
    match st
    case Go(b) =>
      if b == a {
        CallerKeepsOneCaller(s, a);
      } else if b == STRAND {
        StrandKeepsOneCaller(s, a);
      }
    case SendDone(i, w) => assert s.core.inFlight == [s.core.current];
    case _ =>
  }

  lemma CallerKeepsOneCaller(s: State, a: nat)
    requires a != STRAND && Inv(s) && OneCaller(s, a) && Enabled(s, Go(a))
    ensures OneCaller(Next(s, Go(a)), a)
  {
    OthersStay(s, Go(a));
    assert PcOf(s, a).Inside? <==> s.owner == Some(a);
    if PcOf(s, a).Inside? {
      HolderKeepsOneCaller(s, a, a);
    }
  }

  lemma StrandKeepsOneCaller(s: State, a: nat)
    requires a != STRAND && Inv(s) && OneCaller(s, a) && Enabled(s, Go(STRAND))
    ensures OneCaller(Next(s, Go(STRAND)), a)
  {
    OthersStay(s, Go(STRAND));
    assert PcOf(s, STRAND).Inside? <==> s.owner == Some(STRAND);
    assert PcOf(s, a).Inside? <==> s.owner == Some(a);
    if PcOf(s, STRAND).Inside? {
      HolderKeepsOneCaller(s, STRAND, a);
    } else if PcOf(s, STRAND).Handling? {
      HandlerKeepsOneCaller(s, a);
    }
  }

  lemma HolderKeepsOneCaller(s: State, b: nat, a: nat)
    requires a != STRAND && (b == a || b == STRAND)
    requires Inv(s) && OneCaller(s, a) && Enabled(s, Go(b)) && PcOf(s, b).Inside?
    ensures OneCaller(Next(s, Go(b)), a)
  {
    OthersStay(s, Go(b));
    var s', c := Next(s, Go(b)), After(s.core, Hold);
    assert s'.core == c && c.handler == s.core.handler;
    if !s.core.handler.NotRunning? {
      assert b == a;
      HolderUnderHandler(s.core);
      assert NotPast(s, a) ==> NotPast(s', a);
    } else {
      assert c.inFlight != [] || c.section.Sending? ==> c.inProgress;
    }
  }

  /** Under a running handler the lock holder does nothing but look. */
  lemma HolderUnderHandler(c: Core)
    requires Ownership(c) && Can(c, Hold) && !c.handler.NotRunning? && !Refilling(c)
    requires Emptying(c) && !c.section.Unlocking? ==> c.queue == []
    requires Pending(c) ==> c.current != []
    ensures var c' := After(c, Hold);
            !Refilling(c') && c'.inFlight == c.inFlight && c'.inProgress == c.inProgress && c'.queue == c.queue
            && c'.current == c.current
  {
  }

  lemma HandlerKeepsOneCaller(s: State, a: nat)
    requires a != STRAND && Inv(s) && OneCaller(s, a) && Enabled(s, Go(STRAND)) && PcOf(s, STRAND).Handling?
    ensures OneCaller(Next(s, Go(STRAND)), a)
  {
    OthersStay(s, Go(STRAND));
    var c := After(s.core, Handle);
    assert Next(s, Go(STRAND)).core == c && c.section == s.core.section && c.inFlight == s.core.inFlight;
    assert NotPast(Next(s, Go(STRAND)), a) == NotPast(s, a);
  }

  ghost predicate FlagInv(s: State, a: nat) {
    Inv(s) && OneCaller(s, a)
  }

  /** The step is not the write of an empty message or of a third party. */
  predicate FromOneCaller(st: Step, a: nat) {
    st.Begin? ==> st.msg != [] && (st.a == a || st.a == STRAND)
  }

  lemma StepKeepsFlagInv(s: State, st: Step, a: nat)
    requires a != STRAND && FlagInv(s, a) && Enabled(s, st) && FromOneCaller(st, a)
    ensures FlagInv(Next(s, st), a)
  {
    StepKeepsOneCaller(s, st, a);
    StepKeepsInv(s, st);
  }

  lemma {:induction false} RunKeepsFlagInv(s: State, steps: seq<Step>, a: nat)
    requires a != STRAND && FlagInv(s, a)
    requires Legal(s, steps) && forall i :: 0 <= i < |steps| ==> FromOneCaller(steps[i], a)
    ensures FlagInv(Exec(s, steps), a)
    decreases |steps|
  {
    if steps != [] {
      StepKeepsFlagInv(s, steps[0], a);
      RunKeepsFlagInv(Next(s, steps[0]), steps[1..], a);
    }
  }

  // ---------------------------------------------------------------------------
  // Otherwise the flag can be off during a send.

  /** Two callers, any message.  The strand's own startWrite sends what `b` wrote, while `b`,
      past the flag, stands before the lock. */
  lemma CallerOvertaken(kind: Kind, allowed: Message -> bool, callers: set<nat>, a: nat, b: nat, m: Message)
    returns (r: Trace)
    requires !kind.Serial? && allowed(m) && a in callers && b in callers && a != b && a != STRAND && b != STRAND
    ensures r.Ok() && r.kind == kind && r.allowed == allowed && r.callers == callers
    ensures r.end.core.inFlight == [m] && r.end.core.current == m && r.end.core.queue == [] && r.end.core.inProgress
    ensures r.end.core.section.Unlocked? && r.end.core.handler.NotRunning? && r.end.owner == None
    ensures !r.end.kind.Serial? && PcOf(r.end, STRAND) == Idle && PcOf(r.end, a) == Idle && PcOf(r.end, b) == Locking
  {
    r := SentAndReset(kind, allowed, callers, a, m);
    r := Arrives(r, b, m);
    r := Tests(r, STRAND);
    r := Sends(r, STRAND, m);
  }

  /** A first message is written, sent and completed; the strand comes to startWrite. */
  lemma SentAndReset(kind: Kind, allowed: Message -> bool, callers: set<nat>, a: nat, m: Message) returns (r: Trace)
    requires !kind.Serial? && allowed(m) && a in callers && a != STRAND
    ensures r.Ok() && r.kind == kind && r.allowed == allowed && r.callers == callers
    ensures r.end.core.inFlight == [] && r.end.core.current == [] && r.end.core.queue == [] && !r.end.core.inProgress
    ensures r.end.core.section.Unlocked? && r.end.core.handler.NotRunning? && r.end.owner == None
    ensures !r.end.kind.Serial? && r.end.run && !r.end.unkicked
    ensures PcOf(r.end, STRAND) == TestingFlag && forall b: nat :: b != STRAND ==> PcOf(r.end, b) == Idle
  {
    r := Nowhere(kind, allowed, callers);
    r := Arrives(r, a, m);
    r := Sends(r, a, m);
    r := Finishes(r, 0, |m|);
    r := Handles(r);
  }

  /** The overtaken caller sends what `a` has written since, and the handler resets the flag
      over that send. */
  lemma TwoCallersUncover(kind: Kind, allowed: Message -> bool, callers: set<nat>, a: nat, b: nat, m: Message)
    returns (r: Trace)
    requires !kind.Serial? && allowed(m) && a in callers && b in callers && a != b && a != STRAND && b != STRAND
    ensures r.Ok() && r.kind == kind && r.allowed == allowed && r.callers == callers
    ensures r.end.core.inFlight == [m] && !r.end.core.inProgress
  {
    r := CallerOvertaken(kind, allowed, callers, a, b, m);
    r := Finishes(r, 0, |m|);
    assert RemoveAt([m], 0) == [];
    r := Enqueues(r, a, m);
    r := Sends(r, b, m);
    r := Handles(r);
  }

  /** One caller, empty messages: the strand's own startWrite and the caller both send, and
      the handler of the one send resets the flag over the other. */
  lemma EmptiesUncover(kind: Kind, allowed: Message -> bool, callers: set<nat>, a: nat) returns (r: Trace)
    requires !kind.Serial? && allowed([]) && a in callers && a != STRAND
    ensures r.Ok() && r.kind == kind && r.allowed == allowed && r.callers == callers
    ensures r.end.core.inFlight == [[]] && !r.end.core.inProgress
  {
    r := BothSendEmpties(kind, allowed, callers, a);
    assert RemoveAt([[], []], 0) == [[]];
    r := Finishes(r, 0, 0);
    r := Handles(r);
  }

  lemma BothSendEmpties(kind: Kind, allowed: Message -> bool, callers: set<nat>, a: nat) returns (r: Trace)
    requires !kind.Serial? && allowed([]) && a in callers && a != STRAND
    ensures r.Ok() && r.kind == kind && r.allowed == allowed && r.callers == callers
    ensures r.end.core.inFlight == [[], []] && r.end.core.queue == [] && r.end.core.current == []
    ensures r.end.core.handler.NotRunning? && PcOf(r.end, STRAND) == Idle
  {
    r := SentAndReset(kind, allowed, callers, a, []);
    r := Tests(r, STRAND);
    r := Arrives(r, a, []);
    r := Sends(r, a, []);
    r := Enqueues(r, a, []);
    r := Sends(r, STRAND, []);
  }

  // ---------------------------------------------------------------------------

  lemma NotAlwaysCovered(r: Trace)
    requires r.Ok() && !Covered(r.end)
    ensures !AlwaysCovered(r.kind, r.allowed, r.callers)
  {
  }

  lemma StreamCovers(kind: Kind, allowed: Message -> bool, callers: set<nat>)
    requires kind.Serial? || callers <= {STRAND}
    ensures AlwaysCovered(kind, allowed, callers)
  {
    forall steps: seq<Step> | Legal(Init(kind), steps) && Writes(steps, allowed) && Callers(steps, callers)
      ensures Covered(Exec(Init(kind), steps))
    {
      RunKeepsStreamInv(Init(kind), steps);
    }
  }

  lemma OneCallerCovers(kind: Kind, allowed: Message -> bool, callers: set<nat>, a: nat)
    requires !kind.Serial? && callers <= {a, STRAND} && a != STRAND && !allowed([])
    ensures AlwaysCovered(kind, allowed, callers)
  {
    forall steps: seq<Step> | Legal(Init(kind), steps) && Writes(steps, allowed) && Callers(steps, callers)
      ensures Covered(Exec(Init(kind), steps))
    {
      InitInv(kind);
      forall i | 0 <= i < |steps|
        ensures FromOneCaller(steps[i], a)
      {
        assert steps[i].Begin? ==> allowed(steps[i].msg);
      }
      RunKeepsFlagInv(Init(kind), steps, a);
    }
  }

  lemma NothingToCover(kind: Kind, allowed: Message -> bool, callers: set<nat>)
    requires forall m :: !allowed(m)
    ensures AlwaysCovered(kind, allowed, callers)
  {
    forall steps: seq<Step> | Legal(Init(kind), steps) && Writes(steps, allowed) && Callers(steps, callers)
      ensures Covered(Exec(Init(kind), steps))
    {
      NothingWrittenNothingHeld(kind, steps, allowed);
    }
  }

  lemma OneOrTwo(s: set<nat>) returns (a: nat, b: nat)
    requires s != {}
    ensures a in s && b in s
    ensures |s| == 1 ==> s == {a}
    ensures |s| != 1 ==> a != b
  {
    a :| a in s;
    b := a;
    assert s == {a} + (s - {a});
    if s - {a} != {} {
      b :| b in s - {a};
      assert |s| == 1 + |s - {a}| && |s - {a}| > 0;
    }
  }

  /** The flag covers every send exactly when there is one stream of instructions, nothing to
      send, or only one caller besides the strand and no empty message. */
  lemma FlagCoversExactly(kind: Kind, allowed: Message -> bool, callers: set<nat>)
    ensures AlwaysCovered(kind, allowed, callers) <==>
              || kind.Serial? || callers <= {STRAND} || (forall m :: !allowed(m))
              || (|callers - {STRAND}| == 1 && !allowed([]))
  {
    if kind.Serial? || callers <= {STRAND} {
      StreamCovers(kind, allowed, callers);
    } else if m :| allowed(m) {
      var a, b := OneOrTwo(callers - {STRAND});
      if |callers - {STRAND}| == 1 {
        if allowed([]) {
          var r := EmptiesUncover(kind, allowed, callers, a);
          NotAlwaysCovered(r);
        } else {
          OneCallerCovers(kind, allowed, callers, a);
        }
      } else {
        var r := TwoCallersUncover(kind, allowed, callers, a, b, m);
        NotAlwaysCovered(r);
      }
    } else {
      NothingToCover(kind, allowed, callers);
    }
  }
}
