/**
  What the pipeline guarantees on every run: for every kind of connection, any number of
  agents, any interleaving, and any pattern of partial writes and errors.  Some of it holds
  for any messages on a serial port and for non-empty messages elsewhere, some for non-empty
  messages only; the modules PumpExclusion, PumpConservation, PumpWakeup and PumpBoundaries
  show that it is exactly so.
 */
module PumpTheorems {
  import opened Streams
  import opened PumpCore
  import opened Pump
  import opened PumpStrand

  // ---------------------------------------------------------------------------
  // Safety.

  /** Nobody is misled by an empty `current`: there is one stream of instructions, or there
      are no empty messages. */
  ghost predicate Clear(kind: Kind, steps: seq<Step>) {
    kind.Serial? || Writes(steps, NonEmpty)
  }

  lemma ClearOf(kind: Kind, allowed: Message -> bool, steps: seq<Step>)
    requires Writes(steps, allowed) && (kind.Serial? || !allowed([]))
    ensures Clear(kind, steps)
  {
    if !kind.Serial? {
      WritesWeaken(steps, allowed, NonEmpty);
    }
  }

  lemma ReachableConserved(kind: Kind, steps: seq<Step>)
    requires Legal(Init(kind), steps) && Clear(kind, steps)
    ensures Conserved(Exec(Init(kind), steps).core)
  {
    if kind.Serial? {
      SerialStreamInv(steps);
    } else {
      ReachableInv(kind, steps);
    }
  }

  /** At most one send is in flight, and it was given exactly what `current` still holds. */
  ghost predicate Exclusive(s: State) {
    |s.core.inFlight| <= 1 && (s.core.inFlight != [] ==> s.core.inFlight == [s.core.current])
  }

  lemma Exclusion(kind: Kind, steps: seq<Step>)
    requires Legal(Init(kind), steps) && Clear(kind, steps)
    ensures Exclusive(Exec(Init(kind), steps))
  {
    ReachableConserved(kind, steps);
  }

  lemma EventLeavesBuffer(c: Core, e: Event)
    requires Ownership(c) && Can(c, e) && c.inFlight != [] && After(c, e).inFlight != []
    ensures After(c, e).current == c.current && After(c, e).inFlight == c.inFlight
  {
    assert |c.inFlight| == 1 && !Pending(c) && !Loaded(c) && !Choosing(c);
  }

  /** A step leaves the buffer under a send alone: what is in flight before and after it is
      one send, over an unchanged `current`. */
  ghost predicate LeavesBuffer(s: State, st: Step)
    requires Enabled(s, st)
  {
    var c, c' := s.core, Next(s, st).core;
    c.inFlight != [] && c'.inFlight != [] ==> c'.current == c.current && c'.inFlight == c.inFlight
  }

  lemma BufferUntouchedInFlight(kind: Kind, steps: seq<Step>, st: Step)
    requires Legal(Init(kind), steps) && Clear(kind, steps)
    requires Enabled(Exec(Init(kind), steps), st)
    ensures LeavesBuffer(Exec(Init(kind), steps), st)
  {
    ReachableConserved(kind, steps);
    var s := Exec(Init(kind), steps);
    var s' := Next(s, st);
    if s.core.inFlight != [] && s'.core.inFlight != [] && s'.core != s.core {
      var e := EventOf(s, st);
      EventLeavesBuffer(s.core, e);
    }
  }

  /** Whoever holds the lock or runs the handler can execute its next instruction. */
  ghost predicate NeverStuck(s: State) {
    forall a: nat :: PcOf(s, a).Inside? || PcOf(s, a).Handling? ==> Enabled(s, Go(a))
  }

  /** The queue is tested and popped in separate steps, yet no pop ever finds it empty. */
  lemma PopsNeverBlock(kind: Kind, steps: seq<Step>)
    requires Legal(Init(kind), steps) && Clear(kind, steps)
    ensures var s := Exec(Init(kind), steps);
            NeverStuck(s) && (s.core.section.Popping? || s.core.handler.Repopping? ==> s.core.queue != [])
  {
    if kind.Serial? {
      SerialStreamInv(steps);
    } else {
      ReachableInv(kind, steps);
    }
  }

  /** Bytes reported written, the rest of the current message, a message in hand and the
      queue add up to the bytes accepted, in order; so the output is a prefix of the input. */
  ghost predicate BytesAddUp(s: State) {
    var c := s.core;
    Flatten(c.written) + Rest(c) + Flatten(Hand(c)) + Flatten(c.queue) == Flatten(c.accepted)
  }

  ghost predicate OutputIsPrefix(s: State) {
    Flatten(s.core.written) <= Flatten(s.core.accepted)
  }

  lemma ByteConservation(kind: Kind, steps: seq<Step>)
    requires Legal(Init(kind), steps) && Clear(kind, steps)
    ensures BytesAddUp(Exec(Init(kind), steps)) && OutputIsPrefix(Exec(Init(kind), steps))
  {
    ReachableConserved(kind, steps);
  }

  /** `accepted` is the caller's side of the account: exactly the messages whose push has
      been executed, in that order. */
  lemma PushAccepts(s: State, st: Step)
    requires Enabled(s, st)
    ensures Next(s, st).core.accepted ==
            if st.Go? && PcOf(s, st.a).Pushing? then s.core.accepted + [PcOf(s, st.a).msg] else s.core.accepted
  {
  }

  /** `written` is the peer's side: only a successful completion adds to it, and it adds
      what the send was given, cut to the length reported. */
  lemma OnlyCompletionsWrite(s: State, st: Step)
    requires Enabled(s, st)
    ensures Next(s, st).core.written ==
            if st.SendDone? then s.core.written + [s.core.inFlight[st.i][..st.w]] else s.core.written
  {
  }

  /** Message boundaries: the i-th successful send carried a prefix of the i-th message
      accepted, never two messages or the tail of one, and every send but the last carried
      the whole of it. */
  ghost predicate KeepsBoundaries(s: State) {
    var c := s.core;
    && |c.written| <= |c.accepted|
    && (forall i :: 0 <= i < |c.written| ==> c.written[i] <= c.accepted[i])
    && (forall i :: 0 <= i < |c.written| - 1 ==> c.written[i] == c.accepted[i])
  }

  lemma DatagramsMatchMessages(kind: Kind, steps: seq<Step>)
    requires Legal(Init(kind), steps) && Writes(steps, NonEmpty)
    ensures KeepsBoundaries(Exec(Init(kind), steps))
  {
    ReachableInv(kind, steps);
    var c := Exec(Init(kind), steps).core;
    assert c.taken <= c.accepted;
    forall i | 0 <= i < |c.written|
      ensures c.written[i] <= c.accepted[i]
    {
      if i == |c.taken| - 1 {
        assert c.taken[i] == c.written[i] + Rest(c);
      }
    }
  }

  ghost predicate WholeSoFar(c: Core) {
    c.written <= c.taken
  }

  lemma EventKeepsWhole(c: Core, e: Event)
    requires Ownership(c) && Pieces(c) && WholeSoFar(c) && Can(c, e)
    requires e.Complete? ==> e.w == |c.inFlight[e.i]|
    ensures WholeSoFar(After(c, e))
  {
    if e.Complete? {
      assert c.inFlight == [c.current] && c.inFlight[e.i][..e.w] == c.current;
      assert c.taken[|c.taken| - 1] == c.current;
    }
  }

  lemma StepKeepsWhole(s: State, st: Step)
    requires Inv(s) && WholeSoFar(s.core) && Enabled(s, st)
    requires st.SendDone? ==> st.w == |s.core.inFlight[st.i]|
    ensures WholeSoFar(Next(s, st).core)
  {
    if Next(s, st).core != s.core {
      EventKeepsWhole(s.core, EventOf(s, st));
    }
  }

  lemma {:induction false} RunKeepsWhole(s: State, steps: seq<Step>)
    requires Inv(s) && WholeSoFar(s.core) && Legal(s, steps) && Writes(steps, NonEmpty) && FullSends(s, steps)
    ensures WholeSoFar(Exec(s, steps).core)
    decreases |steps|
  {
    if steps != [] {
      StepKeepsWhole(s, steps[0]);
      StepKeepsInv(s, steps[0]);
      RunKeepsWhole(Next(s, steps[0]), steps[1..]);
    }
  }

  /** Datagrams: when every successful send reports the full size, the datagrams sent are a
      prefix of the messages written. */
  lemma DatagramsArePrefix(kind: Kind, steps: seq<Step>)
    requires Legal(Init(kind), steps) && Writes(steps, NonEmpty) && FullSends(Init(kind), steps)
    ensures var c := Exec(Init(kind), steps).core; c.written <= c.accepted
  {
    InitInv(kind);
    RunKeepsWhole(Init(kind), steps);
    ReachableInv(kind, steps);
    var c := Exec(Init(kind), steps).core;
    assert c.taken <= c.accepted;
  }

  // ---------------------------------------------------------------------------
  // Wakeups.

  /** Nothing left to execute: every agent is outside the pipeline and nothing is in flight. */
  ghost predicate Quiet(s: State) {
    && (forall a: nat :: PcOf(s, a).Idle?)
    && s.posted == 0
    && s.core.inFlight == []
  }

  /** At rest with an empty `current` the queue is empty too, unless the last caller to look
      found the connection switched off. */
  ghost predicate DrainedIfKicked(s: State) {
    Quiet(s) && s.core.current == [] && !s.unkicked ==> s.core.queue == []
  }

  lemma QuietMeansDrained(s: State)
    requires AgentsOk(s) && Awake(s)
    ensures DrainedIfKicked(s)
  {
    if Quiet(s) {
      assert forall a: nat :: !Coming(PcOf(s, a));
      assert !PcOf(s, STRAND).Handling?;
      SectionHasOwner(s);
    }
  }

  /** No lost wakeup, provided no send fails or no message is empty. */
  lemma NoLostWakeup(kind: Kind, steps: seq<Step>)
    requires Legal(Init(kind), steps) && (NoFailures(steps) || Writes(steps, NonEmpty))
    ensures DrainedIfKicked(Exec(Init(kind), steps))
  {
    InitInv(kind);
    if NoFailures(steps) {
      RunKeepsAttended(Init(kind), steps);
    } else {
      ReachableInv(kind, steps);
    }
    QuietMeansDrained(Exec(Init(kind), steps));
  }

  lemma {:induction false} KickedUntilStopped(s: State, steps: seq<Step>)
    requires Legal(s, steps)
    requires !s.kind.Serial? && (s.unkicked ==> !s.run)
    ensures var t := Exec(s, steps); t.kind == s.kind && (t.unkicked ==> !t.run)
    decreases |steps|
  {
    if steps != [] {
      KickedUntilStopped(Next(s, steps[0]), steps[1..]);
    }
  }

  /** With the run flag on, rest means an empty queue or a held `current`. */
  ghost predicate DrainedIfRunning(s: State) {
    s.run && Quiet(s) && s.core.current == [] ==> s.core.queue == []
  }

  /** Except on a serial port, which can be reopened, a connection whose run flag is on has
      never skipped a kick. */
  lemma RunningNeverSkips(kind: Kind, steps: seq<Step>)
    requires !kind.Serial? && Legal(Init(kind), steps) && (NoFailures(steps) || Writes(steps, NonEmpty))
    ensures DrainedIfRunning(Exec(Init(kind), steps))
  {
    KickedUntilStopped(Init(kind), steps);
    NoLostWakeup(kind, steps);
  }

  // ---------------------------------------------------------------------------
  // The trap in the code as written.

  lemma EventStaysStalled(c: Core, e: Event)
    requires Ownership(c) && Stalled(c) && Can(c, e)
    ensures var c' := After(c, e);
            Stalled(c') && c'.current == c.current && c'.written == c.written && c'.taken == c.taken
  {
  }

  lemma StepStaysStalled(s: State, st: Step)
    requires Ownership(s.core) && Stalled(s.core) && Enabled(s, st)
    ensures var c := Next(s, st).core;
            && Ownership(c) && Stalled(c)
            && c.current == s.core.current && c.written == s.core.written && c.taken == s.core.taken
  {
    if Next(s, st).core != s.core {
      EventStaysStalled(s.core, EventOf(s, st));
      KeepsOwnership(s.core, EventOf(s, st));
    }
  }

  /** Stalled is for ever: whatever is written, no later step, by anyone, sends another byte or
      touches `current`. */
  lemma {:induction false} StalledForEver(s: State, steps: seq<Step>)
    requires Ownership(s.core) && Stalled(s.core) && Legal(s, steps)
    ensures var c := Exec(s, steps).core;
            Stalled(c) && c.current == s.core.current && c.written == s.core.written && c.taken == s.core.taken
    decreases |steps|
  {
    if steps != [] {
      StepStaysStalled(s, steps[0]);
      StalledForEver(Next(s, steps[0]), steps[1..]);
    }
  }

  /** Exactly when the trap closes: once the handler is through, the pipeline is stalled if
      and only if some send failed, was partial, or was completed while another message was
      already queued.  Only the last completion of a run can be one of those. */
  ghost predicate StallsIffFatal(s: State) {
    var c := s.core;
    && (!Pending(c) ==> (Stalled(c) <==> AnyFatal(c.outcomes)))
    && (forall i :: 0 <= i < |c.outcomes| - 1 ==> !Fatal(c.outcomes[i]))
  }

  lemma StalledIffFatalCompletion(kind: Kind, steps: seq<Step>)
    requires Legal(Init(kind), steps) && Writes(steps, NonEmpty)
    ensures StallsIffFatal(Exec(Init(kind), steps))
  {
    ReachableInv(kind, steps);
  }

  /** What the outcomes record: at its test of the size, or of the queue, the handler notes
      what it found there. */
  lemma OutcomesAreWhatTheHandlerFound(c: Core, e: Event)
    requires Ownership(c) && Can(c, e)
    ensures var found := After(c, e).outcomes;
            if e.Fail? then found == c.outcomes + [Failed]
            else if e.Handle? && c.handler.Completed? && c.handler.written < |c.current|
              then found == c.outcomes + [Sent(|c.current|, c.handler.written, c.queue != [])]
            else if e.Handle? && c.handler.Retesting?
              then found == c.outcomes + [Sent(|c.current|, |c.current|, c.queue != [])]
            else found == c.outcomes
  {
  }

  /** Delivery, end to end: at rest and kicked, the peer has been given every accepted byte
      if and only if no completion was fatal.  Otherwise something is missing for good. */
  ghost predicate DeliversIffNoneFatal(s: State) {
    Quiet(s) && !s.unkicked ==>
      (Flatten(s.core.written) == Flatten(s.core.accepted) <==> !AnyFatal(s.core.outcomes))
  }

  lemma DeliveredIffNoFatalCompletion(kind: Kind, steps: seq<Step>)
    requires Legal(Init(kind), steps) && Writes(steps, NonEmpty)
    ensures DeliversIffNoneFatal(Exec(Init(kind), steps))
  {
    ReachableInv(kind, steps);
    ByteConservation(kind, steps);
    NoLostWakeup(kind, steps);
    var s := Exec(Init(kind), steps);
    var c := s.core;
    if Quiet(s) && !s.unkicked {
      assert !PcOf(s, STRAND).Handling?;
      SectionHasOwner(s);
      assert Hand(c) == [] && Rest(c) == c.current;
      if c.current == [] {
        assert c.queue == [];
        assert !Stalled(c);
      } else {
        assert Stalled(c);
        assert |Flatten(c.accepted)| >= |Flatten(c.written)| + |c.current|;
      }
    }
  }

  // ---------------------------------------------------------------------------
  // What callers write is what is accepted.

  function Says(st: Step, a: nat): seq<Message> {
    if st.Begin? && st.a == a then [st.msg] else []
  }

  /** The messages with which agent `a` entered write. */
  function Said(steps: seq<Step>, a: nat): seq<Message> {
    if steps == [] then [] else Says(steps[0], a) + Said(steps[1..], a)
  }

  /** The message that agent `a` has yet to enqueue. */
  function Unsaid(s: State, a: nat): seq<Message> {
    if PcOf(s, a).Pushing? then [PcOf(s, a).msg] else []
  }

  /** The message that the step enqueues for agent `a`. */
  function Enqueued(s: State, st: Step, a: nat): seq<Message> {
    if st.Go? && st.a == a then Unsaid(s, a) else []
  }

  lemma StepSays(s: State, st: Step, a: nat)
    requires Enabled(s, st)
    ensures Unsaid(s, a) + Says(st, a) == Enqueued(s, st, a) + Unsaid(Next(s, st), a)
  {
    OthersStay(s, st);
  }

  /** The accepted messages are those that the callers have written and not still in their
      hands: each caller's in its own order, none changed, lost or made up. */
  lemma {:induction false} AcceptedIsWhatCallersSaid(s: State, steps: seq<Step>) returns (log: seq<(nat, Message)>)
    requires Legal(s, steps)
    ensures Exec(s, steps).core.accepted == s.core.accepted + Entries(log)
    ensures forall a: nat :: Unsaid(s, a) + Said(steps, a) == By(log, a) + Unsaid(Exec(s, steps), a)
    decreases |steps|
  {
    if steps == [] {
      return [];
    }
    var st, s' := steps[0], Next(s, steps[0]);
    var rest := AcceptedIsWhatCallersSaid(s', steps[1..]);
    PushAccepts(s, st);
    if st.Go? && PcOf(s, st.a).Pushing? {
      log := [(st.a, PcOf(s, st.a).msg)] + rest;
      ByCons(log[0], rest, 0);
      AppendAssociative(s.core.accepted, [PcOf(s, st.a).msg], Entries(rest));
    } else {
      log := rest;
    }
    forall a: nat
      ensures Unsaid(s, a) + Said(steps, a) == By(log, a) + Unsaid(Exec(s, steps), a)
    {
      StepSays(s, st, a);
      PassedOn(Unsaid(s, a), Says(st, a), Enqueued(s, st, a), Unsaid(s', a), Said(steps[1..], a), By(rest, a),
               Unsaid(Exec(s, steps), a));
      LogGrows(s, st, rest, log, a);
    }
  }

  lemma LogGrows(s: State, st: Step, rest: seq<(nat, Message)>, log: seq<(nat, Message)>, a: nat)
    requires log == if st.Go? && PcOf(s, st.a).Pushing? then [(st.a, PcOf(s, st.a).msg)] + rest else rest
    ensures By(log, a) == Enqueued(s, st, a) + By(rest, a)
  {
    if log != rest {
      ByCons(log[0], rest, a);
    }
  }

  /** From the start, and with everybody out of write: exactly what the callers have said. */
  lemma WritesAreAccepted(kind: Kind, steps: seq<Step>) returns (log: seq<(nat, Message)>)
    requires Legal(Init(kind), steps)
    ensures var s := Exec(Init(kind), steps);
            && s.core.accepted == Entries(log)
            && (forall a: nat :: By(log, a) <= Said(steps, a) && |Said(steps, a)| <= |By(log, a)| + 1)
            && (forall a: nat :: PcOf(s, a).Idle? ==> By(log, a) == Said(steps, a))
  {
    log := AcceptedIsWhatCallersSaid(Init(kind), steps);
    assert [] + Entries(log) == Entries(log);
    forall a: nat
      ensures Said(steps, a) == By(log, a) + Unsaid(Exec(Init(kind), steps), a)
    {
      assert Unsaid(Init(kind), a) == [] && [] + Said(steps, a) == Said(steps, a);
    }
  }

  // ---------------------------------------------------------------------------
  // The run flag, and after a disconnect.

  /** The run flag is what the last disconnect, open or close has made it. */
  lemma {:induction false} RunFlagIsLastSwitch(s: State, steps: seq<Step>, i: nat)
    requires Legal(s, steps) && i < |steps| && steps[i].SetRun?
    requires forall j :: i < j < |steps| ==> !steps[j].SetRun?
    ensures Exec(s, steps).run == steps[i].on
    decreases |steps|
  {
    var s' := Next(s, steps[0]);
    if i == 0 {
      RunFlagStays(s', steps[1..]);
    } else {
      RunFlagIsLastSwitch(s', steps[1..], i - 1);
    }
  }

  /** If there was none it is as it was: on from the start, but for a serial port. */
  lemma {:induction false} RunFlagStays(s: State, steps: seq<Step>)
    requires Legal(s, steps) && forall j :: 0 <= j < |steps| ==> !steps[j].SetRun?
    ensures Exec(s, steps).run == s.run
    decreases |steps|
  {
    if steps != [] {
      assert !steps[0].SetRun?;
      RunFlagStays(Next(s, steps[0]), steps[1..]);
    }
  }

  lemma RunFlagAtFirst(kind: Kind)
    ensures Init(kind).run <==> !kind.Serial?
  {
  }

  ghost predicate NoSwitchOn(steps: seq<Step>) {
    forall i :: 0 <= i < |steps| ==> steps[i] != SetRun(true)
  }

  /** Nobody is past the test of the run flag, and it is off. */
  ghost predicate Dormant(s: State) {
    && !s.run && !s.kind.Server?
    && (forall a: nat :: PcOf(s, a).Idle? || PcOf(s, a).Pushing? || PcOf(s, a).TestingRun?)
    && s.posted == 0 && s.core.inFlight == []
  }

  lemma StepStaysDormant(s: State, st: Step)
    requires Dormant(s) && Enabled(s, st) && st != SetRun(true)
    ensures Dormant(Next(s, st))
    ensures Next(s, st).core.taken == s.core.taken && Next(s, st).core.written == s.core.written
  {
    OthersStay(s, st);
    if st.Go? {
      assert PcOf(s, st.a).Pushing? || PcOf(s, st.a).TestingRun?;
    }
  }

  /** A connection at rest with its run flag off sends nothing until it is switched on again:
      later writes are accepted into the queue, and nothing is ever taken out of it. */
  lemma {:induction false} NothingSentOnceStopped(s: State, steps: seq<Step>)
    requires Dormant(s) && Legal(s, steps) && NoSwitchOn(steps)
    ensures var t := Exec(s, steps);
            Dormant(t) && t.core.taken == s.core.taken && t.core.written == s.core.written && t.core.inFlight == []
    decreases |steps|
  {
    if steps != [] {
      assert steps[0] != SetRun(true);
      StepStaysDormant(s, steps[0]);
      NothingSentOnceStopped(Next(s, steps[0]), steps[1..]);
    }
  }

  /** Only a serial port can be switched on. */
  lemma {:induction false} NeverSwitchedOn(s: State, steps: seq<Step>)
    requires Legal(s, steps) && !s.kind.Serial?
    ensures NoSwitchOn(steps)
    decreases |steps|
  {
    if steps != [] {
      NeverSwitchedOn(Next(s, steps[0]), steps[1..]);
      assert forall i :: 0 < i < |steps| ==> steps[i] == steps[1..][i - 1];
    }
  }

  /** From disconnect to the end: after any run of a TCP client or UDP connection with a
      disconnect in it that has come to rest, no continuation, whatever it writes, puts a send
      in flight or takes a message out of the queue. */
  lemma DisconnectedForGood(kind: Kind, steps: seq<Step>, i: nat, more: seq<Step>)
    requires (kind.Tcp? || kind.Udp?) && Legal(Init(kind), steps) && i < |steps| && steps[i] == SetRun(false)
    requires Quiet(Exec(Init(kind), steps)) && Legal(Exec(Init(kind), steps), more)
    ensures var s := Exec(Init(kind), steps);
            var t := Exec(s, more);
            && !s.run && !t.run && t.core.inFlight == []
            && t.core.taken == s.core.taken && t.core.written == s.core.written
  {
    NeverSwitchedOn(Init(kind), steps);
    StaysOffAfter(Init(kind), steps, i);
    KindStays(Init(kind), steps);
    var s := Exec(Init(kind), steps);
    NeverSwitchedOn(s, more);
    NothingSentOnceStopped(s, more);
  }

  /** The same for a serial port that has been closed and is not opened again. */
  lemma ClosedUntilOpened(steps: seq<Step>, i: nat, more: seq<Step>)
    requires Legal(Init(Serial), steps) && i < |steps| && steps[i] == SetRun(false) && NoSwitchOn(steps[i..])
    requires Quiet(Exec(Init(Serial), steps)) && Legal(Exec(Init(Serial), steps), more) && NoSwitchOn(more)
    ensures var s := Exec(Init(Serial), steps);
            var t := Exec(s, more);
            && !s.run && !t.run && t.core.inFlight == []
            && t.core.taken == s.core.taken && t.core.written == s.core.written
  {
    StaysOffAfter(Init(Serial), steps, i);
    KindStays(Init(Serial), steps);
    NothingSentOnceStopped(Exec(Init(Serial), steps), more);
  }

  lemma {:induction false} KindStays(s: State, steps: seq<Step>)
    requires Legal(s, steps)
    ensures Exec(s, steps).kind == s.kind
    decreases |steps|
  {
    if steps != [] {
      KindStays(Next(s, steps[0]), steps[1..]);
    }
  }

  lemma {:induction false} StaysOffAfter(s: State, steps: seq<Step>, i: nat)
    requires Legal(s, steps) && i < |steps| && steps[i] == SetRun(false) && NoSwitchOn(steps[i..])
    ensures !Exec(s, steps).run
    decreases |steps|
  {
    var s' := Next(s, steps[0]);
    if i > 0 {
      assert steps[1..][i - 1..] == steps[i..];
      StaysOffAfter(s', steps[1..], i - 1);
    } else {
      assert forall j :: 0 < j < |steps| ==> steps[j] == steps[i..][j];
      OffStays(s', steps[1..]);
    }
  }

  lemma {:induction false} OffStays(s: State, steps: seq<Step>)
    requires Legal(s, steps) && !s.run && NoSwitchOn(steps)
    ensures !Exec(s, steps).run
    decreases |steps|
  {
    if steps != [] {
      assert steps[0] != SetRun(true);
      OffStays(Next(s, steps[0]), steps[1..]);
    }
  }
}
