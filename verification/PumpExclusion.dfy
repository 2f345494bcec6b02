/**
  Exactly when at most one send is in flight, and when the buffer under a send is left alone.

  The in-progress flag is tested without the lock and is reset after `current` has been
  emptied, so it does not exclude; a non-empty `current` does.  An empty message leaves
  `current` empty while its send is in flight, and two callers that have both passed the
  flag then both send.  On a serial port everything after the enqueue runs on the strand,
  where the flag is enough.
 */
module PumpExclusion {
  import opened Streams
  import opened PumpCore
  import opened Pump
  import opened PumpTheorems
  import opened PumpRuns

  /** No step from here touches the buffer under a send. */
  ghost predicate Untouchable(s: State) {
    forall st: Step :: Enabled(s, st) ==> LeavesBuffer(s, st)
  }

  /** Two callers write an empty message and `m`; both pass the flag before either sends, and
      the first sends. */
  lemma EmptySentFirst(kind: Kind, allowed: Message -> bool, m: Message) returns (r: Trace)
    requires !kind.Serial? && allowed([]) && allowed(m)
    ensures r.Ok() && r.kind == kind && r.allowed == allowed && r.callers == {1, 2}
    ensures r.end.kind == kind && r.end.run && !r.end.unkicked && r.end.owner == None
    ensures PcOf(r.end, STRAND) == Idle && PcOf(r.end, 1) == Idle && PcOf(r.end, 2) == Locking
    ensures r.end.core == EMPTY.(inProgress := true, queue := [m], inFlight := [[]], accepted := [[], m], taken := [[]])
  {
    r := Nowhere(kind, allowed, {1, 2});
    r := Arrives(r, 1, []);
    r := Arrives(r, 2, m);
    r := Sends(r, 1, []);
  }

  lemma TwoEmptiesBothSend(kind: Kind, allowed: Message -> bool) returns (r: Trace)
    requires !kind.Serial? && allowed([])
    ensures r.Ok() && r.kind == kind && r.allowed == allowed
    ensures r.end.core.inFlight == [[], []]
  {
    r := EmptySentFirst(kind, allowed, []);
    r := Sends(r, 2, []);
  }

  lemma ClearExcludes(kind: Kind, allowed: Message -> bool)
    requires kind.Serial? || !allowed([])
    ensures Always(kind, allowed, Exclusive) && Always(kind, allowed, Untouchable)
  {
    forall steps: seq<Step> | Legal(Init(kind), steps) && Writes(steps, allowed)
      ensures Exclusive(Exec(Init(kind), steps)) && Untouchable(Exec(Init(kind), steps))
    {
      ClearOf(kind, allowed, steps);
      Exclusion(kind, steps);
      forall st: Step | Enabled(Exec(Init(kind), steps), st)
        ensures LeavesBuffer(Exec(Init(kind), steps), st)
      {
        BufferUntouchedInFlight(kind, steps, st);
      }
    }
  }

  /** A serial port always excludes; the others do exactly when callers never write an
      empty message. */
  lemma ExclusiveIffNoEmptyMessage(kind: Kind, allowed: Message -> bool)
    ensures Always(kind, allowed, Exclusive) <==> kind.Serial? || !allowed([])
  {
    if kind.Serial? || !allowed([]) {
      ClearExcludes(kind, allowed);
    } else {
      var r := TwoEmptiesBothSend(kind, allowed);
      NotAlways(kind, allowed, Exclusive, r.steps);
    }
  }

  /** The second send is issued by a step that finds another one in flight. */
  lemma {:induction false} SecondSendTouches(s: State, steps: seq<Step>) returns (n: nat)
    requires Legal(s, steps) && |s.core.inFlight| <= 1 && |Exec(s, steps).core.inFlight| > 1
    ensures n <= |steps| && Legal(s, steps[..n]) && !Untouchable(Exec(s, steps[..n]))
    decreases |steps|
  {
    var s1 := Next(s, steps[0]);
    if |s1.core.inFlight| <= 1 {
      var k := SecondSendTouches(s1, steps[1..]);
      n := k + 1;
      assert steps[..n] == [steps[0]] + steps[1..][..k];
      StepThen(s, steps[0], steps[1..][..k]);
    } else {
      n := 0;
      SecondSend(s, steps[0]);
      assert steps[..0] == [];
    }
  }

  lemma SecondSend(s: State, st: Step)
    requires Enabled(s, st) && |s.core.inFlight| <= 1 && |Next(s, st).core.inFlight| > 1
    ensures !Untouchable(s)
  {
    var e := EventOf(s, st);
    assert e.Hold? && s.core.section.Sending? && |s.core.inFlight| == 1;
    assert !LeavesBuffer(s, st);
  }

  /** The buffer under a send is safe under the same condition. */
  lemma UntouchedIffNoEmptyMessage(kind: Kind, allowed: Message -> bool)
    ensures Always(kind, allowed, Untouchable) <==> kind.Serial? || !allowed([])
  {
    if kind.Serial? || !allowed([]) {
      ClearExcludes(kind, allowed);
    } else {
      var r := TwoEmptiesBothSend(kind, allowed);
      var n := SecondSendTouches(Init(kind), r.steps);
      NotAlways(kind, allowed, Untouchable, r.steps[..n]);
    }
  }
}
