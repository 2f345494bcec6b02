/**
  Exactly when no wakeup is lost.

  Two things can leave a message in the queue with nobody to look at it.  The failed send of
  an empty message leaves the flag on over an empty `current`, and every later caller turns
  back at the flag.  And a write on a closed serial port enqueues without posting; opening
  the port does not make up for it.
 */
module PumpWakeup {
  import opened Streams
  import opened PumpCore
  import opened Pump
  import opened PumpTheorems
  import opened PumpRuns
  import opened PumpConservation

  /** Every state that can be reached is good, with or without failing sends on the way. */
  ghost predicate AlwaysWith(failures: bool, kind: Kind, allowed: Message -> bool, good: State -> bool) {
    forall steps: seq<Step> ::
      Legal(Init(kind), steps) && Writes(steps, allowed) && (failures || NoFailures(steps)) ==>
        good(Exec(Init(kind), steps))
  }

  lemma NotAlwaysWith(failures: bool, kind: Kind, allowed: Message -> bool, good: State -> bool, steps: seq<Step>)
    requires Legal(Init(kind), steps) && Writes(steps, allowed) && (failures || NoFailures(steps))
    requires !good(Exec(Init(kind), steps))
    ensures !AlwaysWith(failures, kind, allowed, good)
  {
  }

  /** An empty message is sent, the send fails, and another message is written. */
  lemma FailedEmptySendLosesWakeup(kind: Kind, allowed: Message -> bool) returns (r: Trace)
    requires allowed([])
    ensures r.Ok() && r.kind == kind && r.allowed == allowed
    ensures Quiet(r.end) && r.end.run && !r.end.unkicked && r.end.core.current == [] && r.end.core.queue == [[]]
  {
    r := OneInFlight(kind, allowed, []);
    r := Fails(r);
    r := WritesInVain(r, []);
  }

  /** Provided the last write found the run flag on: no wakeup is lost if and only if sends do
      not fail or messages are not empty. */
  lemma DrainedIfKickedExactly(failures: bool, kind: Kind, allowed: Message -> bool)
    ensures AlwaysWith(failures, kind, allowed, DrainedIfKicked) <==> !failures || !allowed([])
  {
    if failures && allowed([]) {
      var r := FailedEmptySendLosesWakeup(kind, allowed);
      NotAlwaysWith(failures, kind, allowed, DrainedIfKicked, r.steps);
    } else {
      forall steps: seq<Step>
        | Legal(Init(kind), steps) && Writes(steps, allowed) && (failures || NoFailures(steps))
        ensures DrainedIfKicked(Exec(Init(kind), steps))
      {
        if failures {
          WritesWeaken(steps, allowed, NonEmpty);
        }
        NoLostWakeup(kind, steps);
      }
    }
  }

  // ---------------------------------------------------------------------------
  // With the run flag on.

  /** A write while the serial port is closed, then the port is opened. */
  lemma WrittenWhileClosed(m: Message)
    ensures var steps := [Begin(1, m), Go(1), Go(1), SetRun(true)];
            && Legal(Init(Serial), steps) && Writes(steps, x => x == m) && NoFailures(steps)
            && var s := Exec(Init(Serial), steps);
               Quiet(s) && s.run && s.core.current == [] && s.core.queue == [m]
  {
    var s := Init(Serial);
    var s1 := Next(s, Begin(1, m));
    var s2 := Next(s1, Go(1));
    var s3 := Next(s2, Go(1));
    StepThen(s3, SetRun(true), []);
    StepThen(s2, Go(1), [SetRun(true)]);
    StepThen(s1, Go(1), [Go(1), SetRun(true)]);
    StepThen(s, Begin(1, m), [Go(1), Go(1), SetRun(true)]);
    assert [SetRun(true)] + [] == [SetRun(true)];
    assert [Go(1)] + [SetRun(true)] == [Go(1), SetRun(true)];
    assert [Go(1)] + [Go(1), SetRun(true)] == [Go(1), Go(1), SetRun(true)];
    assert [Begin(1, m)] + [Go(1), Go(1), SetRun(true)] == [Begin(1, m), Go(1), Go(1), SetRun(true)];
  }

  lemma NobodyWritesNothingQueued(failures: bool, kind: Kind, allowed: Message -> bool)
    requires forall m :: !allowed(m)
    ensures AlwaysWith(failures, kind, allowed, DrainedIfRunning)
  {
    forall steps: seq<Step>
      | Legal(Init(kind), steps) && Writes(steps, allowed) && (failures || NoFailures(steps))
      ensures DrainedIfRunning(Exec(Init(kind), steps))
    {
      NothingWrittenNothingHeld(kind, steps, allowed);
    }
  }

  lemma RunningDrains(failures: bool, kind: Kind, allowed: Message -> bool)
    requires !kind.Serial? && (!failures || !allowed([]))
    ensures AlwaysWith(failures, kind, allowed, DrainedIfRunning)
  {
    forall steps: seq<Step>
      | Legal(Init(kind), steps) && Writes(steps, allowed) && (failures || NoFailures(steps))
      ensures DrainedIfRunning(Exec(Init(kind), steps))
    {
      if failures {
        WritesWeaken(steps, allowed, NonEmpty);
      }
      RunningNeverSkips(kind, steps);
    }
  }

  /** At rest with the run flag on and an empty `current`, the queue is always empty, if and
      only if the connection is not a serial port, and sends do not fail or messages are not
      empty. */
  lemma DrainedIfRunningExactly(failures: bool, kind: Kind, allowed: Message -> bool)
    ensures AlwaysWith(failures, kind, allowed, DrainedIfRunning) <==>
              (forall m :: !allowed(m)) || (!kind.Serial? && (!failures || !allowed([])))
  {
    if m :| allowed(m) {
      if kind.Serial? {
        var steps := [Begin(1, m), Go(1), Go(1), SetRun(true)];
        WrittenWhileClosed(m);
        WritesWeaken(steps, x => x == m, allowed);
        NotAlwaysWith(failures, kind, allowed, DrainedIfRunning, steps);
      } else if failures && allowed([]) {
        var r := FailedEmptySendLosesWakeup(kind, allowed);
        NotAlwaysWith(failures, kind, allowed, DrainedIfRunning, r.steps);
      } else {
        RunningDrains(failures, kind, allowed);
      }
    } else {
      NobodyWritesNothingQueued(failures, kind, allowed);
    }
  }
}
