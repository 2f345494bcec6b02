/**
  What depends on every message being non-empty, on all kinds of connection alike: that
  messages keep their boundaries, and that the trap closes exactly on a fatal completion.

  An empty message that the handler takes out of the queue leaves `current` empty, and the
  startWrite that follows takes the next message: the empty one is never sent.  And the
  failed send of an empty message stops the pipeline with nothing left in `current`.
 */
module PumpBoundaries {
  import opened Streams
  import opened PumpCore
  import opened Pump
  import opened PumpTheorems
  import opened PumpRuns
  import opened PumpConservation

  // ---------------------------------------------------------------------------
  // Message boundaries.

  /** The handler of the whole message in flight takes up the next one, and the strand comes
      to startWrite. */
  lemma Refills(r: Trace) returns (r': Trace)
    requires r.Ok() && Resting(r.end) && |r.end.core.inFlight| == 1 && r.end.core.queue != []
    requires |r.end.core.current| == |r.end.core.inFlight[0]|
    ensures Moves(r, r', STRAND) && (r.Full() ==> r'.Full()) && r'.end.owner == None
    ensures PcOf(r'.end, STRAND) == TestingFlag
    ensures r'.end.core == Refilled(r.end.core)
  {
    r' := HandlerRefills(r);
    r' := Handles(r');
    r' := Restarts(r');
  }

  function Refilled(c: Core): Core
    requires |c.inFlight| == 1 && c.queue != []
  {
    c.(inProgress := false, current := c.queue[0], queue := c.queue[1..], inFlight := [],
       taken := c.taken + [c.queue[0]], written := c.written + [c.inFlight[0]],
       outcomes := c.outcomes + [Sent(|c.current|, |c.inFlight[0]|, true)])
  }

  lemma HandlerRefills(r: Trace) returns (r': Trace)
    requires r.Ok() && Resting(r.end) && |r.end.core.inFlight| == 1 && r.end.core.queue != []
    requires |r.end.core.current| == |r.end.core.inFlight[0]|
    ensures Moves(r, r', STRAND) && (r.Full() ==> r'.Full()) && r'.end.owner == None
    ensures PcOf(r'.end, STRAND) == Handling
    ensures r'.end.core == Refilled(r.end.core).(handler := ResettingFlag, inProgress := r.end.core.inProgress)
  {
    var m := r.end.core.inFlight[0];
    assert m[..|m|] == m && RemoveAt(r.end.core.inFlight, 0) == [];
    r' := Completes(r, 0, |m|);
    r' := HandlesTo(r', r'.end.core.(handler := Retesting(|m|)));
    r' := PopsNext(r', |m|);
  }

  lemma PopsNext(r: Trace, w: nat) returns (r': Trace)
    requires r.Ok() && PcOf(r.end, STRAND) == Handling && r.end.core.handler == Retesting(w) && r.end.core.queue != []
    ensures Moves(r, r', STRAND) && (r.Full() ==> r'.Full()) && r'.end.owner == r.end.owner
    ensures PcOf(r'.end, STRAND) == Handling
    ensures var c := r.end.core;
            r'.end.core == c.(handler := ResettingFlag, current := c.queue[0], queue := c.queue[1..],
                              taken := c.taken + [c.queue[0]], outcomes := c.outcomes + [Sent(|c.current|, w, true)])
  {
    var c := r.end.core;
    var c1 := c.(handler := Repopping, outcomes := c.outcomes + [Sent(|c.current|, w, true)]);
    var c2 := c1.(handler := Reassigning(c.queue[0]), queue := c.queue[1..]);
    r' := HandlesTo(r, c1);
    r' := HandlesTo(r', c2);
    r' := HandlesTo(r', c2.(handler := ResettingFlag, current := c.queue[0], taken := c.taken + [c.queue[0]]));
  }

  /** `m` is in flight while an empty message and `m` are written.  Both sends of `m` report
      the full size, and the empty message is skipped. */
  lemma EmptyIsSkipped(kind: Kind, allowed: Message -> bool, m: Message) returns (r: Trace)
    requires allowed([]) && allowed(m)
    ensures r.Full() && r.kind == kind && r.allowed == allowed
    ensures r.end.core.written == [m, m] && r.end.core.accepted == [m, [], m]
  {
    r := OneInFlight(kind, allowed, m);
    r := WritesInVain(r, []);
    r := WritesInVain(r, m);
    r := Refills(r);
    r := Tests(r, STRAND);
    r := Sends(r, STRAND, m);
    assert m[..|m|] == m;
    r := Completes(r, 0, |m|);
  }

  lemma OnlyEmptyKeepsBoundaries(kind: Kind, allowed: Message -> bool, steps: seq<Step>)
    requires OnlyEmpty(allowed) && Legal(Init(kind), steps) && Writes(steps, allowed)
    ensures KeepsBoundaries(Exec(Init(kind), steps))
    ensures Exec(Init(kind), steps).core.written <= Exec(Init(kind), steps).core.accepted
  {
    WritesWeaken(steps, allowed, m => Made(m, Never));
    RunKeepsMade(Init(kind), steps, Never);
    RunKeepsCount(Init(kind), steps);
    var c := Exec(Init(kind), steps).core;
    forall i | 0 <= i < |c.written|
      ensures c.written[i] == c.accepted[i]
    {
      MadeOfNever(c.written[i]);
      MadeOfNever(c.accepted[i]);
    }
  }

  lemma MadeOfNever(m: Message)
    requires Made(m, Never)
    ensures m == []
  {
    assert |m| > 0 ==> Never(m[0]);
  }

  /** Every kind of connection keeps message boundaries exactly when no message is empty, or
      none is anything else. */
  lemma BoundariesIffNoEmptyMessage(kind: Kind, allowed: Message -> bool)
    ensures Always(kind, allowed, KeepsBoundaries) <==> !allowed([]) || OnlyEmpty(allowed)
  {
    if !allowed([]) || OnlyEmpty(allowed) {
      forall steps: seq<Step> | Legal(Init(kind), steps) && Writes(steps, allowed)
        ensures KeepsBoundaries(Exec(Init(kind), steps))
      {
        if OnlyEmpty(allowed) {
          OnlyEmptyKeepsBoundaries(kind, allowed, steps);
        } else {
          WritesWeaken(steps, allowed, NonEmpty);
          DatagramsMatchMessages(kind, steps);
        }
      }
    } else {
      var m :| allowed(m) && m != [];
      var r := EmptyIsSkipped(kind, allowed, m);
      assert r.end.core.written[1] == m && r.end.core.accepted[1] == [];
      NotAlways(kind, allowed, KeepsBoundaries, r.steps);
    }
  }

  /** Whenever every successful send reports the full size, the datagrams sent are a prefix of
      the messages accepted. */
  ghost predicate AlwaysWholeDatagrams(kind: Kind, allowed: Message -> bool) {
    forall steps: seq<Step> ::
      Legal(Init(kind), steps) && Writes(steps, allowed) && FullSends(Init(kind), steps) ==>
        Exec(Init(kind), steps).core.written <= Exec(Init(kind), steps).core.accepted
  }

  /** That holds under the same condition: an empty datagram queued behind another is lost. */
  lemma WholeDatagramsIffNoEmptyMessage(kind: Kind, allowed: Message -> bool)
    ensures AlwaysWholeDatagrams(kind, allowed) <==> !allowed([]) || OnlyEmpty(allowed)
  {
    if !allowed([]) || OnlyEmpty(allowed) {
      forall steps: seq<Step>
        | Legal(Init(kind), steps) && Writes(steps, allowed) && FullSends(Init(kind), steps)
        ensures Exec(Init(kind), steps).core.written <= Exec(Init(kind), steps).core.accepted
      {
        if OnlyEmpty(allowed) {
          OnlyEmptyKeepsBoundaries(kind, allowed, steps);
        } else {
          WritesWeaken(steps, allowed, NonEmpty);
          DatagramsArePrefix(kind, steps);
        }
      }
    } else {
      var m :| allowed(m) && m != [];
      var r := EmptyIsSkipped(kind, allowed, m);
      assert Legal(Init(kind), r.steps) && FullSends(Init(kind), r.steps);
      assert r.end.core.written[1] == m && r.end.core.accepted[1] == [];
    }
  }

  // ---------------------------------------------------------------------------
  // The trap.

  /** Any partial write of any message is enough: the rest of it is stuck in `current`. */
  lemma PartialWriteStalls(kind: Kind, m: Message, w: nat) returns (r: Trace)
    requires w < |m|
    ensures r.Ok() && r.kind == kind && r.allowed == NonEmpty
    ensures var c := r.end.core;
            Stalled(c) && c.current == m[w..] && c.written == [m[..w]] && c.accepted == [m] && c.queue == []
  {
    r := OneInFlight(kind, NonEmpty, m);
    assert RemoveAt([m], 0) == [];
    r := Completes(r, 0, w);
    r := Cuts(r, w);
    r := Handles(r);
  }

  lemma Cuts(r: Trace, w: nat) returns (r': Trace)
    requires r.Ok() && PcOf(r.end, STRAND) == Handling && r.end.core.handler == Completed(w) && w < |r.end.core.current|
    ensures Moves(r, r', STRAND) && PcOf(r'.end, STRAND) == Handling && r'.end.owner == r.end.owner
    ensures var c := r.end.core;
            r'.end.core == c.(handler := ResettingFlag, current := c.current[w..],
                              outcomes := c.outcomes + [Sent(|c.current|, w, c.queue != [])])
  {
    var c := r.end.core;
    var c1 := c.(handler := Erasing(w), outcomes := c.outcomes + [Sent(|c.current|, w, c.queue != [])]);
    r' := HandlesTo(r, c1);
    r' := HandlesTo(r', c1.(handler := ResettingFlag, current := c.current[w..]));
  }

  /** The failed send of an empty message. */
  lemma EmptySendFails(kind: Kind, allowed: Message -> bool) returns (r: Trace)
    requires allowed([])
    ensures r.Ok() && r.kind == kind && r.allowed == allowed && Resting(r.end)
    ensures r.end.core.inFlight == [] && r.end.core.current == [] && r.end.core.outcomes == [Failed]
    ensures r.end.core.written == [] && r.end.core.accepted == [[]]
  {
    r := OneInFlight(kind, allowed, []);
    r := Fails(r);
  }

  /** On every kind of connection: stalled means a fatal completion, and the other way round,
      exactly when no message is empty. */
  lemma StallsIffFatalExactly(kind: Kind, allowed: Message -> bool)
    ensures Always(kind, allowed, StallsIffFatal) <==> !allowed([])
  {
    if allowed([]) {
      var r := EmptySendFails(kind, allowed);
      FailedIsFatal();
      NotAlways(kind, allowed, StallsIffFatal, r.steps);
    } else {
      forall steps: seq<Step> | Legal(Init(kind), steps) && Writes(steps, allowed)
        ensures StallsIffFatal(Exec(Init(kind), steps))
      {
        WritesWeaken(steps, allowed, NonEmpty);
        StalledIffFatalCompletion(kind, steps);
      }
    }
  }

  lemma FailedIsFatal()
    ensures AnyFatal([Failed])
  {
    assert Failed in [Failed] && Fatal(Failed);
  }

  /** And so is: everything delivered means no fatal completion, and the other way round. */
  lemma DeliversIffNoneFatalExactly(kind: Kind, allowed: Message -> bool)
    ensures Always(kind, allowed, DeliversIffNoneFatal) <==> !allowed([])
  {
    if allowed([]) {
      var r := EmptySendFails(kind, allowed);
      FailedIsFatal();
      StreamOf([], []);
      NotAlways(kind, allowed, DeliversIffNoneFatal, r.steps);
    } else {
      forall steps: seq<Step> | Legal(Init(kind), steps) && Writes(steps, allowed)
        ensures DeliversIffNoneFatal(Exec(Init(kind), steps))
      {
        WritesWeaken(steps, allowed, NonEmpty);
        DeliveredIffNoFatalCompletion(kind, steps);
      }
    }
  }
}
