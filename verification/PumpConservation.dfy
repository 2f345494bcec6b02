/**
  Exactly when no pop blocks, when the bytes add up, and when the output is a prefix of the
  input.

  With empty messages, on every kind of connection but the serial port, the handler of a
  finished send and a caller in startWrite can both take `current` for free.  Then the pop of
  the one can empty the queue under the other, and the handler can clear a message that is
  already in flight.  What never happens, whatever is written, is that more bytes go out than
  came in.
 */
module PumpConservation {
  import opened Streams
  import opened PumpCore
  import opened Pump
  import opened PumpTheorems
  import opened PumpRuns
  import opened PumpExclusion

  // ---------------------------------------------------------------------------
  // Pops.

  /** Two callers write an empty message each.  The second has found its message queued when
      the handler of the first one's send pops it. */
  lemma TwoEmptiesBlockAPop(kind: Kind, allowed: Message -> bool) returns (r: Trace)
    requires !kind.Serial? && allowed([])
    ensures r.Ok() && r.kind == kind && r.allowed == allowed
    ensures PcOf(r.end, 2) == Inside && r.end.core.section.Popping? && r.end.core.queue == []
  {
    r := EmptySentFirst(kind, allowed, []);
    r := FindsQueued(r, 2);
    r := HandlerPops(r);
  }

  /** The handler of an empty send, up to its pop of the one message queued. */
  lemma HandlerPops(r: Trace) returns (r': Trace)
    requires r.Ok() && PcOf(r.end, STRAND).Idle? && r.end.core.handler.NotRunning?
    requires r.end.core.current == [] && r.end.core.inFlight == [[]] && |r.end.core.queue| == 1
    ensures Moves(r, r', STRAND) && r'.end.core.section == r.end.core.section && r'.end.core.queue == []
  {
    r' := Completes(r, 0, 0);
    var c := r'.end.core.(handler := Repopping, outcomes := r.end.core.outcomes + [Sent(0, 0, true)]);
    r' := HandlesTo(r', r'.end.core.(handler := Retesting(0)));
    r' := HandlesTo(r', c);
    r' := HandlesTo(r', c.(handler := Reassigning(c.queue[0]), queue := []));
  }

  /** From the lock to the pop. */
  lemma FindsQueued(r: Trace, a: nat) returns (r': Trace)
    requires r.Ok() && PcOf(r.end, a).Locking? && r.end.owner == None && r.end.core.section.Unlocked?
    requires r.end.core.current == [] && r.end.core.queue != []
    ensures Moves(r, r', a) && PcOf(r'.end, a) == Inside && r'.end.owner == Some(a)
    ensures r'.end.core == r.end.core.(section := Popping)
  {
    var s1 := Next(r.end, Go(a));
    var s2 := s1.(core := s1.core.(section := TestingQueue));
    var s3 := s1.(core := s1.core.(section := Popping));
    InsideLock(s1, a, s2.core);
    InsideLock(s2, a, s3.core);
    ThreeGos(r.end, s1, s2, s3, a);
    r' := Append(r, Gos(a, 3));
  }

  /** Pops never block on a serial port; elsewhere, exactly when no message is empty. */
  lemma NeverStuckIffNoEmptyMessage(kind: Kind, allowed: Message -> bool)
    ensures Always(kind, allowed, NeverStuck) <==> kind.Serial? || !allowed([])
  {
    if kind.Serial? || !allowed([]) {
      forall steps: seq<Step> | Legal(Init(kind), steps) && Writes(steps, allowed)
        ensures NeverStuck(Exec(Init(kind), steps))
      {
        ClearOf(kind, allowed, steps);
        PopsNeverBlock(kind, steps);
      }
    } else {
      var r := TwoEmptiesBlockAPop(kind, allowed);
      assert !Enabled(r.end, Go(2));
      NotAlways(kind, allowed, NeverStuck, r.steps);
    }
  }

  // ---------------------------------------------------------------------------
  // No message makes more bytes go out than came in.

  ghost function InHands(c: Core): nat {
    (if c.section.Assigning? then |c.section.hand| else 0)
    + (if c.handler.Reassigning? then |c.handler.next| else 0)
    + (if Loaded(c) then |c.current| else 0)
  }

  ghost predicate NotMore(c: Core) {
    |Flatten(c.written)| + |Flatten(c.inFlight)| + InHands(c) + |Flatten(c.queue)| <= |Flatten(c.accepted)|
  }

  lemma RemovedBytes(q: seq<Message>, i: nat)
    requires i < |q|
    ensures |Flatten(RemoveAt(q, i))| + |q[i]| == |Flatten(q)|
  {
    FlattenAppend(q[..i], q[i + 1..]);
    FlattenAppend(q[..i], [q[i]] + q[i + 1..]);
    FlattenCons(q[i], q[i + 1..]);
    assert q == q[..i] + ([q[i]] + q[i + 1..]);
  }

  lemma EventKeepsNotMore(c: Core, e: Event)
    requires NotMore(c) && Can(c, e)
    ensures NotMore(After(c, e))
  {
    match e
    case Push(m) =>
      FlattenSnoc(c.queue, m);
      FlattenSnoc(c.accepted, m);
    case Hold => HoldKeepsNotMore(c);
    case Handle => HandleKeepsNotMore(c);
    case Complete(i, w) => CompleteKeepsNotMore(c, i, w);
    case Fail(i) => RemovedBytes(c.inFlight, i);
    case Enter =>
  }

  lemma HandleKeepsNotMore(c: Core)
    requires NotMore(c) && Can(c, Handle)
    ensures NotMore(AfterHandle(c))
  {
    HandlerGainsNothing(c);
    if c.handler.Repopping? {
      HeadBytes(c.queue);
    }
  }

  lemma HandlerGainsNothing(c: Core)
    requires Can(c, Handle)
    ensures var c' := AfterHandle(c);
            && c'.written == c.written && c'.inFlight == c.inFlight && c'.accepted == c.accepted
            && c'.queue == (if c.handler.Repopping? then c.queue[1..] else c.queue)
            && InHands(c') <= InHands(c) + if c.handler.Repopping? then |c.queue[0]| else 0
  {
  }

  lemma CompleteKeepsNotMore(c: Core, i: nat, w: nat)
    requires NotMore(c) && Can(c, Complete(i, w))
    ensures NotMore(After(c, Complete(i, w)))
  {
    FlattenSnoc(c.written, c.inFlight[i][..w]);
    RemovedBytes(c.inFlight, i);
  }

  lemma HoldKeepsNotMore(c: Core)
    requires NotMore(c) && Can(c, Hold)
    ensures NotMore(AfterHold(c))
  {
    HolderGainsNothing(c);
    if c.section.Popping? {
      HeadBytes(c.queue);
    } else if c.section.Sending? {
      FlattenSnoc(c.inFlight, c.current);
    }
  }

  lemma HolderGainsNothing(c: Core)
    requires Can(c, Hold)
    ensures var c' := AfterHold(c);
            && c'.written == c.written && c'.accepted == c.accepted
            && c'.inFlight == (if c.section.Sending? then c.inFlight + [c.current] else c.inFlight)
            && c'.queue == (if c.section.Popping? then c.queue[1..] else c.queue)
            && InHands(c') == InHands(c) + (if c.section.Popping? then |c.queue[0]| else 0)
                              - (if c.section.Sending? then |c.current| else 0)
  {
  }

  lemma HeadBytes(q: seq<Message>)
    requires q != []
    ensures |q[0]| + |Flatten(q[1..])| == |Flatten(q)|
  {
  }

  lemma {:induction false} RunKeepsNotMore(s: State, steps: seq<Step>)
    requires NotMore(s.core) && Legal(s, steps)
    ensures NotMore(Exec(s, steps).core)
    decreases |steps|
  {
    if steps != [] {
      var s' := Next(s, steps[0]);
      if s'.core != s.core {
        EventKeepsNotMore(s.core, EventOf(s, steps[0]));
      }
      RunKeepsNotMore(s', steps[1..]);
    }
  }

  /** On every kind of connection, for any messages: no byte goes out twice on balance. */
  lemma NeverMoreOutThanIn(kind: Kind, steps: seq<Step>)
    requires Legal(Init(kind), steps)
    ensures var c := Exec(Init(kind), steps).core; |Flatten(c.written)| <= |Flatten(c.accepted)|
  {
    RunKeepsNotMore(Init(kind), steps);
  }

  /** No more sends than messages: each send follows a pop of its own. */
  ghost predicate CountOk(c: Core) {
    |c.written| + |c.inFlight| + One(c.section.Assigning? || Loaded(c)) + |c.queue| <= |c.accepted|
  }

  lemma EventKeepsCount(c: Core, e: Event)
    requires CountOk(c) && Can(c, e)
    ensures CountOk(After(c, e))
  {
  }

  lemma {:induction false} RunKeepsCount(s: State, steps: seq<Step>)
    requires Legal(s, steps) && CountOk(s.core)
    ensures CountOk(Exec(s, steps).core)
    decreases |steps|
  {
    if steps != [] {
      var s' := Next(s, steps[0]);
      if s'.core != s.core {
        EventKeepsCount(s.core, EventOf(s, steps[0]));
      }
      RunKeepsCount(s', steps[1..]);
    }
  }

  /** Where nothing is written nothing is accepted. */
  lemma {:induction false} NothingAccepted(s: State, steps: seq<Step>, allowed: Message -> bool)
    requires Legal(s, steps) && Writes(steps, allowed) && forall m :: !allowed(m)
    requires s.core.accepted == [] && forall a: nat :: !PcOf(s, a).Pushing?
    ensures Exec(s, steps).core.accepted == []
    decreases |steps|
  {
    if steps != [] {
      assert !steps[0].Begin?;
      OthersStay(s, steps[0]);
      PushAccepts(s, steps[0]);
      NothingAccepted(Next(s, steps[0]), steps[1..], allowed);
    }
  }

  lemma NothingWrittenNothingHeld(kind: Kind, steps: seq<Step>, allowed: Message -> bool)
    requires Legal(Init(kind), steps) && Writes(steps, allowed) && forall m :: !allowed(m)
    ensures var c := Exec(Init(kind), steps).core; c.queue == [] && c.inFlight == []
  {
    NothingAccepted(Init(kind), steps, allowed);
    RunKeepsCount(Init(kind), steps);
  }

  // ---------------------------------------------------------------------------
  // No byte comes from nowhere.

  ghost predicate Made(m: Message, of: byte -> bool) {
    forall i :: 0 <= i < |m| ==> of(m[i])
  }

  ghost predicate AllMade(ms: seq<Message>, of: byte -> bool) {
    forall i :: 0 <= i < |ms| ==> Made(ms[i], of)
  }

  lemma {:induction false} FlattenMade(ms: seq<Message>, of: byte -> bool)
    requires AllMade(ms, of)
    ensures Made(Flatten(ms), of)
  {
    if ms != [] {
      assert Made(ms[0], of);
      assert AllMade(ms[1..], of) by {
        assert forall i :: 0 <= i < |ms| - 1 ==> ms[1..][i] == ms[i + 1];
      }
      FlattenMade(ms[1..], of);
    }
  }

  ghost predicate CoreMade(c: Core, of: byte -> bool) {
    && AllMade(c.queue, of) && AllMade(c.inFlight, of) && AllMade(c.written, of) && AllMade(c.accepted, of)
    && Made(c.current, of)
    && (c.section.Assigning? ==> Made(c.section.hand, of))
    && (c.handler.Reassigning? ==> Made(c.handler.next, of))
  }

  ghost predicate PushesMade(s: State, of: byte -> bool) {
    forall a: nat :: PcOf(s, a).Pushing? ==> Made(PcOf(s, a).msg, of)
  }

  lemma EventKeepsMade(c: Core, e: Event, of: byte -> bool)
    requires CoreMade(c, of) && Can(c, e) && (e.Push? ==> Made(e.msg, of))
    ensures CoreMade(After(c, e), of)
  {
    match e
    case Hold => HoldKeepsMade(c, of);
    case Handle => HandleKeepsMade(c, of);
    case Complete(i, w) => CompleteKeepsMade(c, i, w, of);
    case _ =>
  }

  lemma HoldKeepsMade(c: Core, of: byte -> bool)
    requires CoreMade(c, of) && Can(c, Hold)
    ensures CoreMade(AfterHold(c), of)
  {
  }

  lemma HandleKeepsMade(c: Core, of: byte -> bool)
    requires CoreMade(c, of) && Can(c, Handle)
    ensures CoreMade(AfterHandle(c), of)
  {
    match c.handler
    case Erasing(w) => assert w <= |c.current| ==> Made(c.current[w..], of);
    case Repopping => assert Made(c.queue[0], of) && AllMade(c.queue[1..], of);
    case _ =>
  }

  lemma CompleteKeepsMade(c: Core, i: nat, w: nat, of: byte -> bool)
    requires CoreMade(c, of) && Can(c, Complete(i, w))
    ensures CoreMade(After(c, Complete(i, w)), of)
  {
    assert Made(c.inFlight[i], of);
    assert Made(c.inFlight[i][..w], of);
  }

  lemma StepKeepsMade(s: State, st: Step, of: byte -> bool)
    requires CoreMade(s.core, of) && PushesMade(s, of) && Enabled(s, st)
    requires st.Begin? ==> Made(st.msg, of)
    ensures CoreMade(Next(s, st).core, of) && PushesMade(Next(s, st), of)
  {
    OthersStay(s, st);
    if Next(s, st).core != s.core {
      EventKeepsMade(s.core, EventOf(s, st), of);
    }
  }

  lemma {:induction false} RunKeepsMade(s: State, steps: seq<Step>, of: byte -> bool)
    requires CoreMade(s.core, of) && PushesMade(s, of) && Legal(s, steps) && Writes(steps, m => Made(m, of))
    ensures CoreMade(Exec(s, steps).core, of)
    decreases |steps|
  {
    if steps != [] {
      StepKeepsMade(s, steps[0], of);
      RunKeepsMade(Next(s, steps[0]), steps[1..], of);
    }
  }

  // ---------------------------------------------------------------------------
  // Bytes.

  /** Two callers write an empty message and `m`.  The second has `m` in hand when the handler
      of the first one's send finds nothing queued and decides to clear `current`; it does so
      once `m` is in flight. */
  lemma MessageClearedInFlight(kind: Kind, allowed: Message -> bool, m: Message) returns (r: Trace)
    requires !kind.Serial? && allowed([]) && allowed(m)
    ensures r.Ok() && r.kind == kind && r.allowed == allowed && 1 in r.callers
    ensures r.end.core == EMPTY.(handler := ResettingFlag, inProgress := true, inFlight := [m], written := [[]],
                                 accepted := [[], m], taken := [[], m], outcomes := [Sent(0, 0, false)])
    ensures r.end.kind == kind && r.end.run == Init(kind).run && !r.end.unkicked && r.end.owner == None
    ensures PcOf(r.end, STRAND) == Handling && PcOf(r.end, 1) == Idle
  {
    r := EmptySentFirst(kind, allowed, m);
    r := Takes(r, 2, m);
    r := HandlerFindsNothing(r);
    r := SendsHand(r, 2, m);
    r := Handles(r);
  }

  /** The handler of an empty send, up to its decision to clear `current`. */
  lemma HandlerFindsNothing(r: Trace) returns (r': Trace)
    requires r.Ok() && PcOf(r.end, STRAND).Idle? && r.end.core.handler.NotRunning?
    requires r.end.core.current == [] && r.end.core.inFlight == [[]] && r.end.core.queue == []
    ensures Moves(r, r', STRAND) && PcOf(r'.end, STRAND) == Handling && r'.end.owner == r.end.owner
    ensures r'.end.core == r.end.core.(handler := Clearing, inFlight := [], written := r.end.core.written + [[]],
                                       outcomes := r.end.core.outcomes + [Sent(0, 0, false)])
  {
    r' := Completes(r, 0, 0);
    r' := HandlesTo(r', r'.end.core.(handler := Retesting(0)));
    r' := Handles(r');
  }

  /** Then the send of `m` reports `w` bytes, what was left of it is gone, and `m'` is sent
      whole. */
  lemma RestIsSkipped(kind: Kind, allowed: Message -> bool, m: Message, w: nat, m': Message) returns (r: Trace)
    requires !kind.Serial? && allowed([]) && allowed(m) && allowed(m') && w <= |m|
    ensures r.Ok() && r.kind == kind && r.allowed == allowed
    ensures r.end.core.written == [[], m[..w], m'] && r.end.core.accepted == [[], m, m']
  {
    r := RestIsLost(kind, allowed, m, w);
    r := Arrives(r, 1, m');
    r := Sends(r, 1, m');
    r := Tests(r, STRAND);
    assert r.end.core.inFlight == [m'] && m'[..|m'|] == m';
    r := Completes(r, 0, |m'|);
  }

  lemma RestIsLost(kind: Kind, allowed: Message -> bool, m: Message, w: nat) returns (r: Trace)
    requires !kind.Serial? && allowed([]) && allowed(m) && w <= |m|
    ensures r.Ok() && r.kind == kind && r.allowed == allowed && 1 in r.callers
    ensures r.end.core == EMPTY.(written := [[], m[..w]], accepted := [[], m], taken := [[], m],
                                 outcomes := [Sent(0, 0, false), Sent(0, w, false)])
    ensures r.end.kind == kind && r.end.run && !r.end.unkicked && r.end.owner == None
    ensures PcOf(r.end, STRAND) == TestingFlag && PcOf(r.end, 1) == Idle
  {
    r := MessageClearedInFlight(kind, allowed, m);
    r := Handles(r);
    r := Tests(r, STRAND);
    r := Looks(r, STRAND);
    r := Finishes(r, 0, w);
    assert RemoveAt([m], 0) == [] && [[]] + [m[..w]] == [[], m[..w]];
    r := Handles(r);
  }

  ghost predicate OnlyEmpty(allowed: Message -> bool) {
    forall m :: allowed(m) ==> m == []
  }

  lemma EmptyAddsUp(kind: Kind, allowed: Message -> bool, steps: seq<Step>)
    requires OnlyEmpty(allowed) && Legal(Init(kind), steps) && Writes(steps, allowed)
    ensures BytesAddUp(Exec(Init(kind), steps))
  {
    WritesWeaken(steps, allowed, m => Made(m, Never));
    RunKeepsMade(Init(kind), steps, Never);
    MadeOfNothingAddsUp(Exec(Init(kind), steps));
  }

  lemma MadeOfNothingAddsUp(s: State)
    requires CoreMade(s.core, Never)
    ensures BytesAddUp(s)
  {
    var c := s.core;
    MadeOfNothing(c.written);
    MadeOfNothing(c.queue);
    MadeOfNothing(c.accepted);
    assert |c.current| > 0 ==> Never(c.current[0]);
    assert Rest(c) == [];
    assert AllMade(Hand(c), Never);
    MadeOfNothing(Hand(c));
  }

  predicate Never(b: byte) {
    false
  }

  lemma MadeOfNothing(ms: seq<Message>)
    requires AllMade(ms, Never)
    ensures Flatten(ms) == []
  {
    FlattenMade(ms, Never);
    assert |Flatten(ms)| > 0 ==> Never(Flatten(ms)[0]);
  }

  /** The bytes add up on a serial port; elsewhere, exactly when no message is empty or there
      are no bytes at all. */
  lemma BytesAddUpIffNoEmptyMessage(kind: Kind, allowed: Message -> bool)
    ensures Always(kind, allowed, BytesAddUp) <==> kind.Serial? || !allowed([]) || OnlyEmpty(allowed)
  {
    if kind.Serial? || !allowed([]) || OnlyEmpty(allowed) {
      forall steps: seq<Step> | Legal(Init(kind), steps) && Writes(steps, allowed)
        ensures BytesAddUp(Exec(Init(kind), steps))
      {
        if OnlyEmpty(allowed) {
          EmptyAddsUp(kind, allowed, steps);
        } else {
          ClearOf(kind, allowed, steps);
          ByteConservation(kind, steps);
        }
      }
    } else {
      var m :| allowed(m) && m != [];
      var r := MessageClearedInFlight(kind, allowed, m);
      StreamOf([], m);
      NotAlways(kind, allowed, BytesAddUp, r.steps);
    }
  }

  lemma StreamOf(a: Message, b: Message)
    ensures Flatten([a, b]) == a + b && Flatten([a]) == a && Flatten([]) == []
  {
    FlattenOne(a);
    FlattenOne(b);
    assert [a, b][1..] == [b];
  }

  // ---------------------------------------------------------------------------
  // The output against the input.

  /** All the bytes that may be written are the same. */
  ghost predicate OneByte(allowed: Message -> bool) {
    forall m, m', i, j :: allowed(m) && allowed(m') && 0 <= i < |m| && 0 <= j < |m'| ==> m[i] == m'[j]
  }

  lemma SameBytesArePrefix(kind: Kind, allowed: Message -> bool, steps: seq<Step>)
    requires OneByte(allowed) && Legal(Init(kind), steps) && Writes(steps, allowed)
    ensures OutputIsPrefix(Exec(Init(kind), steps))
  {
    var all: byte -> bool := b => exists m, i :: allowed(m) && 0 <= i < |m| && m[i] == b;
    assert forall m :: allowed(m) ==> Made(m, all);
    WritesWeaken(steps, allowed, m => Made(m, all));
    RunKeepsMade(Init(kind), steps, all);
    var c := Exec(Init(kind), steps).core;
    FlattenMade(c.written, all);
    FlattenMade(c.accepted, all);
    NeverMoreOutThanIn(kind, steps);
    var w, a := Flatten(c.written), Flatten(c.accepted);
    forall i | 0 <= i < |w|
      ensures w[i] == a[i]
    {
      assert all(w[i]) && all(a[i]);
    }
  }

  /** Where two different bytes may be written, some message can be cut before a byte that
      another allowed message does not begin with. */
  lemma DifferentBytes(allowed: Message -> bool) returns (m: Message, w: nat, m': Message)
    requires !OneByte(allowed)
    ensures allowed(m) && allowed(m') && w < |m| && m' != [] && m'[0] != m[w]
  {
    var m1, m2, i, j :| allowed(m1) && allowed(m2) && 0 <= i < |m1| && 0 <= j < |m2| && m1[i] != m2[j];
    m' := m1;
    if m1[0] != m1[i] {
      m, w := m1, i;
    } else {
      m, w := m2, j;
    }
  }

  lemma NotAPrefix(m: Message, w: nat, m': Message)
    requires w < |m| && m' != [] && m'[0] != m[w]
    ensures !(Flatten([[], m[..w], m']) <= Flatten([[], m, m']))
  {
    StreamOf(m[..w], m');
    StreamOf(m, m');
    FlattenCons([], [m[..w], m']);
    FlattenCons([], [m, m']);
    assert [[]] + [m[..w], m'] == [[], m[..w], m'] && [[]] + [m, m'] == [[], m, m'];
    var out, in_ := Flatten([[], m[..w], m']), Flatten([[], m, m']);
    assert out == m[..w] + m' && in_ == m + m';
    assert out[w] == m'[0] && in_[w] == m[w];
  }

  /** The output is a prefix of the input on a serial port; elsewhere, exactly when no message
      is empty or all bytes are alike. */
  lemma OutputIsPrefixIffNoEmptyMessage(kind: Kind, allowed: Message -> bool)
    ensures Always(kind, allowed, OutputIsPrefix) <==> kind.Serial? || !allowed([]) || OneByte(allowed)
  {
    if kind.Serial? || !allowed([]) || OneByte(allowed) {
      forall steps: seq<Step> | Legal(Init(kind), steps) && Writes(steps, allowed)
        ensures OutputIsPrefix(Exec(Init(kind), steps))
      {
        if OneByte(allowed) {
          SameBytesArePrefix(kind, allowed, steps);
        } else {
          ClearOf(kind, allowed, steps);
          ByteConservation(kind, steps);
        }
      }
    } else {
      var m, w, m' := DifferentBytes(allowed);
      var r := RestIsSkipped(kind, allowed, m, w, m');
      NotAPrefix(m, w, m');
      NotAlways(kind, allowed, OutputIsPrefix, r.steps);
    }
  }
}
