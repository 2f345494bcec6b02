/**
  The shared heart of the outbound pipeline: the queue, the current buffer, the
  in-progress flag, the sends in flight, and the two program sections that touch them:
  the part of `startWrite` that runs under the lock and the completion handler, which
  does not take the lock.  The two sections interleave freely, one instruction at a time.

  The invariants come in two kinds.  Those about who may touch `current`, about the order of
  the messages and about the bytes ask nothing of the messages: they only need that the lock
  holder is never misled by an empty `current`.  The rest hold provided every message
  written is non-empty.
 */
module PumpCore {
  import opened Streams

  /** The next instruction of the agent that holds the lock in startWrite. */
  datatype Section =
    | Unlocked
    | TestingCurrent
    | TestingQueue
    | Popping
    | Assigning(hand: Message)
    | SettingFlag
    | Sending
    | Unlocking

  /** The next instruction of the handler of a successful send. */
  datatype Handler =
    | NotRunning
    | Completed(written: nat)
    | Erasing(written: nat)
    | Retesting(written: nat)
    | Repopping
    | Reassigning(next: Message)
    | Clearing
    | ResettingFlag

  /** What a finished send amounted to, as its handler saw it. */
  datatype Outcome =
    | Sent(size: nat, written: nat, queueNotEmpty: bool)
    | Failed

  datatype Core = Core(
    section: Section,
    handler: Handler,
    queue: seq<Message>,        // tx_queue_, unread messages, oldest first
    current: Message,           // tx_current_
    inProgress: bool,           // write_in_progress_
    inFlight: seq<Message>,     // sends issued and not completed, with the bytes given to each
    // history
    accepted: seq<Message>,     // messages put into the queue, in order
    taken: seq<Message>,        // messages moved into tx_current_, in order
    written: seq<Message>,      // bytes reported written by each successful completion
    outcomes: seq<Outcome>
  )

  datatype Event =
    | Push(msg: Message)              // a caller enqueues
    | Enter                           // an agent takes the lock
    | Hold                            // the lock holder's next instruction
    | Handle                          // the handler's next instruction
    | Complete(i: nat, w: nat)        // a send succeeded: its handler starts
    | Fail(i: nat)                    // a send failed: its handler does nothing

  const QUEUE_CAPACITY: nat := 100

  const EMPTY := Core(Unlocked, NotRunning, [], [], false, [], [], [], [], [])

  predicate Can(c: Core, e: Event) {
    match e
    case Push(_) => |c.queue| < QUEUE_CAPACITY
    case Enter => c.section.Unlocked?
    case Hold => !c.section.Unlocked? && (c.section.Popping? ==> c.queue != [])
    case Handle => !c.handler.NotRunning? && (c.handler.Repopping? ==> c.queue != [])
    case Complete(i, w) => c.handler.NotRunning? && i < |c.inFlight| && w <= |c.inFlight[i]|
    case Fail(i) => i < |c.inFlight|
  }

  function RemoveAt(q: seq<Message>, i: nat): seq<Message>
    requires i < |q|
  {
    q[..i] + q[i + 1..]
  }

  function After(c: Core, e: Event): Core
    requires Can(c, e)
  {
    match e
    case Push(m) => c.(queue := c.queue + [m], accepted := c.accepted + [m])
    case Enter => c.(section := TestingCurrent)
    case Hold => AfterHold(c)
    case Handle => AfterHandle(c)
    case Complete(i, w) =>
      c.(handler := Completed(w), inFlight := RemoveAt(c.inFlight, i), written := c.written + [c.inFlight[i][..w]])
    case Fail(i) => c.(inFlight := RemoveAt(c.inFlight, i), outcomes := c.outcomes + [Failed])
  }

  function AfterHold(c: Core): Core
    requires Can(c, Hold)
  {
    match c.section
    case TestingCurrent => c.(section := if c.current == [] then TestingQueue else Unlocking)
    case TestingQueue => c.(section := if c.queue != [] then Popping else Unlocking)
    case Popping => c.(section := Assigning(c.queue[0]), queue := c.queue[1..])
    case Assigning(hand) => c.(section := SettingFlag, current := hand, taken := c.taken + [hand])
    case SettingFlag => c.(section := Sending, inProgress := true)
    case Sending => c.(section := Unlocking, inFlight := c.inFlight + [c.current])
    case Unlocking => c.(section := Unlocked)
  }

  function AfterHandle(c: Core): Core
    requires Can(c, Handle)
  {
    match c.handler
    case Completed(w) =>
      if |c.current| > w
      then c.(handler := Erasing(w), outcomes := c.outcomes + [Sent(|c.current|, w, c.queue != [])])
      else c.(handler := Retesting(w))
    case Erasing(w) => c.(handler := ResettingFlag, current := if w <= |c.current| then c.current[w..] else [])
    case Retesting(w) =>
      c.(handler := if c.queue != [] then Repopping else Clearing,
         outcomes := c.outcomes + [Sent(|c.current|, w, c.queue != [])])
    case Repopping => c.(handler := Reassigning(c.queue[0]), queue := c.queue[1..])
    case Reassigning(m) => c.(handler := ResettingFlag, current := m, taken := c.taken + [m])
    case Clearing => c.(handler := ResettingFlag, current := [])
    case ResettingFlag => c.(handler := NotRunning, inProgress := false)
  }

  // ---------------------------------------------------------------------------
  // Ownership of `current`: the send in flight, the handler that has not yet dealt with it,
  // the lock holder that is filling it and the lock holder that has filled it exclude each
  // other.  The flag plays no part in that.

  /** The handler is running and has not yet dealt with `current`. */
  predicate Pending(c: Core) {
    !c.handler.NotRunning? && !c.handler.ResettingFlag?
  }

  /** The lock holder has found `current` empty and is about to fill it. */
  predicate Choosing(c: Core) {
    c.section.TestingQueue? || c.section.Popping? || c.section.Assigning?
  }

  /** The lock holder has filled `current` and is about to send it. */
  predicate Loaded(c: Core) {
    c.section.SettingFlag? || c.section.Sending?
  }

  function One(b: bool): nat {
    if b then 1 else 0
  }

  predicate Busy(c: Core) {
    c.inFlight != [] || Pending(c) || Loaded(c)
  }

  ghost predicate Ownership(c: Core) {
    && |c.inFlight| + One(Pending(c)) + One(Loaded(c)) + One(Choosing(c)) <= 1
    && (c.inFlight != [] ==> c.inFlight == [c.current])
    && (Choosing(c) ==> c.current == [])
    && (c.section.Popping? || c.handler.Repopping? ==> c.queue != [])
    && match c.handler {
         case Completed(w) => w <= |c.current|
         case Erasing(w) => w < |c.current|
         case Retesting(w) => w == |c.current|
         case _ => true
       }
  }

  /** The lock holder is right to take an empty `current` for a free one. */
  predicate NotMisled(c: Core) {
    c.section.TestingCurrent? && c.current == [] ==> !Busy(c)
  }

  lemma KeepsOwnership(c: Core, e: Event)
    requires Ownership(c) && NotMisled(c) && Can(c, e)
    ensures Ownership(After(c, e))
  {
  }

  predicate Allowed(e: Event) {
    e.Push? ==> e.msg != []
  }

  ghost predicate MessagesOk(c: Core) {
    && (forall i :: 0 <= i < |c.queue| ==> c.queue[i] != [])
    && (c.section.Assigning? ==> c.section.hand != [])
    && (c.handler.Reassigning? ==> c.handler.next != [])
  }

  lemma KeepsMessages(c: Core, e: Event)
    requires MessagesOk(c) && Can(c, e) && Allowed(e)
    ensures MessagesOk(After(c, e))
  {
  }

  /** With non-empty messages a busy `current` is never empty, so nobody is misled. */
  predicate Guarded(c: Core) {
    Busy(c) ==> c.current != []
  }

  lemma KeepsGuard(c: Core, e: Event)
    requires MessagesOk(c) && Ownership(c) && Guarded(c) && Can(c, e)
    ensures Guarded(After(c, e))
  {
  }

  // ---------------------------------------------------------------------------
  // Conservation, message by message and byte by byte.

  /** The message popped from the queue and not yet in `current`. */
  function Hand(c: Core): seq<Message> {
    if c.section.Assigning? then [c.section.hand]
    else if c.handler.Reassigning? then [c.handler.next]
    else []
  }

  /** What remains to be sent of `current`: the handler of a finished send has not yet
      taken off the bytes that were written. */
  function Rest(c: Core): Message {
    match c.handler
    case NotRunning => c.current
    case ResettingFlag => c.current
    case Completed(w) => if w <= |c.current| then c.current[w..] else []
    case Erasing(w) => if w <= |c.current| then c.current[w..] else []
    case _ => []
  }

  /** Messages leave the queue in the order they entered it, none lost or repeated. */
  ghost predicate InOrder(c: Core) {
    c.accepted == c.taken + Hand(c) + c.queue
  }

  /** Everything reported written, then the rest of the current message, then a message in
      hand, then the queue, is exactly everything accepted. */
  ghost predicate Accounted(c: Core) {
    LeftQueue(c) + Flatten(c.queue) == Flatten(c.accepted)
  }

  ghost function LeftQueue(c: Core): seq<byte> {
    Flatten(c.written) + Rest(c) + Flatten(Hand(c))
  }

  lemma NothingInHand(c: Core)
    requires !c.section.Assigning? && !c.handler.Reassigning?
    ensures Hand(c) == [] && c.taken + Hand(c) == c.taken
  {
  }

  lemma Regroup<T>(a: seq<T>, q: seq<T>)
    requires q != []
    ensures a + [q[0]] + q[1..] == a + q
  {
  }

  lemma KeepsInOrder(c: Core, e: Event)
    requires Ownership(c) && InOrder(c) && Can(c, e)
    ensures InOrder(After(c, e))
  {
    match e
    case Push(m) => assert c.taken + Hand(c) + (c.queue + [m]) == (c.taken + Hand(c) + c.queue) + [m];
    case Hold => HoldKeepsInOrder(c);
    case Handle => HandleKeepsInOrder(c);
    case _ => assert Hand(After(c, e)) == Hand(c);
  }

  lemma HoldKeepsInOrder(c: Core)
    requires Ownership(c) && InOrder(c) && Can(c, Hold)
    ensures InOrder(AfterHold(c))
  {
    var c' := AfterHold(c);
    if c.section.Popping? {
      NothingInHand(c);
      Regroup(c.taken, c.queue);
    } else if c.section.Assigning? {
      NothingInHand(c');
    } else {
      assert Hand(c') == Hand(c);
    }
  }

  lemma HandleKeepsInOrder(c: Core)
    requires Ownership(c) && InOrder(c) && Can(c, Handle)
    ensures InOrder(AfterHandle(c))
  {
    var c' := AfterHandle(c);
    if c.handler.Repopping? {
      NothingInHand(c);
      Regroup(c.taken, c.queue);
    } else if c.handler.Reassigning? {
      NothingInHand(c');
    } else {
      assert Hand(c') == Hand(c);
    }
  }

  lemma KeepsAccount(c: Core, e: Event)
    requires Ownership(c) && Accounted(c) && Can(c, e)
    ensures Accounted(After(c, e))
  {
    match e
    case Push(m) => PushKeepsAccount(c, m);
    case Hold => HoldKeepsAccount(c);
    case Handle => HandleKeepsAccount(c);
    case Complete(i, w) => CompleteKeepsAccount(c, w);
    case _ => SameAccount(c, After(c, e));
  }

  lemma PushKeepsAccount(c: Core, m: Message)
    requires Accounted(c) && Can(c, Push(m))
    ensures Accounted(After(c, Push(m)))
  {
    var c' := After(c, Push(m));
    assert Rest(c') == Rest(c) && Hand(c') == Hand(c);
    assert LeftQueue(c') == LeftQueue(c);
    FlattenSnoc(c.queue, m);
    FlattenSnoc(c.accepted, m);
    AppendAssociative(LeftQueue(c), Flatten(c.queue), m);
  }

  lemma SameAccount(c: Core, c': Core)
    requires Accounted(c) && c'.written == c.written && c'.queue == c.queue && c'.accepted == c.accepted
    requires Rest(c') == Rest(c) && Hand(c') == Hand(c)
    ensures Accounted(c')
  {
  }

  /** A message passes from the queue to a hand. */
  lemma PoppedKeepsAccount(c: Core, c': Core, m: Message)
    requires Accounted(c) && c'.written == c.written && c'.accepted == c.accepted
    requires c.queue == [m] + c'.queue && Rest(c) == Rest(c') == [] && Hand(c) == [] && Hand(c') == [m]
    ensures Accounted(c')
  {
    FlattenCons(m, c'.queue);
    FlattenOne(m);
    ShiftLeft(Flatten(c.written), m, Flatten(c'.queue));
  }

  /** A message passes from a hand to `current`. */
  lemma AssignedKeepsAccount(c: Core, c': Core, m: Message)
    requires Accounted(c) && c'.written == c.written && c'.accepted == c.accepted && c'.queue == c.queue
    requires Rest(c) == [] && Rest(c') == m && Hand(c) == [m] && Hand(c') == []
    ensures Accounted(c')
  {
    FlattenOne(m);
    ShiftLeft(Flatten(c.written), m, Flatten(c.queue));
  }

  lemma ShiftLeft(w: seq<byte>, m: seq<byte>, q: seq<byte>)
    ensures w + [] + [] + (m + q) == w + [] + m + q == w + m + [] + q
  {
    assert w + [] == w && w + m + [] == w + m;
    AppendAssociative(w, m, q);
  }

  lemma HoldKeepsAccount(c: Core)
    requires Ownership(c) && Accounted(c) && Can(c, Hold)
    ensures Accounted(AfterHold(c))
  {
    var c' := AfterHold(c);
    if c.section.Popping? {
      PoppedKeepsAccount(c, c', c.queue[0]);
    } else if c.section.Assigning? {
      AssignedKeepsAccount(c, c', c.section.hand);
    } else {
      SameAccount(c, c');
    }
  }

  lemma HandleKeepsAccount(c: Core)
    requires Ownership(c) && Accounted(c) && Can(c, Handle)
    ensures Accounted(AfterHandle(c))
  {
    var c' := AfterHandle(c);
    HandlerMoves(c);
    if c.handler.Repopping? {
      PoppedKeepsAccount(c, c', c.queue[0]);
    } else if c.handler.Reassigning? {
      AssignedKeepsAccount(c, c', c.handler.next);
    } else {
      SameAccount(c, c');
    }
  }

  lemma HandlerMoves(c: Core)
    requires Ownership(c) && Can(c, Handle)
    ensures var c' := AfterHandle(c);
            if c.handler.Repopping? then
              Rest(c) == Rest(c') == [] && Hand(c) == [] && Hand(c') == [c.queue[0]]
              && c.queue == [c.queue[0]] + c'.queue
            else if c.handler.Reassigning? then
              Rest(c) == [] && Rest(c') == c.handler.next && Hand(c) == [c.handler.next] && Hand(c') == []
            else Rest(c') == Rest(c) && Hand(c') == Hand(c)
  {
  }

  lemma CutAnywhere(front: seq<byte>, m: seq<byte>, w: nat)
    requires w <= |m|
    ensures front + m[..w] + m[w..] == front + m
  {
  }

  lemma CompleteKeepsAccount(c: Core, w: nat)
    requires Ownership(c) && Accounted(c) && Can(c, Complete(0, w))
    ensures Accounted(After(c, Complete(0, w)))
  {
    var c' := After(c, Complete(0, w));
    assert c.inFlight[0] == c.current && Rest(c) == c.current && Rest(c') == c.current[w..] && Hand(c') == Hand(c);
    FlattenSnoc(c.written, c.current[..w]);
    CutAnywhere(Flatten(c.written), c.current, w);
    assert LeftQueue(c') == LeftQueue(c);
  }

  /** Ownership, order and account: what holds whenever nobody is misled. */
  ghost predicate Conserved(c: Core) {
    Ownership(c) && InOrder(c) && Accounted(c)
  }

  lemma KeepsConserved(c: Core, e: Event)
    requires Conserved(c) && NotMisled(c) && Can(c, e)
    ensures Conserved(After(c, e))
  {
    KeepsOwnership(c, e);
    KeepsInOrder(c, e);
    KeepsAccount(c, e);
  }

  // ---------------------------------------------------------------------------
  // Message boundaries, with non-empty messages.

  /** The bytes already reported written of the message last taken. */
  function Piece(c: Core): Message {
    if |c.written| == |c.taken| && c.written != [] then c.written[|c.written| - 1] else []
  }

  /** Every completion but the last wrote one whole message; the last wrote a prefix of its
      message, and `current` holds what is left of it. */
  ghost predicate Pieces(c: Core) {
    && |c.written| <= |c.taken| <= |c.written| + 1
    && (forall i :: 0 <= i < |c.taken| - 1 ==> c.written[i] == c.taken[i])
    && (if c.taken == [] then c.current == [] else c.taken[|c.taken| - 1] == Piece(c) + Rest(c))
    && (c.inFlight != [] || Loaded(c) ==> |c.taken| == |c.written| + 1)
    && (Pending(c) || c.current == [] ==> |c.taken| == |c.written|)
  }

  lemma KeepsPieces(c: Core, e: Event)
    requires MessagesOk(c) && Ownership(c) && Guarded(c) && Pieces(c) && Can(c, e)
    ensures Pieces(After(c, e))
  {
    match e
    case Hold => HoldKeepsPieces(c);
    case Handle => HandleKeepsPieces(c);
    case Complete(i, w) => CompleteKeepsPieces(c, i, w);
    case _ =>
  }

  lemma HoldKeepsPieces(c: Core)
    requires MessagesOk(c) && Ownership(c) && Guarded(c) && Pieces(c) && Can(c, Hold)
    ensures Pieces(AfterHold(c))
  {
    if c.section.Assigning? {
      AssignedKeepsPieces(c);
    } else if c.section.Sending? {
      assert Piece(AfterHold(c)) == Piece(c);
    } else {
      SameBuffersKeepPieces(c, AfterHold(c));
    }
  }

  lemma AssignedKeepsPieces(c: Core)
    requires MessagesOk(c) && Ownership(c) && Pieces(c) && c.section.Assigning?
    ensures Pieces(AfterHold(c))
  {
    var c' := AfterHold(c);
    assert |c.taken| == |c.written| && Rest(c) == [];
    assert Piece(c') == [] && Rest(c') == c.section.hand;
    if c.taken != [] {
      assert c.taken[|c.taken| - 1] == Piece(c) + Rest(c) == Piece(c);
    }
  }

  lemma CompleteKeepsPieces(c: Core, i: nat, w: nat)
    requires Ownership(c) && Pieces(c) && Can(c, Complete(i, w))
    ensures Pieces(After(c, Complete(i, w)))
  {
    assert c.current == c.current[..w] + c.current[w..];
    var c' := After(c, Complete(i, w));
    assert Piece(c) == [] && Rest(c) == c.current;
    assert Piece(c') == c.current[..w] && Rest(c') == c.current[w..];
  }

  lemma HandleKeepsPieces(c: Core)
    requires MessagesOk(c) && Ownership(c) && Guarded(c) && Pieces(c) && Can(c, Handle)
    ensures Pieces(AfterHandle(c))
  {
    if !c.handler.Erasing? && !c.handler.Reassigning? && !c.handler.Clearing? {
      SameBuffersKeepPieces(c, AfterHandle(c));
    }
  }

  /** Most instructions leave `current` and the histories alone. */
  lemma SameBuffersKeepPieces(c: Core, c': Core)
    requires Pieces(c)
    requires c'.current == c.current && c'.taken == c.taken && c'.written == c.written
    requires c'.inFlight == c.inFlight && (Loaded(c') ==> Loaded(c))
    requires Rest(c') == Rest(c) && (Pending(c') ==> Pending(c))
    ensures Pieces(c')
  {
    assert Piece(c') == Piece(c);
  }

  // ---------------------------------------------------------------------------
  // The flag is only ever set over a non-empty `current`, over a message about to be sent or
  // in flight, or while a handler runs.  The converse fails: it can be off during a send.

  predicate FlagWatched(c: Core) {
    c.inProgress ==> c.current != [] || Busy(c) || c.handler.ResettingFlag?
  }

  /** Only the failed send of an empty message leaves the flag on with nobody to reset it. */
  lemma KeepsFlag(c: Core, e: Event)
    requires FlagWatched(c) && Can(c, e) && (e.Fail? ==> c.current != [])
    ensures FlagWatched(After(c, e))
  {
  }

  // ---------------------------------------------------------------------------
  // The trap: `current` non-empty and nobody left to send it.

  ghost predicate Stalled(c: Core) {
    c.current != [] && c.inFlight == [] && !Pending(c) && !Loaded(c)
  }

  /** A send that failed, was partial, or whose handler found another message queued. */
  predicate Fatal(o: Outcome) {
    match o
    case Sent(size, written, queueNotEmpty) => written < size || queueNotEmpty
    case Failed => true
  }

  ghost predicate AnyFatal(os: seq<Outcome>) {
    exists o :: o in os && Fatal(o)
  }

  lemma AnyFatalSnoc(os: seq<Outcome>, o: Outcome)
    ensures AnyFatal(os + [o]) <==> AnyFatal(os) || Fatal(o)
  {
    if AnyFatal(os) {
      var x :| x in os && Fatal(x);
      assert x in os + [o];
    }
    assert o in os + [o];
  }

  ghost predicate TrapOk(c: Core) {
    && (AnyFatal(c.outcomes) <==>
         Stalled(c) || c.handler.Erasing? || c.handler.Repopping? || c.handler.Reassigning?)
    && (forall i :: 0 <= i < |c.outcomes| - 1 ==> !Fatal(c.outcomes[i]))
  }

  lemma KeepsTrap(c: Core, e: Event)
    requires MessagesOk(c) && Ownership(c) && Guarded(c) && TrapOk(c) && Can(c, e)
    ensures TrapOk(After(c, e))
  {
    var c' := After(c, e);
    if c'.outcomes != c.outcomes {
      assert !AnyFatal(c.outcomes);
      var o := c'.outcomes[|c.outcomes|];
      assert c'.outcomes == c.outcomes + [o];
      AnyFatalSnoc(c.outcomes, o);
    }
  }

  // ---------------------------------------------------------------------------

  /** What holds throughout when every message is non-empty. */
  ghost predicate CoreInv(c: Core) {
    MessagesOk(c) && Guarded(c) && Conserved(c) && Pieces(c) && FlagWatched(c) && TrapOk(c)
  }

  lemma EventKeepsInv(c: Core, e: Event)
    requires CoreInv(c) && Can(c, e) && Allowed(e)
    ensures CoreInv(After(c, e))
  {
    KeepsMessages(c, e);
    KeepsGuard(c, e);
    KeepsConserved(c, e);
    KeepsPieces(c, e);
    KeepsFlag(c, e);
    KeepsTrap(c, e);
  }
}
