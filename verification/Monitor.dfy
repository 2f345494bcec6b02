/**
  The ring buffer as a monitor: one mutex and two condition variables, used by any
  number of threads that push and pop.  Every access to the mutex, every test of the
  predicate, the update, the release and the notification are separate steps.

  A thread's program: lock; while the predicate is false, wait on its condition variable
  (which releases the mutex, and takes it again after being woken); update; release;
  notify one waiter of the opposite kind.  Waits may also end spuriously.
 */
module Monitor {
  import opened Streams
  import opened RingBuffers

  datatype PC<T> =
    | Idle
    | Locking(op: Op<T>)
    | Testing(op: Op<T>)      // holds the mutex, first test of the predicate
    | Waiting(op: Op<T>)      // on the condition variable, mutex released
    | Woken(op: Op<T>)        // must take the mutex again
    | Retesting(op: Op<T>)    // holds the mutex again
    | Releasing(op: Op<T>)    // has updated, still holds the mutex
    | Notifying(op: Op<T>)    // mutex released, notify_one still owed

  datatype State<T> = State(log: Log<T>, mutex: Option<nat>, pcs: map<nat, PC<T>>)

  datatype Step<T> =
    | Begin(t: nat, op: Op<T>)
    | Go(t: nat)
    | Spurious(t: nat)
    | Notify(t: nat, woken: Option<nat>)

  function PcOf<T>(s: State<T>, t: nat): PC<T> {
    if t in s.pcs then s.pcs[t] else Idle
  }

  predicate Holds<T>(pc: PC<T>) {
    pc.Testing? || pc.Retesting? || pc.Releasing?
  }

  predicate Ready<T>(l: Log<T>, op: Op<T>) {
    if op.Push? then l.ring.IsNotFull() else l.ring.IsNotEmpty()
  }

  /** `w` waits on the condition variable that a finished `op` notifies. */
  predicate WaitsFor<T>(s: State<T>, w: nat, op: Op<T>) {
    PcOf(s, w).Waiting? && PcOf(s, w).op.Push? != op.Push?
  }

  ghost predicate Enabled<T>(s: State<T>, st: Step<T>) {
    match st
    case Begin(t, _) => PcOf(s, t).Idle?
    case Go(t) =>
      var pc := PcOf(s, t);
      ((pc.Locking? || pc.Woken?) && s.mutex == None) || Holds(pc)
    case Spurious(t) => PcOf(s, t).Waiting?
    case Notify(t, woken) =>
      && PcOf(s, t).Notifying?
      && match woken {
           case Some(w) => WaitsFor(s, w, PcOf(s, t).op)
           case None => forall w: nat :: !WaitsFor(s, w, PcOf(s, t).op)
         }
  }

  function Set<T>(s: State<T>, t: nat, pc: PC<T>): State<T> {
    s.(pcs := s.pcs[t := pc])
  }

  function After<T>(s: State<T>, st: Step<T>): State<T>
    requires s.log.ring.Ok()
  {
    match st
    case Begin(t, op) => Set(s, t, Locking(op))
    case Go(t) => (
      match PcOf(s, t)
      case Locking(op) => Set(s, t, Testing(op)).(mutex := Some(t))
      case Woken(op) => Set(s, t, Retesting(op)).(mutex := Some(t))
      case Testing(op) => Decide(s, t, op)
      case Retesting(op) => Decide(s, t, op)
      case Releasing(op) => Set(s, t, Notifying(op)).(mutex := None)
      case _ => s
    )
    case Spurious(t) => if PcOf(s, t).Waiting? then Set(s, t, Woken(PcOf(s, t).op)) else s
    case Notify(t, woken) =>
      var s' := Set(s, t, Idle);
      match woken
      case None => s'
      case Some(w) => if PcOf(s, w).Waiting? then Set(s', w, Woken(PcOf(s, w).op)) else s'
  }

  /** With the mutex held: update if the predicate holds, otherwise wait. */
  function Decide<T>(s: State<T>, t: nat, op: Op<T>): State<T>
    requires s.log.ring.Ok()
  {
    if Ready(s.log, op)
    then Set(s, t, Releasing(op)).(log := Do(s.log, op))
    else Set(s, t, Waiting(op)).(mutex := None)
  }

  // ---------------------------------------------------------------------------
  // Counting threads.

  datatype Tag = TakerWaiting | TakerWoken | OwesNotEmpty | PutterWaiting | PutterWoken | OwesNotFull | Other

  function TagOf<T>(pc: PC<T>): Tag {
    match pc
    case Waiting(op) => if op.Pop? then TakerWaiting else PutterWaiting
    case Woken(op) => if op.Pop? then TakerWoken else PutterWoken
    case Retesting(op) => if op.Pop? then TakerWoken else PutterWoken
    case Releasing(op) => if op.Pop? then OwesNotFull else OwesNotEmpty
    case Notifying(op) => if op.Pop? then OwesNotFull else OwesNotEmpty
    case _ => Other
  }

  ghost function Tagged<T>(pcs: map<nat, PC<T>>, g: Tag): set<nat> {
    set t | t in pcs && TagOf(pcs[t]) == g
  }

  ghost function Count<T>(s: State<T>, g: Tag): nat {
    |Tagged(s.pcs, g)|
  }

  /** How moving thread `t` to `pc` changes the number of threads tagged `g`. */
  function Change<T>(s: State<T>, t: nat, pc: PC<T>, g: Tag): int {
    (if TagOf(pc) == g then 1 else 0) - (if TagOf(PcOf(s, t)) == g then 1 else 0)
  }

  lemma Retag<T>(s: State<T>, t: nat, pc: PC<T>, g: Tag)
    requires g != Other
    ensures Count(Set(s, t, pc), g) == Count(s, g) + Change(s, t, pc, g)
  {
    var before, after := Tagged(s.pcs, g), Tagged(s.pcs[t := pc], g);
    assert forall u: nat :: u != t ==> (u in before <==> u in after);
    assert t in before <==> TagOf(PcOf(s, t)) == g;
    assert t in after <==> TagOf(pc) == g;
    DifferInOne(before, after, t);
  }

  lemma DifferInOne(a: set<nat>, b: set<nat>, t: nat)
    requires forall u: nat :: u != t ==> (u in a <==> u in b)
    ensures |b| - (if t in b then 1 else 0) == |a| - (if t in a then 1 else 0)
  {
    Without(a, t);
    Without(b, t);
    assert a - {t} == b - {t};
  }

  lemma Without(a: set<nat>, t: nat)
    ensures |a - {t}| == |a| - (if t in a then 1 else 0)
  {
    if t !in a {
      assert a - {t} == a;
    }
  }

  lemma RetagAll<T>(s: State<T>, t: nat, pc: PC<T>)
    ensures Count(Set(s, t, pc), TakerWaiting) == Count(s, TakerWaiting) + Change(s, t, pc, TakerWaiting)
    ensures Count(Set(s, t, pc), TakerWoken) == Count(s, TakerWoken) + Change(s, t, pc, TakerWoken)
    ensures Count(Set(s, t, pc), OwesNotEmpty) == Count(s, OwesNotEmpty) + Change(s, t, pc, OwesNotEmpty)
    ensures Count(Set(s, t, pc), PutterWaiting) == Count(s, PutterWaiting) + Change(s, t, pc, PutterWaiting)
    ensures Count(Set(s, t, pc), PutterWoken) == Count(s, PutterWoken) + Change(s, t, pc, PutterWoken)
    ensures Count(Set(s, t, pc), OwesNotFull) == Count(s, OwesNotFull) + Change(s, t, pc, OwesNotFull)
  {
    Retag(s, t, pc, TakerWaiting);
    Retag(s, t, pc, TakerWoken);
    Retag(s, t, pc, OwesNotEmpty);
    Retag(s, t, pc, PutterWaiting);
    Retag(s, t, pc, PutterWoken);
    Retag(s, t, pc, OwesNotFull);
  }

  /** The counts depend on the threads alone. */
  lemma SameCounts<T>(a: State<T>, b: State<T>)
    requires a.pcs == b.pcs
    ensures forall g: Tag :: Count(a, g) == Count(b, g)
  {
  }

  lemma CountPositive<T>(s: State<T>, t: nat, g: Tag)
    requires g != Other
    ensures TagOf(PcOf(s, t)) == g ==> Count(s, g) > 0
  {
    if TagOf(PcOf(s, t)) == g {
      assert t in Tagged(s.pcs, g);
    }
  }

  lemma SomeoneTagged<T>(s: State<T>, g: Tag) returns (t: nat)
    requires g != Other && Count(s, g) > 0
    ensures TagOf(PcOf(s, t)) == g
  {
    t :| t in Tagged(s.pcs, g);
  }

  // ---------------------------------------------------------------------------
  // The invariant.

  ghost predicate MutexExclusive<T>(s: State<T>) {
    forall t: nat :: Holds(PcOf(s, t)) <==> s.mutex == Some(t)
  }

  /** While a consumer waits, every unread item is covered by a consumer already
      woken or by a notification still owed. */
  ghost predicate TakersCovered<T>(s: State<T>) {
    Count(s, TakerWaiting) > 0 ==> s.log.ring.unread <= Count(s, TakerWoken) + Count(s, OwesNotEmpty)
  }

  /** The dual for producers and free slots. */
  ghost predicate PuttersCovered<T>(s: State<T>, capacity: nat) {
    Count(s, PutterWaiting) > 0 ==>
      capacity <= s.log.ring.unread + Count(s, PutterWoken) + Count(s, OwesNotFull)
  }

  ghost predicate Covered<T>(s: State<T>, capacity: nat) {
    TakersCovered(s) && PuttersCovered(s, capacity)
  }

  ghost predicate Inv<T>(s: State<T>, capacity: nat) {
    Consistent(s.log, capacity) && MutexExclusive(s) && Covered(s, capacity)
  }

  function Init<T>(slots: seq<T>): State<T> {
    State(Start(slots), None, map[])
  }

  lemma InitInv<T>(slots: seq<T>)
    ensures Inv(Init(slots), |slots|)
  {
    assert Start(slots).ring.Unread() == [];
    assert Tagged(Init(slots).pcs, TakerWaiting) == {};
    assert Tagged(Init(slots).pcs, PutterWaiting) == {};
  }

  lemma StepKeepsMutex<T>(s: State<T>, st: Step<T>)
    requires s.log.ring.Ok() && MutexExclusive(s) && Enabled(s, st)
    ensures MutexExclusive(After(s, st))
  {
    var s' := After(s, st);
    forall u: nat
      ensures Holds(PcOf(s', u)) <==> s'.mutex == Some(u)
    {
      assert Holds(PcOf(s, u)) <==> s.mutex == Some(u);
      assert Holds(PcOf(s, st.t)) <==> s.mutex == Some(st.t);
    }
  }

  /** A step that only moves one thread between states that own nothing to anyone. */
  lemma MoveKeepsCovered<T>(s: State<T>, t: nat, pc: PC<T>, s': State<T>, capacity: nat)
    requires Covered(s, capacity)
    requires s'.pcs == Set(s, t, pc).pcs && s'.log == s.log
    requires TagOf(pc) == TagOf(PcOf(s, t)) || (PcOf(s, t).Waiting? && pc == Woken(PcOf(s, t).op))
    ensures Covered(s', capacity)
  {
    RetagAll(s, t, pc);
    SameCounts(s', Set(s, t, pc));
  }

  lemma DecideKeepsCovered<T>(s: State<T>, t: nat, op: Op<T>, capacity: nat)
    requires s.log.ring.Ok() && |s.log.ring.slots| == capacity && Covered(s, capacity)
    requires PcOf(s, t) == Testing(op) || PcOf(s, t) == Retesting(op)
    ensures Covered(Decide(s, t, op), capacity)
  {
    CountPositive(s, t, TakerWoken);
    CountPositive(s, t, PutterWoken);
    var pc := if Ready(s.log, op) then Releasing(op) else Waiting(op);
    RetagAll(s, t, pc);
    SameCounts(Decide(s, t, op), Set(s, t, pc));
    if Ready(s.log, op) {
      assert Decide(s, t, op).log.ring.unread == s.log.ring.unread + if op.Push? then 1 else -1;
    } else {
      assert Decide(s, t, op).log.ring.unread == if op.Push? then capacity else 0;
    }
  }

  lemma NotifyKeepsCovered<T>(s: State<T>, t: nat, woken: Option<nat>, capacity: nat)
    requires s.log.ring.Ok() && Covered(s, capacity) && Enabled(s, Notify(t, woken))
    ensures Covered(After(s, Notify(t, woken)), capacity)
  {
    match woken
    case Some(w) => WakingKeepsCovered(s, t, w, capacity);
    case None => IdleNotifyKeepsCovered(s, t, capacity);
  }

  lemma WakingKeepsCovered<T>(s: State<T>, t: nat, w: nat, capacity: nat)
    requires s.log.ring.Ok() && Covered(s, capacity) && Enabled(s, Notify(t, Some(w)))
    ensures Covered(After(s, Notify(t, Some(w))), capacity)
  {
    var s' := Set(Set(s, t, Idle), w, Woken(PcOf(s, w).op));
    assert After(s, Notify(t, Some(w))) == s';
    if PcOf(s, t).op.Push? {
      Pays(s, t, w, OwesNotEmpty, TakerWaiting, TakerWoken);
    } else {
      Pays(s, t, w, OwesNotFull, PutterWaiting, PutterWoken);
    }
  }

  /** The notify that was owed turns into a woken thread. */
  lemma Pays<T>(s: State<T>, t: nat, w: nat, owed: Tag, waiting: Tag, woken: Tag)
    requires PcOf(s, t).Notifying? && TagOf(PcOf(s, t)) == owed
    requires PcOf(s, w).Waiting? && TagOf(PcOf(s, w)) == waiting && TagOf(Woken(PcOf(s, w).op)) == woken
    ensures var s' := Set(Set(s, t, Idle), w, Woken(PcOf(s, w).op));
            && Count(s', woken) == Count(s, woken) + 1
            && Count(s', owed) == Count(s, owed) - 1
            && Count(s', waiting) == Count(s, waiting) - 1
            && forall g: Tag :: g != Other && g != woken && g != owed && g != waiting ==> Count(s', g) == Count(s, g)
  {
    var s1 := Set(s, t, Idle);
    assert PcOf(s1, w) == PcOf(s, w);
    Retagged(s, t, Idle, owed, Other);
    Retagged(s1, w, Woken(PcOf(s, w).op), waiting, woken);
  }

  /** A thread tagged `from` becomes one tagged `to`. */
  lemma Retagged<T>(s: State<T>, t: nat, pc: PC<T>, from: Tag, to: Tag)
    requires TagOf(PcOf(s, t)) == from && TagOf(pc) == to && from != to && from != Other
    ensures forall g: Tag :: g != Other ==>
              Count(Set(s, t, pc), g) == Count(s, g) + (if g == to then 1 else 0) - (if g == from then 1 else 0)
  {
    forall g: Tag | g != Other
      ensures Count(Set(s, t, pc), g) == Count(s, g) + (if g == to then 1 else 0) - (if g == from then 1 else 0)
    {
      Retag(s, t, pc, g);
    }
  }

  /** Nobody waits for the notification. */
  lemma IdleNotifyKeepsCovered<T>(s: State<T>, t: nat, capacity: nat)
    requires s.log.ring.Ok() && Covered(s, capacity) && Enabled(s, Notify(t, None))
    ensures Covered(After(s, Notify(t, None)), capacity)
  {
    var s' := Set(s, t, Idle);
    RetagAll(s, t, Idle);
    var g := if PcOf(s, t).op.Push? then TakerWaiting else PutterWaiting;
    if Count(s', g) > 0 {
      var w := SomeoneTagged(s', g);
      assert WaitsFor(s, w, PcOf(s, t).op);
    }
  }

  lemma StepKeepsCovered<T>(s: State<T>, st: Step<T>, capacity: nat)
    requires s.log.ring.Ok() && |s.log.ring.slots| == capacity
    requires Covered(s, capacity) && Enabled(s, st)
    ensures Covered(After(s, st), capacity)
  {
    match st
    case Begin(t, op) => MoveKeepsCovered(s, t, Locking(op), After(s, st), capacity);
    case Spurious(t) => MoveKeepsCovered(s, t, Woken(PcOf(s, t).op), After(s, st), capacity);
    case Notify(t, woken) => NotifyKeepsCovered(s, t, woken, capacity);
    case Go(t) =>
      match PcOf(s, t) {
        case Locking(op) => MoveKeepsCovered(s, t, Testing(op), After(s, st), capacity);
        case Woken(op) => MoveKeepsCovered(s, t, Retesting(op), After(s, st), capacity);
        case Testing(op) => DecideKeepsCovered(s, t, op, capacity);
        case Retesting(op) => DecideKeepsCovered(s, t, op, capacity);
        case Releasing(op) => MoveKeepsCovered(s, t, Notifying(op), After(s, st), capacity);
        case _ =>
      }
  }

  lemma StepKeepsInv<T>(s: State<T>, st: Step<T>, capacity: nat)
    requires Inv(s, capacity) && Enabled(s, st)
    ensures Inv(After(s, st), capacity)
  {
    StepKeepsMutex(s, st);
    StepKeepsCovered(s, st, capacity);
    if st.Go? && (PcOf(s, st.t).Testing? || PcOf(s, st.t).Retesting?) {
      DoKeeps(s.log, PcOf(s, st.t).op, capacity);
    }
  }

  // ---------------------------------------------------------------------------
  // Runs.

  ghost predicate Legal<T>(s: State<T>, steps: seq<Step<T>>)
    decreases |steps|
  {
    steps == [] ||
    (s.log.ring.Ok() && Enabled(s, steps[0]) && Legal(After(s, steps[0]), steps[1..]))
  }

  ghost function Exec<T>(s: State<T>, steps: seq<Step<T>>): State<T>
    requires Legal(s, steps)
    decreases |steps|
  {
    if steps == [] then s else Exec(After(s, steps[0]), steps[1..])
  }

  lemma {:induction false} RunKeepsInv<T>(s: State<T>, steps: seq<Step<T>>, capacity: nat)
    requires Inv(s, capacity) && Legal(s, steps)
    ensures Inv(Exec(s, steps), capacity)
    decreases |steps|
  {
    if steps != [] {
      StepKeepsInv(s, steps[0], capacity);
      RunKeepsInv(After(s, steps[0]), steps[1..], capacity);
    }
  }

  // ---------------------------------------------------------------------------
  // What threads call is what the buffer gets.

  function Calls<T>(st: Step<T>, t: nat): seq<Op<T>> {
    if st.Begin? && st.t == t then [st.op] else []
  }

  /** The operations that thread `t` has called. */
  function Called<T>(steps: seq<Step<T>>, t: nat): seq<Op<T>> {
    if steps == [] then [] else Calls(steps[0], t) + Called(steps[1..], t)
  }

  /** The operation that thread `t` has called and that has not been carried out yet. */
  function Undone<T>(s: State<T>, t: nat): seq<Op<T>> {
    match PcOf(s, t)
    case Idle => []
    case Releasing(_) => []
    case Notifying(_) => []
    case Locking(op) => [op]
    case Testing(op) => [op]
    case Waiting(op) => [op]
    case Woken(op) => [op]
    case Retesting(op) => [op]
  }

  /** The step carries out the operation of its thread. */
  predicate Updates<T>(s: State<T>, st: Step<T>) {
    st.Go? && (PcOf(s, st.t).Testing? || PcOf(s, st.t).Retesting?) && Ready(s.log, PcOf(s, st.t).op)
  }

  function Carried<T>(s: State<T>, st: Step<T>, t: nat): seq<Op<T>> {
    if Updates(s, st) && st.t == t then [PcOf(s, t).op] else []
  }

  lemma StepCalls<T>(s: State<T>, st: Step<T>, t: nat)
    requires s.log.ring.Ok() && Enabled(s, st)
    ensures Undone(s, t) + Calls(st, t) == Carried(s, st, t) + Undone(After(s, st), t)
  {
  }

  function Pushes<T>(ops: seq<Op<T>>): seq<T> {
    if ops == [] then []
    else (if ops[0].Push? then [ops[0].item] else []) + Pushes(ops[1..])
  }

  function Pops<T>(ops: seq<Op<T>>): nat {
    if ops == [] then 0 else (if ops[0].Pop? then 1 else 0) + Pops(ops[1..])
  }

  lemma OpsCons<T>(op: Op<T>, ops: seq<Op<T>>)
    ensures Pushes([op] + ops) == (if op.Push? then [op.item] else []) + Pushes(ops)
    ensures Pops([op] + ops) == (if op.Pop? then 1 else 0) + Pops(ops)
  {
    assert ([op] + ops)[1..] == ops;
  }

  lemma StepCarries<T>(s: State<T>, st: Step<T>)
    requires s.log.ring.Ok() && Enabled(s, st)
    ensures var s' := After(s, st);
            if Updates(s, st) then
              var op := PcOf(s, st.t).op;
              && s'.log.pushed == s.log.pushed + (if op.Push? then [op.item] else [])
              && |s'.log.popped| == |s.log.popped| + (if op.Pop? then 1 else 0)
            else s'.log == s.log
  {
  }

  /** Each thread's calls are carried out in its own order, each once and none but those; only
      the call that a thread has not got past its update may be missing. */
  lemma {:induction false} CallsAreCarriedOut<T>(s: State<T>, steps: seq<Step<T>>) returns (book: seq<(nat, Op<T>)>)
    requires Legal(s, steps)
    ensures Exec(s, steps).log.pushed == s.log.pushed + Pushes(Entries(book))
    ensures |Exec(s, steps).log.popped| == |s.log.popped| + Pops(Entries(book))
    ensures forall t: nat :: Undone(s, t) + Called(steps, t) == By(book, t) + Undone(Exec(s, steps), t)
    decreases |steps|
  {
    if steps == [] {
      return [];
    }
    var st, s' := steps[0], After(s, steps[0]);
    var rest := CallsAreCarriedOut(s', steps[1..]);
    StepCarries(s, st);
    book := rest;
    if Updates(s, st) {
      var op := PcOf(s, st.t).op;
      book := [(st.t, op)] + rest;
      ByCons(book[0], rest, 0);
      OpsCons(op, Entries(rest));
      AppendAssociative(s.log.pushed, if op.Push? then [op.item] else [], Pushes(Entries(rest)));
    }
    forall t: nat
      ensures Undone(s, t) + Called(steps, t) == By(book, t) + Undone(Exec(s, steps), t)
    {
      StepCalls(s, st, t);
      PassedOn(Undone(s, t), Calls(st, t), Carried(s, st, t), Undone(s', t), Called(steps[1..], t), By(rest, t),
               Undone(Exec(s, steps), t));
      BookGrows(s, st, rest, book, t);
    }
  }

  lemma BookGrows<T>(s: State<T>, st: Step<T>, rest: seq<(nat, Op<T>)>, book: seq<(nat, Op<T>)>, t: nat)
    requires book == if Updates(s, st) then [(st.t, PcOf(s, st.t).op)] + rest else rest
    ensures By(book, t) == Carried(s, st, t) + By(rest, t)
  {
    if Updates(s, st) {
      ByCons((st.t, PcOf(s, st.t).op), rest, t);
    }
  }

  /** The book holds all calls of a thread that is idle, releasing or notifying, and all but
      the last of a thread that is locking, testing or waiting. */
  predicate Booked<T(==)>(s: State<T>, t: nat, book: seq<Op<T>>, called: seq<Op<T>>) {
    var pc := PcOf(s, t);
    if pc.Idle? || pc.Releasing? || pc.Notifying? then book == called else book + [pc.op] == called
  }

  lemma UndoneIsLast<T>(s: State<T>, t: nat, book: seq<Op<T>>, called: seq<Op<T>>)
    requires [] + called == book + Undone(s, t)
    ensures Booked(s, t, book, called)
  {
    assert [] + called == called && book + [] == book;
  }

  /** From a new buffer: what has been pushed are the items of the push calls past their update,
      in the order of the book, and as many items have been popped as pop calls are past
      theirs. */
  lemma BufferGetsTheCalls<T>(slots: seq<T>, steps: seq<Step<T>>) returns (book: seq<(nat, Op<T>)>)
    requires Legal(Init(slots), steps)
    ensures var s := Exec(Init(slots), steps);
            && s.log.pushed == Pushes(Entries(book)) && |s.log.popped| == Pops(Entries(book))
            && forall t: nat :: Booked(s, t, By(book, t), Called(steps, t))
  {
    book := CallsAreCarriedOut(Init(slots), steps);
    assert [] + Pushes(Entries(book)) == Pushes(Entries(book));
    var s := Exec(Init(slots), steps);
    forall t: nat
      ensures Booked(s, t, By(book, t), Called(steps, t))
    {
      assert Undone(Init(slots), t) == [];
      UndoneIsLast(s, t, By(book, t), Called(steps, t));
    }
  }

  /** A thread is busy with the operation it called last. */
  lemma {:induction false} BusyWithLatestCall<T>(s: State<T>, steps: seq<Step<T>>, t: nat)
    requires Legal(s, steps) && !PcOf(Exec(s, steps), t).Idle?
    ensures var called := Called(steps, t);
            if called != [] then PcOf(Exec(s, steps), t).op == called[|called| - 1]
            else !PcOf(s, t).Idle? && PcOf(Exec(s, steps), t).op == PcOf(s, t).op
    decreases |steps|
  {
    if steps != [] {
      BusyWithLatestCall(After(s, steps[0]), steps[1..], t);
      if !PcOf(After(s, steps[0]), t).Idle? {
        StepKeepsOp(s, steps[0], t);
      }
    }
  }

  lemma StepKeepsOp<T>(s: State<T>, st: Step<T>, t: nat)
    requires s.log.ring.Ok() && Enabled(s, st) && !PcOf(After(s, st), t).Idle?
    ensures if Calls(st, t) != [] then PcOf(After(s, st), t).op == Calls(st, t)[0]
            else !PcOf(s, t).Idle? && PcOf(After(s, st), t).op == PcOf(s, t).op
  {
  }

  /** A thread that is inside an operation and not asleep. */
  predicate Active<T>(s: State<T>, t: nat) {
    !PcOf(s, t).Idle? && !PcOf(s, t).Waiting?
  }

  /** No lost wakeup, for any capacity, any number of threads and any interleaving: while a
      consumer waits although an item is unread, or a producer waits although a slot is free,
      some thread is awake inside the monitor. */
  lemma NoLostWakeup<T>(slots: seq<T>, steps: seq<Step<T>>, sleeper: nat)
    requires Legal(Init(slots), steps)
    ensures var s := Exec(Init(slots), steps);
            PcOf(s, sleeper).Waiting? && Ready(s.log, PcOf(s, sleeper).op) ==> exists t: nat :: Active(s, t)
  {
    InitInv(slots);
    RunKeepsInv(Init(slots), steps, |slots|);
    var s := Exec(Init(slots), steps);
    if PcOf(s, sleeper).Waiting? && Ready(s.log, PcOf(s, sleeper).op) {
      var pop := PcOf(s, sleeper).op.Pop?;
      CountPositive(s, sleeper, if pop then TakerWaiting else PutterWaiting);
      var owed := if pop then OwesNotEmpty else OwesNotFull;
      var woken := if pop then TakerWoken else PutterWoken;
      var t := SomeoneTagged(s, if Count(s, owed) > 0 then owed else woken);
      assert Active(s, t);
    }
  }

  /** The awake threads can always move: no reachable state deadlocks inside the monitor. */
  lemma AwakeThreadsCanMove<T>(slots: seq<T>, steps: seq<Step<T>>, t: nat)
    requires Legal(Init(slots), steps) && Active(Exec(Init(slots), steps), t)
    ensures var s := Exec(Init(slots), steps);
            exists st: Step<T> :: !st.Begin? && !st.Spurious? && Active(s, st.t) && Enabled(s, st)
  {
    InitInv(slots);
    RunKeepsInv(Init(slots), steps, |slots|);
    var s := Exec(Init(slots), steps);
    var pc := PcOf(s, t);
    var st: Step<T>;
    if pc.Notifying? {
      if w: nat :| WaitsFor(s, w, pc.op) {
        st := Notify(t, Some(w));
      } else {
        st := Notify(t, None);
      }
    } else if s.mutex == None || Holds(pc) {
      st := Go(t);
    } else {
      assert Holds(PcOf(s, s.mutex.value));
      st := Go(s.mutex.value);
    }
    assert Active(s, st.t) && Enabled(s, st);
  }

  /** When everything has come to rest, only consumers of an empty buffer or producers of
      a full one are still waiting, never both unless the capacity is zero, and what was
      popped is a prefix of what was pushed. */
  lemma RestMeansEmptyOrFull<T>(slots: seq<T>, steps: seq<Step<T>>)
    requires Legal(Init(slots), steps)
    requires forall t: nat :: !Active(Exec(Init(slots), steps), t)
    ensures var s := Exec(Init(slots), steps);
            && (forall t: nat :: PcOf(s, t).Waiting? && PcOf(s, t).op.Pop? ==> s.log.popped == s.log.pushed)
            && (forall t: nat :: PcOf(s, t).Waiting? && PcOf(s, t).op.Push? ==>
                 |s.log.pushed| == |s.log.popped| + |slots|)
            && s.log.popped <= s.log.pushed
  {
    InitInv(slots);
    RunKeepsInv(Init(slots), steps, |slots|);
    var s := Exec(Init(slots), steps);
    forall t: nat | PcOf(s, t).Waiting?
      ensures !Ready(s.log, PcOf(s, t).op)
    {
      NoLostWakeup(slots, steps, t);
    }
  }
}
