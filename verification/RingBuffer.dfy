/**
  The bounded queue between callers and the connection: a circular container
  plus a count of unread items.  Popping never removes anything from the
  container, it only lowers the count; pushing on a full container overwrites
  the physically last slot.

  `Ring` is the value of the structure and the operations on it; `RingBuffer` is
  the object, which updates its slots in place.  Items are counted from the newest
  one, as the container does: index 0 is the last item pushed.
 */
module RingBuffers {
  import opened Streams

  datatype Ring<T> = Ring(slots: seq<T>, first: nat, size: nat, unread: nat) {

    ghost predicate Ok() {
      && unread <= size <= |slots|
      && (slots == [] ==> first == 0)
      && (slots != [] ==> first < |slots|)
    }

    predicate IsNotEmpty() { unread > 0 }

    predicate IsNotFull() { unread < |slots| }

    /** The slot of the i-th newest item: wrap by comparison, as the container does. */
    function SlotOf(i: nat): (k: nat)
      requires Ok() && i < |slots|
      ensures k < |slots|
    {
      if first + i < |slots| then first + i else first + i - |slots|
    }

    function At(i: nat): T
      requires Ok() && i < size
    {
      slots[SlotOf(i)]
    }

    /** The unread items, oldest first: the order in which they will be popped. */
    function Unread(): (q: seq<T>)
      requires Ok()
      ensures |q| == unread
    {
      seq(unread, i requires 0 <= i < unread => At(unread - 1 - i))
    }

    /** One slot back from the first one. */
    function Before(): (k: nat)
      requires Ok() && slots != []
      ensures k < |slots|
    {
      if first == 0 then |slots| - 1 else first - 1
    }

    function PushFront(x: T): Ring<T>
      requires Ok() && IsNotFull()
    {
      Ring(slots[Before() := x], Before(), if size < |slots| then size + 1 else size, unread + 1)
    }

    function PopBack(): Ring<T>
      requires Ok() && IsNotEmpty()
    {
      this.(unread := unread - 1)
    }
  }

  /** Pushing appends to the unread queue whatever the container's fill level is;
      when the container is full, the slot it gives up holds an item that is not unread. */
  lemma PushAppends<T>(r: Ring<T>, x: T)
    requires r.Ok() && r.IsNotFull()
    ensures r.PushFront(x).Ok()
    ensures r.PushFront(x).Unread() == r.Unread() + [x]
    ensures r.PushFront(x).At(0) == x
    ensures forall i :: 0 <= i < r.size && i + 1 < r.PushFront(x).size ==> r.PushFront(x).At(i + 1) == r.At(i)
    ensures r.size == |r.slots| ==> r.Before() == r.SlotOf(r.size - 1) && r.unread <= r.size - 1
  {
    var p := r.PushFront(x);
    forall i | 0 <= i < r.size && i + 1 < p.size
      ensures p.At(i + 1) == r.At(i)
    {
      assert p.SlotOf(i + 1) == r.SlotOf(i) != r.Before();
    }
    assert p.At(0) == x;
    forall i | 0 <= i < |p.Unread()|
      ensures p.Unread()[i] == (r.Unread() + [x])[i]
    {
      if i < r.unread {
        assert p.At(r.unread - 1 - i + 1) == r.At(r.unread - 1 - i);
      }
    }
  }

  lemma PopTakesOldest<T>(r: Ring<T>)
    requires r.Ok() && r.IsNotEmpty()
    ensures r.PopBack().Ok()
    ensures forall i :: 0 <= i < r.size ==> r.PopBack().At(i) == r.At(i)
    ensures [r.At(r.unread - 1)] + r.PopBack().Unread() == r.Unread()
  {
    var rest := r.PopBack().Unread();
    forall i | 0 <= i < |rest|
      ensures rest[i] == r.Unread()[i + 1]
    {
      assert rest[i] == r.PopBack().At(r.unread - 2 - i) == r.At(r.unread - 2 - i);
    }
  }

  // ---------------------------------------------------------------------------
  // Whole runs.  A push on a full buffer and a pop on an empty one wait, so they
  // contribute nothing until they are enabled.

  datatype Op<T> = Push(item: T) | Pop

  datatype Log<T> = Log(ring: Ring<T>, pushed: seq<T>, popped: seq<T>)

  function Start<T>(slots: seq<T>): Log<T> {
    Log(Ring(slots, 0, 0, 0), [], [])
  }

  function Do<T>(l: Log<T>, op: Op<T>): Log<T>
    requires l.ring.Ok()
  {
    match op
    case Push(x) => if l.ring.IsNotFull() then Log(l.ring.PushFront(x), l.pushed + [x], l.popped) else l
    case Pop =>
      if l.ring.IsNotEmpty()
      then Log(l.ring.PopBack(), l.pushed, l.popped + [l.ring.At(l.ring.unread - 1)])
      else l
  }

  /** Everything pushed has either been popped or is still unread, in order. */
  ghost predicate InOrder<T>(l: Log<T>)
    requires l.ring.Ok()
  {
    l.pushed == l.popped + l.ring.Unread()
  }

  /** The container holds the most recent pushes, newest first. */
  ghost predicate HoldsRecent<T>(l: Log<T>)
    requires l.ring.Ok()
  {
    && l.ring.size <= |l.pushed|
    && (l.ring.size < |l.ring.slots| ==> l.ring.size == |l.pushed|)
    && forall i :: 0 <= i < l.ring.size ==> l.ring.At(i) == l.pushed[|l.pushed| - 1 - i]
  }

  /** What every operation keeps. */
  ghost predicate Consistent<T>(l: Log<T>, capacity: nat) {
    l.ring.Ok() && |l.ring.slots| == capacity && InOrder(l) && HoldsRecent(l)
  }

  lemma PushKeepsOrder<T>(l: Log<T>, x: T)
    requires l.ring.Ok() && InOrder(l) && l.ring.IsNotFull()
    ensures l.ring.PushFront(x).Ok() && InOrder(Do(l, Push(x)))
  {
    PushAppends(l.ring, x);
    AppendAssociative(l.popped, l.ring.Unread(), [x]);
  }

  lemma PushKeepsRecent<T>(l: Log<T>, x: T)
    requires l.ring.Ok() && HoldsRecent(l) && l.ring.IsNotFull()
    ensures l.ring.PushFront(x).Ok() && HoldsRecent(Do(l, Push(x)))
  {
    PushAppends(l.ring, x);
    var n := Do(l, Push(x));
    forall i | 0 <= i < n.ring.size
      ensures n.ring.At(i) == n.pushed[|n.pushed| - 1 - i]
    {
      if i > 0 {
        assert n.ring.At(i - 1 + 1) == l.ring.At(i - 1);
      }
    }
  }

  lemma PopKeepsOrder<T>(l: Log<T>)
    requires l.ring.Ok() && InOrder(l) && l.ring.IsNotEmpty()
    ensures l.ring.PopBack().Ok() && InOrder(Do(l, Pop))
  {
    PopTakesOldest(l.ring);
    AppendAssociative(l.popped, [l.ring.At(l.ring.unread - 1)], l.ring.PopBack().Unread());
  }

  lemma PopKeepsRecent<T>(l: Log<T>)
    requires l.ring.Ok() && HoldsRecent(l) && l.ring.IsNotEmpty()
    ensures l.ring.PopBack().Ok() && HoldsRecent(Do(l, Pop))
  {
    PopTakesOldest(l.ring);
  }

  lemma DoKeeps<T>(l: Log<T>, op: Op<T>, capacity: nat)
    requires Consistent(l, capacity)
    ensures Consistent(Do(l, op), capacity)
  {
    match op
    case Push(x) => if l.ring.IsNotFull() { PushKeepsOrder(l, x); PushKeepsRecent(l, x); }
    case Pop => if l.ring.IsNotEmpty() { PopKeepsOrder(l); PopKeepsRecent(l); }
  }

  function Run<T>(l: Log<T>, ops: seq<Op<T>>): (r: Log<T>)
    requires l.ring.Ok() && Consistent(l, |l.ring.slots|)
    ensures Consistent(r, |l.ring.slots|)
    decreases |ops|
  {
    if ops == [] then l
    else
      DoKeeps(l, ops[0], |l.ring.slots|);
      Run(Do(l, ops[0]), ops[1..])
  }

  /** The plain bounded queue the ring stands for. */
  datatype Fifo<T> = Fifo(queue: seq<T>, pushed: seq<T>, popped: seq<T>)

  function FifoDo<T>(f: Fifo<T>, op: Op<T>, capacity: nat): Fifo<T> {
    match op
    case Push(x) => if |f.queue| < capacity then Fifo(f.queue + [x], f.pushed + [x], f.popped) else f
    case Pop => if f.queue != [] then Fifo(f.queue[1..], f.pushed, f.popped + [f.queue[0]]) else f
  }

  function FifoRun<T>(f: Fifo<T>, ops: seq<Op<T>>, capacity: nat): Fifo<T>
    decreases |ops|
  {
    if ops == [] then f else FifoRun(FifoDo(f, ops[0], capacity), ops[1..], capacity)
  }

  function Abstract<T>(l: Log<T>): Fifo<T>
    requires l.ring.Ok()
  {
    Fifo(l.ring.Unread(), l.pushed, l.popped)
  }

  lemma {:induction false} RunRefinesFifo<T>(l: Log<T>, ops: seq<Op<T>>)
    requires l.ring.Ok() && Consistent(l, |l.ring.slots|)
    ensures Abstract(Run(l, ops)) == FifoRun(Abstract(l), ops, |l.ring.slots|)
    decreases |ops|
  {
    if ops != [] {
      var n := Do(l, ops[0]);
      DoKeeps(l, ops[0], |l.ring.slots|);
      assert Abstract(n) == FifoDo(Abstract(l), ops[0], |l.ring.slots|) by {
        match ops[0]
        case Push(x) => if l.ring.IsNotFull() { PushAppends(l.ring, x); }
        case Pop => if l.ring.IsNotEmpty() { PopTakesOldest(l.ring); }
      }
      RunRefinesFifo(n, ops[1..]);
    }
  }

  /** Over any sequence of operations on a new buffer of any capacity, whatever its
      slots hold at first: the ring and the bounded queue accept the same pushes and hand
      out the same items, so pops return pushes in order. */
  lemma RingIsBoundedFifo<T>(slots: seq<T>, ops: seq<Op<T>>)
    ensures Consistent(Start(slots), |slots|)
    ensures var l := Run(Start(slots), ops);
            var f := FifoRun(Fifo([], [], []), ops, |slots|);
            && l.ring.Ok()
            && l.popped == f.popped && l.pushed == f.pushed && l.ring.Unread() == f.queue
            && l.popped <= l.pushed
            && l.ring.unread == |l.pushed| - |l.popped|
            && l.ring.unread <= l.ring.size <= |slots|
  {
    RunRefinesFifo(Start(slots), ops);
    assert Start(slots).ring.Unread() == [];
  }

  /** In every reachable state the slot that the next push overwrites on a full container
      holds an item that has already been handed out. */
  lemma OverwritesOnlyPopped<T>(slots: seq<T>, ops: seq<Op<T>>)
    ensures Consistent(Start(slots), |slots|)
    ensures var l := Run(Start(slots), ops);
            l.ring.IsNotFull() && l.ring.size == |slots| ==>
              && |l.pushed| - |slots| < |l.popped|
              && l.ring.slots[l.ring.Before()] == l.popped[|l.pushed| - |slots|]
  {
    assert Start(slots).ring.Unread() == [];
    var l := Run(Start(slots), ops);
    if l.ring.IsNotFull() && l.ring.size == |slots| {
      assert l.ring.Before() == l.ring.SlotOf(l.ring.size - 1);
      assert l.ring.At(l.ring.size - 1) == l.pushed[|l.pushed| - |slots|];
    }
  }

  // ---------------------------------------------------------------------------
  // The object.

  class RingBuffer<T(0)> {
    const slots: array<T>
    var first: nat
    var size: nat
    var unread: nat

    ghost function Model(): Ring<T>
      reads this, slots
    {
      Ring(slots[..], first, size, unread)
    }

    ghost predicate Valid()
      reads this, slots
    {
      Model().Ok()
    }

    /** The unread items, oldest first. */
    ghost function Contents(): seq<T>
      requires Valid()
      reads this, slots
    {
      Model().Unread()
    }

    constructor (capacity: nat)
      ensures Valid() && fresh(slots)
      ensures slots.Length == capacity && Contents() == []
    {
      slots := new T[capacity];
      first, size, unread := 0, 0, 0;
    }

    predicate IsNotEmpty()
      reads this
    {
      unread > 0
    }

    predicate IsNotFull()
      reads this
    {
      unread < slots.Length
    }

    /** Waits while the buffer is full, so `blocked` says that nothing happened yet. */
    method PushFront(item: T) returns (blocked: bool)
      requires Valid()
      modifies this, slots
      ensures Valid()
      ensures blocked == (|old(Contents())| == slots.Length)
      ensures blocked ==> Model() == old(Model())
      ensures !blocked ==> Contents() == old(Contents()) + [item] && Model() == old(Model()).PushFront(item)
    {
      blocked := !IsNotFull();
      if !blocked {
        ghost var was := Model();
        PushAppends(was, item);
        first := if first == 0 then slots.Length - 1 else first - 1;
        slots[first] := item;
        if size < slots.Length {
          size := size + 1;
        }
        unread := unread + 1;
        assert Model() == was.PushFront(item);
      }
    }

    /** Waits while there is nothing unread: `None` says so. */
    method PopBack() returns (item: Option<T>)
      requires Valid()
      modifies this`unread
      ensures Valid()
      ensures item.None? <==> old(Contents()) == []
      ensures item.None? ==> Model() == old(Model())
      ensures item.Some? ==> [item.value] + Contents() == old(Contents()) && Model() == old(Model()).PopBack()
    {
      if !IsNotEmpty() {
        return None;
      }
      ghost var was := Model();
      PopTakesOldest(was);
      unread := unread - 1;
      var k := if first + unread < slots.Length then first + unread else first + unread - slots.Length;
      item := Some(slots[k]);
      assert Model() == was.PopBack();
    }
  }
}
