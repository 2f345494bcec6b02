/**
  The hand-managed array of tracked CoAP tokens: append by reallocation, search from the
  front, remove by shifting the rest down.  Tokens need not be distinct; entries of equal
  tokens form a queue, oldest first.
 */
module TokenTables {
  import opened Streams

  type Token = seq<byte>
  type RequestId = x: int | 0 <= x < 0x1_0000_0000

  datatype Entry = Entry(id: RequestId, token: Token, observe: bool)

  // ---------------------------------------------------------------------------
  // What the three operations compute.

  /** The index of the first entry with this token, or the length. */
  function FirstIndex(es: seq<Entry>, t: Token): (i: nat)
    ensures i <= |es|
    ensures i < |es| ==> es[i].token == t
    ensures forall j :: 0 <= j < i ==> es[j].token != t
  {
    if es == [] || es[0].token == t then 0
    else
      var i := FirstIndex(es[1..], t);
      assert forall j :: 0 < j < i + 1 ==> es[j] == es[1..][j - 1];
      i + 1
  }

  function Lookup(es: seq<Entry>, t: Token): (r: (bool, RequestId)) {
    var i := FirstIndex(es, t);
    if i < |es| then (true, es[i].id) else (false, 0)
  }

  function Without(es: seq<Entry>, i: nat): seq<Entry>
    requires i < |es|
  {
    es[..i] + es[i + 1..]
  }

  /** An entry of an observation that has started stays. */
  function Flushed(es: seq<Entry>, t: Token, obsStarted: bool): seq<Entry> {
    var i := FirstIndex(es, t);
    if i < |es| && (!es[i].observe || !obsStarted) then Without(es, i) else es
  }

  // ---------------------------------------------------------------------------
  // The table as one queue of request ids per token.

  function IdOf(e: Entry, t: Token): seq<RequestId> {
    if e.token == t then [e.id] else []
  }

  function Ids(es: seq<Entry>, t: Token): seq<RequestId> {
    if es == [] then []
    else IdOf(es[0], t) + Ids(es[1..], t)
  }

  lemma IdsCons(e: Entry, es: seq<Entry>, t: Token)
    ensures Ids([e] + es, t) == IdOf(e, t) + Ids(es, t)
  {
    assert ([e] + es)[1..] == es;
  }

  lemma {:induction false} IdsConcat(a: seq<Entry>, b: seq<Entry>, t: Token)
    ensures Ids(a + b, t) == Ids(a, t) + Ids(b, t)
  {
    if a == [] {
      assert a + b == b;
    } else {
      var e, rest := a[0], a[1..];
      IdsConcat(rest, b, t);
      IdsCons(e, rest + b, t);
      assert a + b == [e] + (rest + b);
      AppendAssociative(IdOf(e, t), Ids(rest, t), Ids(b, t));
    }
  }

  lemma {:induction false} NoIds(es: seq<Entry>, t: Token)
    requires forall j :: 0 <= j < |es| ==> es[j].token != t
    ensures Ids(es, t) == []
  {
    if es != [] {
      NoIds(es[1..], t);
    }
  }

  lemma Middle(front: seq<Entry>, e: Entry, back: seq<Entry>, u: Token)
    ensures Ids(front + ([e] + back), u) == Ids(front, u) + (IdOf(e, u) + Ids(back, u))
  {
    IdsConcat(front, [e] + back, u);
    IdsCons(e, back, u);
  }

  lemma SplitAt(es: seq<Entry>, i: nat, u: Token)
    requires i < |es|
    ensures Ids(es, u) == Ids(es[..i], u) + (IdOf(es[i], u) + Ids(es[i + 1..], u))
    ensures Ids(Without(es, i), u) == Ids(es[..i], u) + Ids(es[i + 1..], u)
  {
    assert es == es[..i] + ([es[i]] + es[i + 1..]);
    Middle(es[..i], es[i], es[i + 1..], u);
    IdsConcat(es[..i], es[i + 1..], u);
  }

  lemma SplitAtFirst(es: seq<Entry>, t: Token, u: Token)
    requires FirstIndex(es, t) < |es|
    ensures var i := FirstIndex(es, t);
            && (t == u ==> Ids(es, u) == [es[i].id] + Ids(Without(es, i), u))
            && (t != u ==> Ids(es, u) == Ids(Without(es, i), u))
  {
    var i := FirstIndex(es, t);
    SplitAt(es, i, u);
    if t == u {
      NoIds(es[..i], t);
      NothingInFront([es[i].id], Ids(es[i + 1..], u));
    } else {
      assert IdOf(es[i], u) == [];
      NothingInFront([], Ids(es[i + 1..], u));
    }
  }

  lemma NothingInFront(a: seq<RequestId>, b: seq<RequestId>)
    ensures [] + (a + b) == a + b && [] + b == b
  {
  }

  /** Search finds the oldest request of the token, if there is one. */
  lemma LookupFindsOldest(es: seq<Entry>, t: Token)
    ensures Lookup(es, t) == if Ids(es, t) == [] then (false, 0) else (true, Ids(es, t)[0])
  {
    if FirstIndex(es, t) < |es| {
      SplitAtFirst(es, t, t);
    } else {
      NoIds(es, t);
    }
  }

  /** Flushing takes the oldest request of its token and no other; every other entry keeps
      its place in the order. */
  lemma FlushTakesOldest(es: seq<Entry>, t: Token, u: Token)
    ensures Ids(Flushed(es, t, false), u)
         == if t == u && Ids(es, u) != [] then Ids(es, u)[1..] else Ids(es, u)
    ensures |Flushed(es, t, false)| == |es| - (if Ids(es, t) != [] then 1 else 0)
  {
    if FirstIndex(es, t) < |es| {
      SplitAtFirst(es, t, u);
      SplitAtFirst(es, t, t);
    } else {
      NoIds(es, t);
    }
  }

  /** Search and flush in terms of the array: both go to the first entry of the token; flush
      leaves it if it belongs to an observation that has started. */
  lemma FirstEntryDecides(es: seq<Entry>, t: Token, i: nat, obsStarted: bool)
    requires i <= |es| && (i < |es| ==> es[i].token == t) && forall j :: 0 <= j < i ==> es[j].token != t
    ensures Lookup(es, t) == if i < |es| then (true, es[i].id) else (false, 0)
    ensures Flushed(es, t, obsStarted) ==
            if i < |es| && !(es[i].observe && obsStarted) then es[..i] + es[i + 1..] else es
  {
    FirstIndexIs(es, t, i);
  }

  lemma TrackAddsYoungest(es: seq<Entry>, e: Entry, u: Token)
    ensures Ids(es + [e], u) == Ids(es, u) + IdOf(e, u)
  {
    IdsConcat(es, [e], u);
    assert Ids([e], u) == IdOf(e, u);
  }

  /** `n` flushes of one token serve its requests in the order they were made. */
  function FlushedTimes(es: seq<Entry>, t: Token, n: nat): seq<Entry> {
    if n == 0 then es else FlushedTimes(Flushed(es, t, false), t, n - 1)
  }

  lemma {:induction false} FlushesServeInOrder(es: seq<Entry>, t: Token, n: nat)
    requires n <= |Ids(es, t)|
    ensures Ids(FlushedTimes(es, t, n), t) == Ids(es, t)[n..]
    ensures Lookup(FlushedTimes(es, t, n), t)
         == if n < |Ids(es, t)| then (true, Ids(es, t)[n]) else (false, 0)
    decreases n
  {
    if n > 0 {
      var next := Flushed(es, t, false);
      FlushTakesOldest(es, t, t);
      FlushesServeInOrder(next, t, n - 1);
      DropDrop(Ids(es, t), n);
    } else {
      LookupFindsOldest(es, t);
    }
  }

  lemma DropDrop<T>(s: seq<T>, n: nat)
    requires 0 < n <= |s|
    ensures s[1..][n - 1..] == s[n..]
    ensures n < |s| ==> s[1..][n - 1] == s[n]
  {
  }

  // ---------------------------------------------------------------------------
  // With distinct tokens the table is a map.

  ghost predicate Distinct(es: seq<Entry>) {
    forall i, j :: 0 <= i < j < |es| ==> es[i].token != es[j].token
  }

  function AsMap(es: seq<Entry>): map<Token, RequestId> {
    if es == [] then map[]
    else AsMap(es[..|es| - 1])[es[|es| - 1].token := es[|es| - 1].id]
  }

  lemma AsMapSnoc(front: seq<Entry>, e: Entry)
    ensures AsMap(front + [e]) == AsMap(front)[e.token := e.id]
  {
    assert (front + [e])[..|front|] == front;
  }

  lemma {:induction false} NotInMap(es: seq<Entry>, t: Token)
    requires forall j :: 0 <= j < |es| ==> es[j].token != t
    ensures t !in AsMap(es)
  {
    if es != [] {
      NotInMap(es[..|es| - 1], t);
    }
  }

  lemma {:induction false} AsMapAt(es: seq<Entry>, i: nat)
    requires Distinct(es) && i < |es|
    ensures es[i].token in AsMap(es) && AsMap(es)[es[i].token] == es[i].id
  {
    var n := |es| - 1;
    if i < n {
      assert es[..n][i] == es[i];
      AsMapAt(es[..n], i);
    }
  }

  lemma RemoveCommutes<K, V>(m: map<K, V>, k: K, v: V, t: K)
    ensures k != t ==> m[k := v] - {t} == (m - {t})[k := v]
    ensures k == t && t !in m ==> m[k := v] - {t} == m
  {
  }

  lemma WithoutSnoc(front: seq<Entry>, e: Entry, i: nat)
    requires i <= |front|
    ensures Without(front + [e], i) == if i < |front| then Without(front, i) + [e] else front
  {
  }

  lemma {:induction false} FlushIsRemoval(es: seq<Entry>, i: nat)
    requires Distinct(es) && i < |es|
    ensures AsMap(Without(es, i)) == AsMap(es) - {es[i].token}
  {
    var n := |es| - 1;
    var front, last := es[..n], es[n];
    assert es == front + [last];
    AsMapSnoc(front, last);
    WithoutSnoc(front, last, i);
    RemoveCommutes(AsMap(front), last.token, last.id, es[i].token);
    if i == n {
      NotInMap(front, last.token);
    } else {
      assert front[i] == es[i];
      FlushIsRemoval(front, i);
      AsMapSnoc(Without(front, i), last);
    }
  }

  lemma WithoutStaysDistinct(es: seq<Entry>, i: nat)
    requires Distinct(es) && i < |es|
    ensures Distinct(Without(es, i))
  {
    var w := Without(es, i);
    forall j, k | 0 <= j < k < |w|
      ensures w[j].token != w[k].token
    {
      assert w[j] == es[if j < i then j else j + 1] && w[k] == es[if k < i then k else k + 1];
    }
  }

  /** While tokens are distinct, search is lookup in a map and flush is removal from it. */
  lemma TableIsMap(es: seq<Entry>, t: Token)
    requires Distinct(es)
    ensures Lookup(es, t) == if t in AsMap(es) then (true, AsMap(es)[t]) else (false, 0)
    ensures Distinct(Flushed(es, t, false))
    ensures AsMap(Flushed(es, t, false)) == AsMap(es) - {t}
  {
    var i := FirstIndex(es, t);
    if i < |es| {
      AsMapAt(es, i);
      FlushIsRemoval(es, i);
      WithoutStaysDistinct(es, i);
    } else {
      NotInMap(es, t);
      assert AsMap(es) - {t} == AsMap(es);
    }
  }

  /** ... and tracking a fresh token is insertion. */
  lemma TrackingIsInsertion(es: seq<Entry>, e: Entry)
    requires Distinct(es) && e.token !in AsMap(es)
    ensures Distinct(es + [e]) && AsMap(es + [e]) == AsMap(es)[e.token := e.id]
  {
    AsMapSnoc(es, e);
    forall j | 0 <= j < |es|
      ensures es[j].token != e.token
    {
      AsMapAt(es, j);
    }
  }

  // ---------------------------------------------------------------------------
  // The array.

  class TokenTable {
    var tracked: array<Entry>    // the allocated block
    var count: nat

    ghost predicate Valid()
      reads this
    {
      count <= tracked.Length
    }

    ghost function Entries(): seq<Entry>
      requires Valid()
      reads this, tracked
    {
      tracked[..count]
    }

    constructor ()
      ensures Valid() && Entries() == [] && fresh(tracked)
    {
      tracked := new Entry[0];
      count := 0;
    }

    /** Either allocation may fail, and then nothing is tracked. */
    method TrackNew(token: Token, id: RequestId, observe: bool, blockOk: bool, tokenOk: bool)
      requires Valid()
      modifies this
      ensures Valid() && (fresh(tracked) || tracked == old(tracked))
      ensures Entries() == old(Entries()) + if blockOk && tokenOk then [Entry(id, token, observe)] else []
    {
      if !blockOk {
        return;
      }
      var block := new Entry[count + 1];
      forall i | 0 <= i < count {
        block[i] := tracked[i];
      }
      assert block[..count] == tracked[..count];
      tracked := block;
      if !tokenOk {
        return;
      }
      block[count] := Entry(id, token, observe);
      count := count + 1;
    }

    method Check(token: Token) returns (found: bool, id: RequestId)
      requires Valid()
      ensures (found, id) == Lookup(Entries(), token)
    {
      for i := 0 to count
        invariant forall j :: 0 <= j < i ==> tracked[j].token != token
      {
        if tracked[i].token == token {
          FirstIndexIs(Entries(), token, i);
          return true, tracked[i].id;
        }
      }
      FirstIndexIs(Entries(), token, count);
      return false, 0;
    }

    method Flush(token: Token, obsStarted: bool)
      requires Valid()
      modifies this`count, tracked
      ensures Valid() && Entries() == Flushed(old(Entries()), token, obsStarted)
    {
      for i := 0 to count
        invariant count == old(count) && tracked[..count] == old(tracked[..count])
        invariant forall j :: 0 <= j < i ==> tracked[j].token != token
      {
        if tracked[i].token == token {
          FirstIndexIs(Entries(), token, i);
          if !tracked[i].observe || !obsStarted {
            ShiftDown(i);
          }
          return;
        }
      }
      FirstIndexIs(Entries(), token, count);
    }

    /** memmove of the entries after `at` onto it, one place down. */
    method ShiftDown(at: nat)
      requires Valid() && at < count
      modifies this`count, tracked
      ensures Valid() && Entries() == Without(old(Entries()), at)
    {
      var k := at;
      while k + 1 < count
        invariant at <= k < count == old(count)
        invariant forall j :: 0 <= j < at ==> tracked[j] == old(tracked[j])
        invariant forall j :: at <= j < k ==> tracked[j] == old(tracked[j + 1])
        invariant forall j :: k <= j < count ==> tracked[j] == old(tracked[j])
      {
        tracked[k] := tracked[k + 1];
        k := k + 1;
      }
      count := count - 1;
    }
  }

  lemma FirstIndexIs(es: seq<Entry>, t: Token, i: nat)
    requires i <= |es| && (i < |es| ==> es[i].token == t)
    requires forall j :: 0 <= j < i ==> es[j].token != t
    ensures FirstIndex(es, t) == i
  {
    var f := FirstIndex(es, t);
    assert !(f < i) && !(i < f);
  }
}
