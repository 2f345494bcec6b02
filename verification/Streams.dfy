/** Messages, byte streams and the stock result types shared by the other modules. */
module Streams {

  datatype Option<+T> = None | Some(value: T)

  newtype byte = b: int | 0 <= b < 256

  type Message = seq<byte>

  /** The byte stream a sequence of messages amounts to. */
  function Flatten(ms: seq<Message>): (stream: seq<byte>)
  {
    if ms == [] then [] else ms[0] + Flatten(ms[1..])
  }

  lemma FlattenCons(m: Message, ms: seq<Message>)
    ensures Flatten([m] + ms) == m + Flatten(ms)
  {
    assert ([m] + ms)[1..] == ms;
  }

  lemma {:induction false} FlattenAppend(a: seq<Message>, b: seq<Message>)
    ensures Flatten(a + b) == Flatten(a) + Flatten(b)
  {
    if a == [] {
      assert a + b == b;
    } else {
      var m, rest := a[0], a[1..];
      FlattenAppend(rest, b);
      FlattenCons(m, rest + b);
      assert a + b == [m] + (rest + b);
      AppendAssociative(m, Flatten(rest), Flatten(b));
    }
  }

  lemma AppendAssociative<T>(a: seq<T>, b: seq<T>, c: seq<T>)
    ensures a + b + c == a + (b + c)
  {
  }

  lemma FlattenOne(m: Message)
    ensures Flatten([m]) == m
  {
    assert [m][1..] == [];
    assert Flatten([m]) == m + Flatten([]);
  }

  lemma FlattenSnoc(a: seq<Message>, m: Message)
    ensures Flatten(a + [m]) == Flatten(a) + m
  {
    FlattenAppend(a, [m]);
    FlattenOne(m);
  }

  // ---------------------------------------------------------------------------
  // Who did what: entries of several parties in one order.

  /** What party `a` contributed, in order. */
  function By<X>(log: seq<(nat, X)>, a: nat): seq<X> {
    if log == [] then []
    else (if log[0].0 == a then [log[0].1] else []) + By(log[1..], a)
  }

  /** What was contributed, by whomever. */
  function Entries<X>(log: seq<(nat, X)>): (entries: seq<X>)
    ensures |entries| == |log|
  {
    seq(|log|, i requires 0 <= i < |log| => log[i].1)
  }

  lemma ByCons<X>(e: (nat, X), log: seq<(nat, X)>, a: nat)
    ensures By([e] + log, a) == (if e.0 == a then [e.1] else []) + By(log, a)
    ensures Entries([e] + log) == [e.1] + Entries(log)
  {
    assert ([e] + log)[1..] == log;
  }

  /** Something that waits at the front passes on. */
  lemma PassedOn<X>(waiting: seq<X>, said: seq<X>, done: seq<X>, waiting': seq<X>,
                    rest: seq<X>, all: seq<X>, end: seq<X>)
    requires waiting + said == done + waiting' && waiting' + rest == all + end
    ensures waiting + (said + rest) == done + all + end
  {
    AppendAssociative(waiting, said, rest);
    AppendAssociative(done, waiting', rest);
    AppendAssociative(done, all, end);
  }
}
