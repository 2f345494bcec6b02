/**
  Client-side matching of CoAP responses to requests (section 5.3.2 of RFC 7252), with
  multicast (section 8.2 of RFC 7252) and Block2 transfers (section 2.2 of RFC 7959), and
  the table of large request bodies that the CoAP library reads until it frees them.

  The client never starts an observation, so `doing_observe` and `obs_started` stay 0.
 */
module CoapClients {
  import opened Streams
  import opened TokenTables

  datatype MessageType = Con | Non | Ack | Rst

  /** What the callback looks at: `block2` is the Block2 option with its more bit,
      `payload` is the data if there is any. */
  datatype Pdu = Pdu(
    typ: MessageType, code: byte, token: Token, block2: Option<bool>, payload: Option<seq<byte>>)

  datatype Reply = ReplyOk | ReplyFail

  datatype Signal = Signal(id: RequestId, data: seq<byte>)

  /** The class is the upper three bits of the code. */
  function ClassOf(code: byte): int {
    code as int / 32
  }

  // ---------------------------------------------------------------------------
  // The callback.

  /** The response ends its exchange: the token is flushed.  A reset never does; a block
      with more to come does not; a response without Block2 does unless the request was
      multicast. */
  predicate Terminal(p: Pdu, multicast: bool) {
    && !p.typ.Rst?
    && if ClassOf(p.code) == 2 && p.block2.Some? then !p.block2.value else !multicast
  }

  /** A success response signals its data to whoever made the request. */
  predicate Signals(p: Pdu) {
    !p.typ.Rst? && ClassOf(p.code) == 2
  }

  function Data(p: Pdu): seq<byte> {
    if p.payload.Some? then p.payload.value else []
  }

  datatype Result = Result(entries: seq<Entry>, reply: Reply, signal: Option<Signal>)

  function OnMessage(es: seq<Entry>, multicast: bool, p: Pdu, sent: bool): Result {
    var (found, id) := Lookup(es, p.token);
    if !found then
      Result(es, if !sent && (p.typ.Con? || p.typ.Non?) then ReplyFail else ReplyOk, None)
    else
      Result(if Terminal(p, multicast) then Flushed(es, p.token, false) else es,
             ReplyOk,
             if Signals(p) then Some(Signal(id, Data(p))) else None)
  }

  // ---------------------------------------------------------------------------
  // Whole runs, against an account that knows nothing of the table.

  datatype Event =
    | Request(token: Token, id: RequestId, tracked: bool)   // tracking fails when memory does
    | Receive(pdu: Pdu, sent: bool)
    | SetMulticast(on: bool)                                // a session to another address

  datatype Client = Client(entries: seq<Entry>, multicast: bool, signals: seq<Signal>)

  function Emitted(c: Client, e: Event): Option<Signal> {
    if e.Receive? then OnMessage(c.entries, c.multicast, e.pdu, e.sent).signal else None
  }

  function Step(c: Client, e: Event): Client {
    match e
    case Request(t, id, tracked) => if tracked then c.(entries := c.entries + [Entry(id, t, false)]) else c
    case Receive(p, sent) =>
      c.(entries := OnMessage(c.entries, c.multicast, p, sent).entries,
         signals := c.signals + if Emitted(c, e).Some? then [Emitted(c, e).value] else [])
    case SetMulticast(on) => c.(multicast := on)
  }

  function Run(trace: seq<Event>): Client {
    if trace == [] then Client([], false, [])
    else Step(Run(trace[..|trace| - 1]), trace[|trace| - 1])
  }

  function Multicast(trace: seq<Event>): bool {
    if trace == [] then false
    else
      var e := trace[|trace| - 1];
      if e.SetMulticast? then e.on else Multicast(trace[..|trace| - 1])
  }

  /** Each tracked request joins the requests waiting on its token, each terminal response
      lets the oldest of them go. */
  function WaitingAfter(w: seq<RequestId>, e: Event, t: Token, multicast: bool): seq<RequestId> {
    match e
    case Request(u, id, tracked) => if u == t && tracked then w + [id] else w
    case Receive(p, _) => if p.token == t && Terminal(p, multicast) && w != [] then w[1..] else w
    case SetMulticast(_) => w
  }

  /** The requests of token `t` that are still waiting, oldest first. */
  function Waiting(trace: seq<Event>, t: Token): seq<RequestId> {
    if trace == [] then []
    else
      var before := trace[..|trace| - 1];
      WaitingAfter(Waiting(before, t), trace[|trace| - 1], t, Multicast(before))
  }

  lemma RunSnoc(before: seq<Event>, e: Event, t: Token)
    ensures Run(before + [e]) == Step(Run(before), e)
    ensures Multicast(before + [e]) == if e.SetMulticast? then e.on else Multicast(before)
    ensures Waiting(before + [e], t) == WaitingAfter(Waiting(before, t), e, t, Multicast(before))
  {
    assert (before + [e])[..|before|] == before;
  }

  lemma StepKeepsWaiting(c: Client, e: Event, t: Token)
    ensures Ids(Step(c, e).entries, t) == WaitingAfter(Ids(c.entries, t), e, t, c.multicast)
  {
    match e
    case Request(u, id, tracked) => TrackAddsYoungest(c.entries, Entry(id, u, false), t);
    case Receive(p, sent) =>
      LookupFindsOldest(c.entries, p.token);
      FlushTakesOldest(c.entries, p.token, t);
    case SetMulticast(_) =>
  }

  /** For every run and token, equal tokens and multicast included: the table holds exactly
      the requests that are waiting, in order. */
  lemma {:induction false} TableHoldsWaiting(trace: seq<Event>, t: Token)
    ensures Ids(Run(trace).entries, t) == Waiting(trace, t)
    ensures Run(trace).multicast == Multicast(trace)
  {
    if trace != [] {
      var before, e := trace[..|trace| - 1], trace[|trace| - 1];
      assert trace == before + [e];
      TableHoldsWaiting(before, t);
      RunSnoc(before, e, t);
      StepKeepsWaiting(Run(before), e, t);
    }
  }

  /** What a message causes after any run: it is signalled, to the oldest waiting request of
      its token and with its payload, if and only if there is one and the message is not a
      reset and has a code of class 2, 2.00 to 2.31; it is rejected if and only if there is
      none and it is an unsolicited CON or NON. */
  lemma MessageEffect(before: seq<Event>, p: Pdu, sent: bool)
    ensures var w := Waiting(before, p.token);
            var r := OnMessage(Run(before).entries, Run(before).multicast, p, sent);
            && (r.signal.Some? <==> w != [] && p.typ != Rst && 64 <= p.code < 96)
            && (r.signal.Some? ==> r.signal.value == Signal(w[0], if p.payload.Some? then p.payload.value else []))
            && (r.reply == ReplyFail <==> w == [] && !sent && (p.typ == Con || p.typ == Non))
  {
    TableHoldsWaiting(before, p.token);
    LookupFindsOldest(Run(before).entries, p.token);
  }

  // ---------------------------------------------------------------------------
  // One exchange with a fresh token.

  predicate Leaves(e: Event, t: Token, multicast: bool) {
    match e
    case Request(u, _, tracked) => u != t || !tracked
    case Receive(_, _) => true
    case SetMulticast(on) => on == multicast
  }

  /** Nothing in `es` reuses the token or moves the session to another kind of address. */
  ghost predicate Undisturbed(es: seq<Event>, t: Token, multicast: bool) {
    forall i :: 0 <= i < |es| ==> Leaves(es[i], t, multicast)
  }

  /** One of the messages is not a reset and is the last block of a success response or,
      unless the request was multicast, anything else that is not a block of one. */
  ghost predicate Ended(es: seq<Event>, t: Token, multicast: bool) {
    exists i :: 0 <= i < |es| && es[i].Receive? && es[i].pdu.token == t && es[i].pdu.typ != Rst &&
      if 64 <= es[i].pdu.code < 96 && es[i].pdu.block2.Some? then es[i].pdu.block2 == Some(false) else !multicast
  }

  lemma EndedMeansTerminal(es: seq<Event>, t: Token, multicast: bool)
    ensures Ended(es, t, multicast) <==>
              exists i :: 0 <= i < |es| && es[i].Receive? && es[i].pdu.token == t && Terminal(es[i].pdu, multicast)
  {
  }

  lemma {:induction false} WaitsUntilTerminal(before: seq<Event>, t: Token, id: RequestId, after: seq<Event>)
    requires Waiting(before, t) == [] && Undisturbed(after, t, Multicast(before))
    ensures var trace := before + [Request(t, id, true)] + after;
            && Multicast(trace) == Multicast(before)
            && Waiting(trace, t) == if Ended(after, t, Multicast(before)) then [] else [id]
    decreases |after|
  {
    var start := before + [Request(t, id, true)];
    if after == [] {
      RunSnoc(before, Request(t, id, true), t);
      assert start + after == start;
    } else {
      var n := |after| - 1;
      var front, e := after[..n], after[n];
      assert Leaves(e, t, Multicast(before)) && Undisturbed(front, t, Multicast(before));
      WaitsUntilTerminal(before, t, id, front);
      WaitsOneMore(start, front, e, t, id, Multicast(before));
      assert after == front + [e];
    }
  }

  lemma WaitsOneMore(start: seq<Event>, front: seq<Event>, e: Event, t: Token, id: RequestId, multicast: bool)
    requires Multicast(start + front) == multicast && Leaves(e, t, multicast)
    requires Waiting(start + front, t) == if Ended(front, t, multicast) then [] else [id]
    ensures Multicast(start + (front + [e])) == multicast
    ensures Waiting(start + (front + [e]), t) == if Ended(front + [e], t, multicast) then [] else [id]
  {
    assert start + (front + [e]) == start + front + [e];
    RunSnoc(start + front, e, t);
    EndedSnoc(front, e, t, multicast);
  }

  lemma EndedSnoc(es: seq<Event>, e: Event, t: Token, multicast: bool)
    ensures Ended(es + [e], t, multicast) <==>
              Ended(es, t, multicast) || (e.Receive? && e.pdu.token == t && Terminal(e.pdu, multicast))
  {
    EndedMeansTerminal(es, t, multicast);
    EndedMeansTerminal(es + [e], t, multicast);
    if Ended(es, t, multicast) {
      var i :| 0 <= i < |es| && es[i].Receive? && es[i].pdu.token == t && Terminal(es[i].pdu, multicast);
      assert (es + [e])[i] == es[i];
    }
    if e.Receive? && e.pdu.token == t && Terminal(e.pdu, multicast) {
      assert (es + [e])[|es|] == e;
    }
  }

  /** A request whose token is fresh: each later message of that token is signalled to it
      exactly when it is a success response and no earlier one was terminal, so up to and
      including the first terminal response and never after. */
  lemma SignalledUntilTerminal(before: seq<Event>, t: Token, id: RequestId, after: seq<Event>, p: Pdu, sent: bool)
    requires Waiting(before, t) == [] && Undisturbed(after, t, Multicast(before)) && p.token == t
    ensures var c := Run(before + [Request(t, id, true)] + after);
            Emitted(c, Receive(p, sent)) ==
              if p.typ != Rst && 64 <= p.code < 96 && !Ended(after, t, Multicast(before))
              then Some(Signal(id, if p.payload.Some? then p.payload.value else [])) else None
  {
    WaitsUntilTerminal(before, t, id, after);
    MessageEffect(before + [Request(t, id, true)] + after, p, sent);
  }

  /** Whether the request of a fresh token goes on waiting after one more message: after a
      reset or a block with more to come it does; a last block ends it; anything else ends it
      exactly when the request was unicast. */
  lemma WhatEndsAnExchange(before: seq<Event>, t: Token, id: RequestId, after: seq<Event>, p: Pdu, sent: bool)
    requires Waiting(before, t) == [] && Undisturbed(after, t, Multicast(before)) && p.token == t
    requires Waiting(before + [Request(t, id, true)] + after, t) != []
    ensures var w := Waiting(before + [Request(t, id, true)] + after + [Receive(p, sent)], t);
            && (w == [id] || w == [])
            && (p.typ == Rst ==> w == [id])
            && (p.typ != Rst && 64 <= p.code < 96 && p.block2.Some? ==> (w == [id] <==> p.block2.value))
            && (p.typ != Rst && !(64 <= p.code < 96 && p.block2.Some?) ==> (w == [id] <==> Multicast(before)))
  {
    WaitsUntilTerminal(before, t, id, after);
    RunSnoc(before + [Request(t, id, true)] + after, Receive(p, sent), t);
  }

  /** What the messages of token `t` among `after` cause to be signalled. */
  function Heard(before: seq<Event>, after: seq<Event>, t: Token): seq<Signal> {
    if after == [] then []
    else
      var front, e := after[..|after| - 1], after[|after| - 1];
      var s := Emitted(Run(before + front), e);
      Heard(before, front, t) + if e.Receive? && e.pdu.token == t && s.Some? then [s.value] else []
  }

  function Bodies(id: RequestId, ps: seq<Pdu>): seq<Signal> {
    seq(|ps|, i requires 0 <= i < |ps| =>
          Signal(id, if ps[i].payload.Some? then ps[i].payload.value else []))
  }

  function Receives(ps: seq<Pdu>): seq<Event> {
    seq(|ps|, i requires 0 <= i < |ps| => Receive(ps[i], true))
  }

  /** A success response of that token. */
  predicate Success(p: Pdu, t: Token) {
    p.token == t && p.typ != Rst && 64 <= p.code < 96
  }

  /** Success responses, of which every one but the last has more to come. */
  predicate BlockSequence(ps: seq<Pdu>, t: Token) {
    forall i :: 0 <= i < |ps| ==> Success(ps[i], t) && ps[i].block2 == Some(i < |ps| - 1)
  }

  lemma HeardSnoc(before: seq<Event>, after: seq<Event>, e: Event, t: Token)
    ensures Heard(before, after + [e], t) == Heard(before, after, t) +
              if e.Receive? && e.pdu.token == t && Emitted(Run(before + after), e).Some?
              then [Emitted(Run(before + after), e).value] else []
  {
    assert (after + [e])[..|after|] == after;
  }

  /** One more success response before the end of the exchange. */
  lemma OneMoreHeard(before: seq<Event>, t: Token, id: RequestId, es: seq<Event>, p: Pdu)
    requires Waiting(before, t) == [] && Undisturbed(es, t, Multicast(before)) && !Ended(es, t, Multicast(before))
    requires Success(p, t)
    ensures Heard(before + [Request(t, id, true)], es + [Receive(p, true)], t)
         == Heard(before + [Request(t, id, true)], es, t) + [Signal(id, Data(p))]
    ensures Ended(es + [Receive(p, true)], t, Multicast(before)) <==> Terminal(p, Multicast(before))
  {
    EndedSnoc(es, Receive(p, true), t, Multicast(before));
    SignalledUntilTerminal(before, t, id, es, p, true);
    HeardSnoc(before + [Request(t, id, true)], es, Receive(p, true), t);
  }

  lemma OneMore(id: RequestId, ps: seq<Pdu>, p: Pdu)
    ensures Receives(ps + [p]) == Receives(ps) + [Receive(p, true)]
    ensures Bodies(id, ps + [p]) == Bodies(id, ps) + [Signal(id, Data(p))]
  {
  }

  lemma ReceivesUndisturbed(ps: seq<Pdu>, t: Token, multicast: bool)
    ensures Undisturbed(Receives(ps), t, multicast)
  {
  }

  lemma {:induction false} OpenBlocksHeard(before: seq<Event>, t: Token, id: RequestId, ps: seq<Pdu>)
    requires Waiting(before, t) == []
    requires forall i :: 0 <= i < |ps| ==> Success(ps[i], t) && ps[i].block2 == Some(true)
    ensures !Ended(Receives(ps), t, Multicast(before))
    ensures Heard(before + [Request(t, id, true)], Receives(ps), t) == Bodies(id, ps)
  {
    if ps != [] {
      var front, p := ps[..|ps| - 1], ps[|ps| - 1];
      assert ps == front + [p];
      OpenBlocksHeard(before, t, id, front);
      ReceivesUndisturbed(front, t, Multicast(before));
      OneMoreHeard(before, t, id, Receives(front), p);
      OneMore(id, front, p);
    }
  }

  /** After the exchange has ended nothing more is heard of it. */
  lemma {:induction false} NothingHeardAfterEnd(before: seq<Event>, t: Token, id: RequestId,
                                                 after: seq<Event>, rest: seq<Event>)
    requires Waiting(before, t) == [] && Undisturbed(after + rest, t, Multicast(before))
    requires Ended(after, t, Multicast(before))
    ensures Heard(before + [Request(t, id, true)], after + rest, t)
         == Heard(before + [Request(t, id, true)], after, t)
    decreases |rest|
  {
    if rest == [] {
      assert after + rest == after;
    } else {
      var front, e := rest[..|rest| - 1], rest[|rest| - 1];
      assert after + rest == after + front + [e];
      assert forall i :: 0 <= i < |after + front| ==> (after + front)[i] == (after + rest)[i];
      NothingHeardAfterEnd(before, t, id, after, front);
      StillEnded(after, front, t, Multicast(before));
      HeardSnoc(before + [Request(t, id, true)], after + front, e, t);
      if e.Receive? && e.pdu.token == t {
        SignalledUntilTerminal(before, t, id, after + front, e.pdu, e.sent);
      }
    }
  }

  lemma StillEnded(es: seq<Event>, more: seq<Event>, t: Token, multicast: bool)
    requires Ended(es, t, multicast)
    ensures Ended(es + more, t, multicast)
  {
    EndedMeansTerminal(es, t, multicast);
    EndedMeansTerminal(es + more, t, multicast);
    var i :| 0 <= i < |es| && es[i].Receive? && es[i].pdu.token == t && Terminal(es[i].pdu, multicast);
    assert (es + more)[i] == es[i];
  }

  /** A block-wise transfer, unicast or multicast: every block of it is signalled to the
      request, in order and once; whatever else arrives later is not. */
  lemma BlockwiseTransferIsHeard(before: seq<Event>, t: Token, id: RequestId, ps: seq<Pdu>, rest: seq<Event>)
    requires Waiting(before, t) == [] && ps != [] && BlockSequence(ps, t) && Undisturbed(rest, t, Multicast(before))
    ensures Heard(before + [Request(t, id, true)], Receives(ps) + rest, t) == Bodies(id, ps)
  {
    WholeTransferHeard(before, t, id, ps);
    ReceivesUndisturbed(ps, t, Multicast(before));
    assert Undisturbed(Receives(ps) + rest, t, Multicast(before));
    NothingHeardAfterEnd(before, t, id, Receives(ps), rest);
  }

  /** A unicast request answered by one message without a Block2 option: a success is signalled
      once with its payload, an error is not, and nothing that arrives later is. */
  lemma SingleAnswerIsHeard(before: seq<Event>, t: Token, id: RequestId, p: Pdu, sent: bool, rest: seq<Event>)
    requires Waiting(before, t) == [] && !Multicast(before) && Undisturbed(rest, t, false)
    requires p.token == t && p.typ != Rst && p.block2 == None
    ensures Heard(before + [Request(t, id, true)], [Receive(p, sent)] + rest, t) ==
            if 64 <= p.code < 96 then [Signal(id, if p.payload.Some? then p.payload.value else [])] else []
    ensures Waiting(before + [Request(t, id, true)] + ([Receive(p, sent)] + rest), t) == []
  {
    var start, answer := before + [Request(t, id, true)], [Receive(p, sent)];
    EndedSnoc([], Receive(p, sent), t, false);
    assert [] + answer == answer;
    SignalledUntilTerminal(before, t, id, [], p, sent);
    HeardSnoc(start, [], Receive(p, sent), t);
    assert Undisturbed(answer + rest, t, false);
    NothingHeardAfterEnd(before, t, id, answer, rest);
    StillEnded(answer, rest, t, false);
    WaitsUntilTerminal(before, t, id, answer + rest);
  }

  lemma WholeTransferHeard(before: seq<Event>, t: Token, id: RequestId, ps: seq<Pdu>)
    requires Waiting(before, t) == [] && ps != [] && BlockSequence(ps, t)
    ensures Ended(Receives(ps), t, Multicast(before))
    ensures Heard(before + [Request(t, id, true)], Receives(ps), t) == Bodies(id, ps)
  {
    var front, last := ps[..|ps| - 1], ps[|ps| - 1];
    assert ps == front + [last];
    OpenBlocksHeard(before, t, id, front);
    ReceivesUndisturbed(front, t, Multicast(before));
    OneMoreHeard(before, t, id, Receives(front), last);
    OneMore(id, front, last);
  }

  // ---------------------------------------------------------------------------
  // Large request bodies.

  const SIZE_T: nat := 0x1_0000_0000_0000_0000

  datatype LargeData = LargeData(counter: nat, buffer: map<nat, seq<byte>>)

  datatype Use = Store(data: seq<byte>) | Free(id: nat)

  /** An id that is still in use keeps its old body. */
  function Stored(l: LargeData, data: seq<byte>): LargeData {
    LargeData((l.counter + 1) % SIZE_T,
              if l.counter in l.buffer then l.buffer else l.buffer[l.counter := data])
  }

  /** The body that the library is given to send. */
  function Handed(l: LargeData, data: seq<byte>): seq<byte> {
    Stored(l, data).buffer[l.counter]
  }

  function Used(l: LargeData, u: Use): LargeData {
    match u
    case Store(data) => Stored(l, data)
    case Free(id) => l.(buffer := l.buffer - {id})
  }

  function Uses(us: seq<Use>): LargeData {
    if us == [] then LargeData(0, map[]) else Used(Uses(us[..|us| - 1]), us[|us| - 1])
  }

  function StoresIn(us: seq<Use>): nat {
    if us == [] then 0 else StoresIn(us[..|us| - 1]) + if us[|us| - 1].Store? then 1 else 0
  }

  /** What the k-th request's body should be: there from its store to its own free. */
  function BodyOf(us: seq<Use>, k: nat): Option<seq<byte>> {
    if us == [] then None
    else
      var before := us[..|us| - 1];
      match us[|us| - 1]
      case Store(data) => if StoresIn(before) == k then Some(data) else BodyOf(before, k)
      case Free(id) => if id == k then None else BodyOf(before, k)
  }

  function Get(m: map<nat, seq<byte>>, k: nat): Option<seq<byte>> {
    if k in m then Some(m[k]) else None
  }

  lemma {:induction false} NotYetStored(us: seq<Use>, k: nat)
    requires StoresIn(us) <= k
    ensures BodyOf(us, k) == None
  {
    if us != [] {
      NotYetStored(us[..|us| - 1], k);
    }
  }

  /** As long as the counter has not wrapped past its range: the k-th request got id k, and
      the table holds exactly the bodies stored and not yet freed, unchanged, whatever the
      order of the frees. */
  lemma {:induction false} BodiesStayUntilFreed(us: seq<Use>, k: nat)
    requires StoresIn(us) <= 0x1_0000_0000_0000_0000
    ensures Get(Uses(us).buffer, k) == BodyOf(us, k)
    ensures Uses(us).counter == StoresIn(us) % 0x1_0000_0000_0000_0000
  {
    if us != [] {
      var before := us[..|us| - 1];
      BodiesStayUntilFreed(before, k);
      if us[|us| - 1].Store? {
        BodiesStayUntilFreed(before, StoresIn(before));
        NotYetStored(before, StoresIn(before));
      }
    }
  }

  /** The next request is sent with its own body if and only if its id is free or holds an
      equal body.  The first 2^64 requests always are; the one after is exactly when
      request 0 has been freed or had the same body. */
  lemma SentWithOwnBody(us: seq<Use>, data: seq<byte>)
    requires StoresIn(us) <= 0x1_0000_0000_0000_0000
    ensures Handed(Uses(us), data) == data <==>
              StoresIn(us) < 0x1_0000_0000_0000_0000 || BodyOf(us, 0) == None || BodyOf(us, 0) == Some(data)
  {
    var l := Uses(us);
    BodiesStayUntilFreed(us, l.counter);
    if StoresIn(us) < SIZE_T {
      NotYetStored(us, StoresIn(us));
    }
  }

  // ---------------------------------------------------------------------------
  // The object.

  class CoapClient {
    const table: TokenTable
    var isMulticast: bool
    var idCounter: nat
    var largeData: map<nat, seq<byte>>
    var signals: seq<Signal>       // what rx_signal_ has been called with

    ghost predicate Valid()
      reads this, table
    {
      table.Valid() && idCounter < SIZE_T
    }

    ghost function Model(): Client
      requires Valid()
      reads this, table, table.tracked
    {
      Client(table.Entries(), isMulticast, signals)
    }

    ghost function Large(): LargeData
      reads this
    {
      LargeData(idCounter, largeData)
    }

    constructor ()
      ensures Valid() && fresh(table) && fresh(table.tracked)
      ensures !isMulticast && idCounter == 0 && largeData == map[] && signals == [] && table.Entries() == []
      ensures Model() == Run([]) && Large() == Uses([])
    {
      table := new TokenTable();
      isMulticast, idCounter, largeData, signals := false, 0, map[], [];
    }

    /** The token is the library's; the body, if there is one, is what the library is given. */
    method SendRequest(token: Token, id: RequestId, data: seq<byte>, blockOk: bool, tokenOk: bool)
      returns (body: Option<seq<byte>>)
      requires Valid()
      modifies this`idCounter, this`largeData, table
      ensures Valid() && (fresh(table.tracked) || table.tracked == old(table.tracked))
      ensures Model() == Step(old(Model()), Request(token, id, blockOk && tokenOk))
      ensures Large() == if data == [] then old(Large()) else Stored(old(Large()), data)
      ensures body == if data == [] then None else Some(Handed(old(Large()), data))
    {
      table.TrackNew(token, id, false, blockOk, tokenOk);
      body := None;
      if |data| > 0 {
        var k := idCounter;
        idCounter := (idCounter + 1) % SIZE_T;
        if k !in largeData {
          largeData := largeData[k := data];
        }
        body := Some(largeData[k]);
      }
    }

    method MessageCallback(received: Pdu, sent: bool) returns (reply: Reply)
      requires Valid()
      modifies this`signals, table, table.tracked
      ensures Valid() && table.tracked == old(table.tracked)
      ensures Model() == Step(old(Model()), Receive(received, sent))
      ensures reply == ReplyFail <==> Ids(old(table.Entries()), received.token) == [] && !sent &&
                                      (received.typ == Con || received.typ == Non)
      ensures var w := Ids(old(table.Entries()), received.token);
              signals == old(signals) +
                if w != [] && received.typ != Rst && 64 <= received.code < 96
                then [Signal(w[0], if received.payload.Some? then received.payload.value else [])] else []
    {
      LookupFindsOldest(table.Entries(), received.token);
      var sameToken, reqId := table.Check(received.token);
      if !sameToken {
        if !sent && (received.typ.Con? || received.typ.Non?) {
          return ReplyFail;
        }
        return ReplyOk;
      }
      if received.typ.Rst? {
        return ReplyOk;
      }
      if ClassOf(received.code) == 2 {
        signals := signals + [Signal(reqId, if received.payload.Some? then received.payload.value else [])];
        if received.block2.Some? {
          if !received.block2.value {
            table.Flush(received.token, false);
          }
          return ReplyOk;
        }
      }
      if !isMulticast {
        table.Flush(received.token, false);
      }
      return ReplyOk;
    }

    method FreeLargeData(id: nat)
      requires Valid()
      modifies this`largeData
      ensures Valid() && largeData == old(largeData) - {id} && Large() == Used(old(Large()), Free(id))
    {
      largeData := largeData - {id};
    }

    /** The part of createSession that the callback depends on. */
    method SessionTo(multicastAddress: bool)
      requires Valid()
      modifies this`isMulticast
      ensures Valid() && isMulticast == multicastAddress
      ensures Model() == Step(old(Model()), SetMulticast(multicastAddress))
    {
      isMulticast := multicastAddress;
    }
  }
}
