/**
  Connecting and reading in the TCP client.  `disconnect` turns the run flag off and nothing
  turns it on again, yet a connection made afterwards still starts one read.
 */
module TcpClients {
  import opened Streams

  /** How far a call to connect has come: what is under way for it. */
  datatype Stage = Resolving | Connecting | Reading | Over

  datatype Delivery = Delivery(attempt: nat, data: Message)

  datatype State = State(
    run: bool,                    // should_run_
    attempts: seq<Stage>,         // one for each call to connect
    received: seq<Delivery>       // history: what the receive signal was called with
  )

  datatype Step =
    | Connect
    | Disconnect
    | Resolved(i: nat, ok: bool)
    | Connected(i: nat, ok: bool)
    | ReadDone(i: nat, ok: bool, data: Message)

  const INITIAL := State(true, [], [])

  predicate At(s: State, i: nat, stage: Stage) {
    i < |s.attempts| && s.attempts[i] == stage
  }

  predicate Enabled(s: State, st: Step) {
    match st
    case Connect => true
    case Disconnect => true
    case Resolved(i, _) => At(s, i, Resolving)
    case Connected(i, _) => At(s, i, Connecting)
    case ReadDone(i, _, _) => At(s, i, Reading)
  }

  function Ends(s: State, i: nat): State
    requires i < |s.attempts|
  {
    s.(attempts := s.attempts[i := Over], run := false)
  }

  function After(s: State, st: Step): State
    requires Enabled(s, st)
  {
    match st
    case Connect => s.(attempts := s.attempts + [Resolving])
    case Disconnect => s.(run := false)
    case Resolved(i, ok) => if ok then s.(attempts := s.attempts[i := Connecting]) else Ends(s, i)
    case Connected(i, ok) => if ok then s.(attempts := s.attempts[i := Reading]) else Ends(s, i)
    case ReadDone(i, ok, data) =>
      if !ok then Ends(s, i)
      else s.(received := s.received + [Delivery(i, data)],
              attempts := s.attempts[i := if s.run then Reading else Over])
  }

  ghost predicate Legal(s: State, steps: seq<Step>)
    decreases |steps|
  {
    steps == [] || (Enabled(s, steps[0]) && Legal(After(s, steps[0]), steps[1..]))
  }

  ghost function Exec(s: State, steps: seq<Step>): State
    requires Legal(s, steps)
    decreases |steps|
  {
    if steps == [] then s else Exec(After(s, steps[0]), steps[1..])
  }

  function Failed(st: Step): bool {
    match st
    case Disconnect => true
    case Resolved(_, ok) => !ok
    case Connected(_, ok) => !ok
    case ReadDone(_, ok, _) => !ok
    case Connect => false
  }

  /** How many chunks the i-th attempt has delivered. */
  function Chunks(received: seq<Delivery>, i: nat): nat {
    if received == [] then 0
    else
      var n := |received| - 1;
      Chunks(received[..n], i) + if received[n].attempt == i then 1 else 0
  }

  lemma ChunksSnoc(received: seq<Delivery>, d: Delivery, i: nat)
    ensures Chunks(received + [d], i) == Chunks(received, i) + if d.attempt == i then 1 else 0
  {
    assert (received + [d])[..|received|] == received;
  }

  /** The i-th attempt, made or still to be made, can still lead to a delivery. */
  predicate Open(s: State, i: nat) {
    i < |s.attempts| ==> s.attempts[i] != Over
  }

  lemma StoppedStep(s: State, st: Step, i: nat)
    requires !s.run && Enabled(s, st)
    ensures var t := After(s, st);
            && !t.run && s.received <= t.received
            && (Open(t, i) ==> Open(s, i))
            && Chunks(t.received, i) == Chunks(s.received, i) + (if Delivers(st, i) then 1 else 0)
            && (Delivers(st, i) ==> Open(s, i) && !Open(t, i))
  {
    if st.ReadDone? && st.ok {
      ChunksSnoc(s.received, Delivery(st.i, st.data), i);
    }
  }

  predicate Delivers(st: Step, i: nat) {
    st.ReadDone? && st.ok && st.i == i
  }

  /** After a disconnect, asked for or caused by an error, the client is off for good, and each
      connection, under way or made later, delivers at most one more chunk of data, and none
      if it was over. */
  lemma {:induction false} OneDeliveryPerConnectOnceStopped(s: State, steps: seq<Step>, i: nat)
    requires !s.run && Legal(s, steps)
    ensures var t := Exec(s, steps);
            && !t.run
            && s.received <= t.received
            && Chunks(t.received, i) + (if Open(t, i) then 1 else 0)
               <= Chunks(s.received, i) + (if Open(s, i) then 1 else 0)
    decreases |steps|
  {
    if steps != [] {
      StoppedStep(s, steps[0], i);
      OneDeliveryPerConnectOnceStopped(After(s, steps[0]), steps[1..], i);
    }
  }

  ghost predicate AllOpen(s: State) {
    forall i: nat :: Open(s, i)
  }

  function Connects(steps: seq<Step>): nat {
    if steps == [] then 0 else (if steps[0].Connect? then 1 else 0) + Connects(steps[1..])
  }

  /** Until then no attempt comes to an end: the run flag is on exactly as long as nobody has
      disconnected and nothing has failed, and every call to connect is resolving, connecting
      or reading. */
  lemma {:induction false} ReadsGoOnWhileRunning(s: State, steps: seq<Step>)
    requires s.run && AllOpen(s) && Legal(s, steps)
    ensures var t := Exec(s, steps);
            && (t.run <==> forall i :: 0 <= i < |steps| ==> !Failed(steps[i]))
            && (t.run ==> AllOpen(t) && |t.attempts| == |s.attempts| + Connects(steps))
    decreases |steps|
  {
    if steps != [] {
      var n := After(s, steps[0]);
      if n.run {
        forall i: nat
          ensures Open(n, i)
        {
          assert Open(s, i);
        }
        ReadsGoOnWhileRunning(n, steps[1..]);
        assert forall i :: 1 <= i < |steps| ==> steps[i] == steps[1..][i - 1];
      } else {
        assert Failed(steps[0]);
        OneDeliveryPerConnectOnceStopped(n, steps[1..], 0);
      }
    }
  }

  // ---------------------------------------------------------------------------
  // What the steps alone say: what is received, and how far each attempt has come.

  /** The data of the reads that succeeded. */
  function Reads(steps: seq<Step>): seq<Delivery> {
    if steps == [] then []
    else (if steps[0].ReadDone? && steps[0].ok then [Delivery(steps[0].i, steps[0].data)] else []) + Reads(steps[1..])
  }

  /** Everything read is handed on unchanged and in order, and nothing else. */
  lemma {:induction false} ReadsAreReceived(s: State, steps: seq<Step>)
    requires Legal(s, steps)
    ensures Exec(s, steps).received == s.received + Reads(steps)
    decreases |steps|
  {
    if steps != [] {
      ReadsAreReceived(After(s, steps[0]), steps[1..]);
    }
  }

  lemma {:induction false} ExecSnoc(s: State, steps: seq<Step>, st: Step)
    requires Legal(s, steps + [st])
    ensures Legal(s, steps) && Enabled(Exec(s, steps), st)
    ensures Exec(s, steps + [st]) == After(Exec(s, steps), st)
    decreases |steps|
  {
    if steps == [] {
      assert steps + [st] == [st] && [st][1..] == [];
    } else {
      assert (steps + [st])[0] == steps[0] && (steps + [st])[1..] == steps[1..] + [st];
      ExecSnoc(After(s, steps[0]), steps[1..], st);
    }
  }

  /** The step is the answer to something the i-th attempt has under way. */
  predicate Answers(st: Step, i: nat) {
    match st
    case Resolved(k, _) => k == i
    case Connected(k, _) => k == i
    case ReadDone(k, _, _) => k == i
    case _ => false
  }

  ghost predicate AllWell(steps: seq<Step>) {
    forall j :: 0 <= j < |steps| ==> !Failed(steps[j])
  }

  /** What an answer leads to: the next operation on success, where a further read also needs
      that nothing has failed and nobody has disconnected before it; otherwise the end. */
  ghost predicate LeadsTo(before: seq<Step>, st: Step, stage: Stage) {
    match st
    case Resolved(_, ok) => stage == if ok then Connecting else Over
    case Connected(_, ok) => stage == if ok then Reading else Over
    case ReadDone(_, ok, _) => stage == if ok && AllWell(before) then Reading else Over
    case _ => true
  }

  /** The i-th attempt is where the last answer to it has led it. */
  lemma {:induction false} StageIsLastAnswer(steps: seq<Step>, i: nat, k: nat)
    requires Legal(INITIAL, steps) && k < |steps| && Answers(steps[k], i)
    requires forall j :: k < j < |steps| ==> !Answers(steps[j], i)
    ensures var s := Exec(INITIAL, steps);
            i < |s.attempts| && LeadsTo(steps[..k], steps[k], s.attempts[i])
    decreases |steps|
  {
    var front, st := steps[..|steps| - 1], steps[|steps| - 1];
    assert steps == front + [st];
    ExecSnoc(INITIAL, front, st);
    if k < |front| {
      assert front[..k] == steps[..k];
      StageIsLastAnswer(front, i, k);
      assert !Answers(st, i);
    } else {
      RunsWhileWell(front);
    }
  }

  lemma RunsWhileWell(steps: seq<Step>)
    requires Legal(INITIAL, steps)
    ensures Exec(INITIAL, steps).run <==> AllWell(steps)
  {
    ReadsGoOnWhileRunning(INITIAL, steps);
  }

  /** Every call to connect makes an attempt; without an answer yet it is resolving. */
  lemma {:induction false} UnansweredIsResolving(steps: seq<Step>, i: nat)
    requires Legal(INITIAL, steps) && forall j :: 0 <= j < |steps| ==> !Answers(steps[j], i)
    ensures var s := Exec(INITIAL, steps);
            |s.attempts| == Connects(steps) && (i < |s.attempts| ==> s.attempts[i] == Resolving)
    decreases |steps|
  {
    if steps != [] {
      var front, st := steps[..|steps| - 1], steps[|steps| - 1];
      assert steps == front + [st];
      ExecSnoc(INITIAL, front, st);
      UnansweredIsResolving(front, i);
      ConnectsSnoc(front, st);
      assert !Answers(st, i);
    }
  }

  lemma {:induction false} ConnectsSnoc(steps: seq<Step>, st: Step)
    ensures Connects(steps + [st]) == Connects(steps) + if st.Connect? then 1 else 0
  {
    if steps == [] {
      assert steps + [st] == [st] && [st][1..] == [];
    } else {
      assert (steps + [st])[0] == steps[0] && (steps + [st])[1..] == steps[1..] + [st];
      ConnectsSnoc(steps[1..], st);
    }
  }

  class TcpClient {
    var shouldRun: bool
    var attempts: seq<Stage>
    ghost var received: seq<Delivery>

    ghost function Model(): State
      reads this
    {
      State(shouldRun, attempts, received)
    }

    constructor ()
      ensures shouldRun && attempts == [] && received == [] && Model() == INITIAL
    {
      shouldRun, attempts, received := true, [], [];
    }

    method Connect()
      modifies this`attempts
      ensures Model() == After(old(Model()), Step.Connect)
    {
      attempts := attempts + [Resolving];
    }

    method Disconnect()
      modifies this`shouldRun
      ensures !shouldRun && Model() == After(old(Model()), Step.Disconnect)
    {
      shouldRun := false;
    }

    method OnResolved(i: nat, ok: bool)
      requires At(Model(), i, Resolving)
      modifies this
      ensures Model() == After(old(Model()), Resolved(i, ok))
    {
      if ok {
        attempts := attempts[i := Connecting];
      } else {
        attempts := attempts[i := Over];
        Disconnect();
      }
    }

    method HandleConnect(i: nat, ok: bool)
      requires At(Model(), i, Connecting)
      modifies this
      ensures |attempts| == |old(attempts)| && attempts[i] == if ok then Reading else Over
      ensures Model() == After(old(Model()), Connected(i, ok))
    {
      attempts := attempts[i := Over];
      if ok {
        StartRead(i);
      } else {
        Disconnect();
      }
    }

    method StartRead(i: nat)
      requires At(Model(), i, Over)
      modifies this`attempts
      ensures attempts == old(attempts)[i := Reading]
    {
      attempts := attempts[i := Reading];
    }

    method HandleRead(i: nat, ok: bool, data: Message)
      requires At(Model(), i, Reading)
      modifies this
      ensures received == old(received) + if ok then [Delivery(i, data)] else []
      ensures Model() == After(old(Model()), ReadDone(i, ok, data))
    {
      attempts := attempts[i := Over];
      if ok {
        received := received + [Delivery(i, data)];
        if shouldRun {
          StartRead(i);
        }
      } else {
        Disconnect();
      }
    }
  }
}
