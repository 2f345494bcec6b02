/**
  The life of the TCP server's clients: accept and read completions interleaved with start,
  stop and setOptions, including completions that were already queued when the server was
  stopped.  Every handler and every API call is one atomic step.

  A completion of an operation may arrive in any way the operation can end, so a read that
  was outstanding when its client was stopped may still deliver data or an error.
 */
module TcpServers {
  import opened Streams

  datatype ClientState = Connected | Disconnected

  datatype ReadEnd = Data(bytes: Message) | Aborted | OtherError

  /** `C` names the client objects. */
  datatype State<C> = State(
    open: bool,                                   // acceptor_.is_open()
    accepts: nat,                                 // accepts issued and not completed
    connections: set<C>,                          // TcpServerManager::connections_
    running: set<C>,                              // clients with do_run_
    pending: map<C, nat>,                           // per started client, reads issued and not completed
    // history
    log: seq<(C, ClientState)>,                   // client_state_sig_, in order
    received: seq<(C, Message)>,                  // what clients' receive signals were called with
    swept: set<C>                                 // clients removed by stopAll
  )

  datatype Step<C> =
    | Start(protocolNone: bool, bindOk: bool)     // TcpServer::start, also by setOptions
    | Stop
    | Accepted(ok: bool, c: C)                    // an accept completes; `c` is the new client
    | ReadDone(c: C, end: ReadEnd)

  function Empty<C>(): State<C> {
    State(false, 0, {}, {}, map[], [], [], {})
  }

  predicate Enabled<C>(s: State<C>, st: Step<C>) {
    match st
    case Start(_, _) => true
    case Stop => true
    case Accepted(ok, c) => s.accepts > 0 && c !in s.pending      // a client is a new object
    case ReadDone(c, _) => c in s.pending && s.pending[c] > 0
  }

  /** Impl::stop: close the acceptor, then TcpServerManager::stopAll. */
  function Stopped<C>(s: State<C>): State<C> {
    s.(open := false, connections := {}, running := s.running - s.connections, swept := s.swept + s.connections)
  }

  /** TcpServerManager::start. */
  function ClientStarted<C>(s: State<C>, c: C): State<C>
    requires c !in s.pending
  {
    s.(connections := s.connections + {c}, running := s.running + {c}, pending := s.pending[c := 1],
       log := s.log + [(c, Connected)])
  }

  /** TcpServerManager::stop of one client. */
  function ClientStopped<C>(s: State<C>, c: C): State<C> {
    s.(connections := s.connections - {c}, running := s.running - {c}, log := s.log + [(c, Disconnected)])
  }

  function After<C>(s: State<C>, st: Step<C>): State<C>
    requires Enabled(s, st)
  {
    match st
    case Stop => Stopped(s)
    case Start(protocolNone, bindOk) =>
      var d := Stopped(s);
      if protocolNone then d
      else if bindOk then d.(open := true, accepts := d.accepts + 1)
      else d.(open := true)
    case Accepted(ok, c) =>
      var d := s.(accepts := s.accepts - 1);
      if !d.open || !ok then d else ClientStarted(d, c).(accepts := d.accepts + 1)
    case ReadDone(c, end) =>
      var d := s.(pending := s.pending[c := s.pending[c] - 1]);
      match end {
        case Data(bytes) =>
          var r := d.(received := d.received + [(c, bytes)]);
          if c in d.running then r.(pending := r.pending[c := r.pending[c] + 1]) else r
        case Aborted => d
        case OtherError => if c in d.running then ClientStopped(d, c) else d
      }
  }

  // ---------------------------------------------------------------------------
  // The invariant.

  /** What the signal has said about one client, in order. */
  function Told<C(==)>(log: seq<(C, ClientState)>, c: C): seq<ClientState> {
    if log == [] then []
    else Told(log[..|log| - 1], c) + if log[|log| - 1].0 == c then [log[|log| - 1].1] else []
  }

  lemma ToldSnoc<C>(log: seq<(C, ClientState)>, e: (C, ClientState), c: C)
    ensures Told(log + [e], c) == Told(log, c) + if e.0 == c then [e.1] else []
  {
    assert (log + [e])[..|log|] == log;
  }

  /** The story of a client so far. */
  function Story<C(==)>(s: State<C>, c: C): seq<ClientState> {
    if c !in s.pending then []
    else if c in s.connections || c in s.swept then [Connected]
    else [Connected, Disconnected]
  }

  ghost predicate SetsOk<C>(s: State<C>) {
    && s.connections == s.running
    && s.connections <= s.pending.Keys && s.swept <= s.pending.Keys && s.connections !! s.swept
    && (!s.open ==> s.connections == {})
  }

  ghost predicate OneRead<C>(s: State<C>) {
    forall c :: c in s.pending ==> s.pending[c] <= 1
  }

  ghost predicate Inv<C(!new)>(s: State<C>) {
    SetsOk(s) && OneRead(s) && forall c :: Told(s.log, c) == Story(s, c)
  }

  lemma StepKeepsSets<C>(s: State<C>, st: Step<C>)
    requires SetsOk(s) && Enabled(s, st)
    ensures SetsOk(After(s, st))
  {
    var s' := After(s, st);
    match st
    case Accepted(ok, c) => assert c !in s.swept && c !in s.connections;
    case ReadDone(c, end) => assert s'.pending.Keys == s.pending.Keys;
    case _ =>
  }

  lemma StepKeepsOneRead<C>(s: State<C>, st: Step<C>)
    requires OneRead(s) && Enabled(s, st)
    ensures OneRead(After(s, st))
  {
  }

  lemma StartTells<C>(s: State<C>, d: C, c: C)
    requires SetsOk(s) && d !in s.pending && Told(s.log, c) == Story(s, c)
    ensures Told(ClientStarted(s, d).log, c) == Story(ClientStarted(s, d), c)
  {
    ToldSnoc(s.log, (d, Connected), c);
  }

  lemma StopTells<C>(s: State<C>, d: C, c: C)
    requires SetsOk(s) && d in s.connections && Told(s.log, c) == Story(s, c)
    ensures Told(ClientStopped(s, d).log, c) == Story(ClientStopped(s, d), c)
  {
    ToldSnoc(s.log, (d, Disconnected), c);
    assert d == c ==> c !in s.swept;
  }

  /** The story depends on the sets alone. */
  lemma SameStory<C>(s: State<C>, t: State<C>, c: C)
    requires t.connections == s.connections && t.swept == s.swept && t.pending.Keys == s.pending.Keys
    ensures Story(t, c) == Story(s, c)
  {
  }

  lemma SweepTells<C>(s: State<C>, c: C)
    requires SetsOk(s)
    ensures Story(Stopped(s), c) == Story(s, c)
  {
  }

  lemma ReadTells<C>(s: State<C>, d: C, end: ReadEnd, c: C)
    requires SetsOk(s) && Enabled(s, ReadDone(d, end)) && Told(s.log, c) == Story(s, c)
    ensures Told(After(s, ReadDone(d, end)).log, c) == Story(After(s, ReadDone(d, end)), c)
  {
    var s' := After(s, ReadDone(d, end));
    assert s'.pending.Keys == s.pending.Keys;
    if end.OtherError? && d in s.running {
      StopTells(s, d, c);
      SameStory(ClientStopped(s, d), s', c);
    } else {
      SameStory(s, s', c);
    }
  }

  lemma AcceptTells<C>(s: State<C>, ok: bool, d: C, c: C)
    requires SetsOk(s) && Enabled(s, Accepted(ok, d)) && Told(s.log, c) == Story(s, c)
    ensures Told(After(s, Accepted(ok, d)).log, c) == Story(After(s, Accepted(ok, d)), c)
  {
    if s.open && ok {
      StartTells(s, d, c);
      SameStory(ClientStarted(s, d), After(s, Accepted(ok, d)), c);
    }
  }

  lemma StepKeepsStory<C>(s: State<C>, st: Step<C>, c: C)
    requires SetsOk(s) && Enabled(s, st) && Told(s.log, c) == Story(s, c)
    ensures Told(After(s, st).log, c) == Story(After(s, st), c)
  {
    match st
    case Accepted(ok, d) => AcceptTells(s, ok, d, c);
    case ReadDone(d, end) => ReadTells(s, d, end, c);
    case Stop => SweepTells(s, c);
    case Start(_, _) => SweepTells(s, c); SameStory(Stopped(s), After(s, st), c);
  }

  lemma StepKeepsInv<C(!new)>(s: State<C>, st: Step<C>)
    requires Inv(s) && Enabled(s, st)
    ensures Inv(After(s, st))
  {
    StepKeepsSets(s, st);
    StepKeepsOneRead(s, st);
    forall c
      ensures Told(After(s, st).log, c) == Story(After(s, st), c)
    {
      assert Told(s.log, c) == Story(s, c);
      StepKeepsStory(s, st, c);
    }
  }

  // ---------------------------------------------------------------------------
  // Runs.

  ghost predicate Legal<C>(s: State<C>, steps: seq<Step<C>>)
    decreases |steps|
  {
    steps == [] || (Enabled(s, steps[0]) && Legal(After(s, steps[0]), steps[1..]))
  }

  ghost function Exec<C>(s: State<C>, steps: seq<Step<C>>): State<C>
    requires Legal(s, steps)
    decreases |steps|
  {
    if steps == [] then s else Exec(After(s, steps[0]), steps[1..])
  }

  lemma {:induction false} RunKeepsInv<C(!new)>(s: State<C>, steps: seq<Step<C>>)
    requires Inv(s) && Legal(s, steps)
    ensures Inv(Exec(s, steps))
    decreases |steps|
  {
    if steps != [] {
      StepKeepsInv(s, steps[0]);
      RunKeepsInv(After(s, steps[0]), steps[1..]);
    }
  }

  /** Over every sequence of accepts, read completions, starts and stops: a client is in
      the set exactly while it runs; it has at most one read outstanding; the signal told
      of it once that it connected and, exactly if it has gone without being swept by a
      stop of the whole server, once afterwards that it disconnected. */
  lemma {:induction false} ClientLifecycle<C(!new)>(steps: seq<Step<C>>, c: C)
    requires Legal(Empty(), steps)
    ensures var s := Exec(Empty(), steps);
            && (c in s.connections <==> c in s.running)
            && (c in s.pending ==> s.pending[c] <= 1)
            && (c in s.connections ==> c in s.pending)
            && (Told(s.log, c) == [] <==> c !in s.pending)
            && (Told(s.log, c) == [Connected] <==> c in s.connections || c in s.swept)
            && (c in s.pending && c !in s.connections && c !in s.swept ==> Told(s.log, c) == [Connected, Disconnected])
  {
    RunKeepsInv(Empty<C>(), steps);
    var s := Exec(Empty(), steps);
    assert Told(s.log, c) == Story(s, c);
  }

  /** After every step, no client while the acceptor is closed, even when an accept that had
      already succeeded is delivered after the stop. */
  lemma {:induction false} NoClientWhileClosed<C(!new)>(steps: seq<Step<C>>)
    requires Legal(Empty(), steps)
    ensures var s := Exec(Empty(), steps); !s.open ==> s.connections == {} && s.running == {}
  {
    RunKeepsInv(Empty<C>(), steps);
  }

  /** Gone is for ever: a client that has left the set never comes back to it and is never
      signalled again, whatever completions were still queued for it. */
  lemma {:induction false} GoneForEver<C(!new)>(s: State<C>, steps: seq<Step<C>>, c: C)
    requires Inv(s) && Legal(s, steps) && c in s.pending && c !in s.connections
    ensures var t := Exec(s, steps);
            c in t.pending && c !in t.connections && t.pending[c] <= s.pending[c] && Told(t.log, c) == Told(s.log, c)
    decreases |steps|
  {
    if steps != [] {
      var n := After(s, steps[0]);
      StepKeepsInv(s, steps[0]);
      assert Told(s.log, c) == Story(s, c) && Told(n.log, c) == Story(n, c);
      StepKeepsGone(s, steps[0], c);
      GoneForEver(n, steps[1..], c);
    }
  }

  lemma StepKeepsGone<C>(s: State<C>, st: Step<C>, c: C)
    requires SetsOk(s) && Enabled(s, st) && c in s.pending && c !in s.connections
    ensures var n := After(s, st);
            && c in n.pending && c !in n.connections && n.pending[c] <= s.pending[c]
            && (c in n.swept <==> c in s.swept)
  {
  }

  // ---------------------------------------------------------------------------
  // What the steps alone say: when the server is open, which clients it has, and that it
  // goes on accepting and reading.

  lemma {:induction false} ExecSnoc<C>(s: State<C>, steps: seq<Step<C>>, st: Step<C>)
    requires Legal(s, steps + [st])
    ensures Legal(s, steps) && Enabled(Exec(s, steps), st)
    ensures Exec(s, steps + [st]) == After(Exec(s, steps), st)
    decreases |steps|
  {
    if steps == [] {
      assert steps + [st] == [st] && [st][1..] == [];
    } else {
      assert (steps + [st])[0] == steps[0] && (steps + [st])[1..] == steps[1..] + [st];
      ExecSnoc(After(s, steps[0]), steps[1..], st);
    }
  }

  predicate Commands<C>(st: Step<C>) {
    st.Start? || st.Stop?
  }

  /** The last start or stop among the steps was a start with a protocol. */
  ghost predicate OpenBy<C>(steps: seq<Step<C>>) {
    exists i :: 0 <= i < |steps| && steps[i].Start? && !steps[i].protocolNone
                && forall j :: i < j < |steps| ==> !Commands(steps[j])
  }

  lemma OpenBySnoc<C>(steps: seq<Step<C>>, st: Step<C>)
    ensures OpenBy(steps + [st]) <==> if Commands(st) then st.Start? && !st.protocolNone else OpenBy(steps)
  {
    var all := steps + [st];
    assert all[|steps|] == st && forall j :: 0 <= j < |steps| ==> all[j] == steps[j];
    if !Commands(st) {
      if OpenBy(steps) {
        var i :| 0 <= i < |steps| && steps[i].Start? && !steps[i].protocolNone
                 && forall j :: i < j < |steps| ==> !Commands(steps[j]);
        assert all[i].Start? && forall j :: i < j < |all| ==> !Commands(all[j]);
      }
      if OpenBy(all) {
        var i :| 0 <= i < |all| && all[i].Start? && !all[i].protocolNone
                 && forall j :: i < j < |all| ==> !Commands(all[j]);
        assert steps[i].Start? && forall j :: i < j < |steps| ==> !Commands(steps[j]) by {
          assert forall j :: i < j < |steps| ==> !Commands(all[j]);
        }
      }
    }
  }

  /** The acceptor is open exactly when the last command was a start with a protocol. */
  lemma {:induction false} OpenIsLastCommand<C>(steps: seq<Step<C>>)
    requires Legal(Empty<C>(), steps)
    ensures Exec(Empty<C>(), steps).open <==> OpenBy(steps)
    decreases |steps|
  {
    if steps != [] {
      var front, st := steps[..|steps| - 1], steps[|steps| - 1];
      assert steps == front + [st];
      ExecSnoc(Empty<C>(), front, st);
      OpenIsLastCommand(front);
      OpenBySnoc(front, st);
    }
  }

  /** The client was accepted while the server was open, and since then there was no start, no
      stop, and no read error but an abort. */
  ghost predicate MemberBy<C>(steps: seq<Step<C>>, c: C) {
    exists i :: 0 <= i < |steps| && steps[i] == Accepted(true, c) && OpenBy(steps[..i])
                && forall j :: i < j < |steps| ==> !Commands(steps[j]) && steps[j] != ReadDone(c, OtherError)
  }

  lemma MemberBySnoc<C>(steps: seq<Step<C>>, st: Step<C>, c: C)
    ensures MemberBy(steps + [st], c) <==>
              if st == Accepted(true, c) && OpenBy(steps) then true
              else MemberBy(steps, c) && !Commands(st) && st != ReadDone(c, OtherError)
  {
    var all := steps + [st];
    assert forall i :: 0 <= i <= |steps| ==> all[..i] == steps[..i];
    assert all[|steps|] == st && steps[..|steps|] == steps;
    assert forall i :: 0 <= i < |steps| ==> all[i] == steps[i];
    if MemberBy(steps, c) && !Commands(st) && st != ReadDone(c, OtherError) {
      var i :| 0 <= i < |steps| && steps[i] == Accepted(true, c) && OpenBy(steps[..i])
               && forall j :: i < j < |steps| ==> !Commands(steps[j]) && steps[j] != ReadDone(c, OtherError);
      assert all[i] == Accepted(true, c) && OpenBy(all[..i]);
    }
  }

  /** The clients in the set, from the steps alone. */
  lemma {:induction false} MembersAreTheAccepted<C(!new)>(steps: seq<Step<C>>, c: C)
    requires Legal(Empty<C>(), steps)
    ensures c in Exec(Empty<C>(), steps).connections <==> MemberBy(steps, c)
    decreases |steps|
  {
    if steps != [] {
      var front, st := steps[..|steps| - 1], steps[|steps| - 1];
      assert steps == front + [st];
      ExecSnoc(Empty<C>(), front, st);
      RunKeepsInv(Empty<C>(), front);
      MembersAreTheAccepted(front, c);
      OpenIsLastCommand(front);
      MemberBySnoc(front, st, c);
    }
  }

  /** The i-th step started the server with a protocol and a successful bind, and since then
      there was no start, no stop and no failed accept. */
  ghost predicate StartedBy<C>(steps: seq<Step<C>>, i: nat) {
    && i < |steps| && steps[i] == Start(false, true)
    && forall j :: i < j < |steps| ==> !Commands(steps[j]) && !(steps[j].Accepted? && !steps[j].ok)
  }

  /** So long the server stays open with an accept outstanding. */
  lemma {:induction false} GoesOnAccepting<C>(steps: seq<Step<C>>, i: nat)
    requires Legal(Empty<C>(), steps) && StartedBy(steps, i)
    ensures Exec(Empty<C>(), steps).open && Exec(Empty<C>(), steps).accepts >= 1
    decreases |steps|
  {
    var front, st := steps[..|steps| - 1], steps[|steps| - 1];
    assert steps == front + [st];
    ExecSnoc(Empty<C>(), front, st);
    if i < |front| {
      GoesOnAccepting(front, i);
      assert !Commands(st) && !(st.Accepted? && !st.ok);
    }
  }

  /** Then the next connection is taken: the client is in the set, runs, has one read
      outstanding, is signalled as connected, and the next accept is under way. */
  lemma NextClientIsTaken<C(!new)>(steps: seq<Step<C>>, i: nat, c: C)
    requires Legal(Empty<C>(), steps) && StartedBy(steps, i) && c !in Exec(Empty<C>(), steps).pending
    ensures Enabled(Exec(Empty<C>(), steps), Accepted(true, c))
    ensures var t := After(Exec(Empty<C>(), steps), Accepted(true, c));
            && c in t.connections && c in t.running && c in t.pending && t.pending[c] == 1
            && Told(t.log, c) == [Connected] && t.accepts >= 1
  {
    GoesOnAccepting(steps, i);
    RunKeepsInv(Empty<C>(), steps);
    OpenServerTakes(Exec(Empty<C>(), steps), c);
  }

  lemma OpenServerTakes<C(!new)>(s: State<C>, c: C)
    requires Inv(s) && s.open && s.accepts >= 1 && c !in s.pending
    ensures Enabled(s, Accepted(true, c))
    ensures var t := After(s, Accepted(true, c));
            && c in t.connections && c in t.running && c in t.pending && t.pending[c] == 1
            && Told(t.log, c) == [Connected] && t.accepts >= 1
  {
    var t := After(s, Accepted(true, c));
    assert Told(s.log, c) == Story(s, c);
    StepKeepsInv(s, Accepted(true, c));
    assert Told(t.log, c) == Story(t, c);
  }

  /** A client in the set goes on reading: it has exactly one read outstanding unless one of
      its reads was aborted. */
  lemma {:induction false} GoesOnReading<C(!new)>(steps: seq<Step<C>>, c: C)
    requires Legal(Empty<C>(), steps) && c in Exec(Empty<C>(), steps).connections
    ensures var s := Exec(Empty<C>(), steps);
            c in s.pending && (s.pending[c] == 1 <==> ReadDone(c, Aborted) !in steps)
    decreases |steps|
  {
    if steps != [] {
      var front, st := steps[..|steps| - 1], steps[|steps| - 1];
      assert steps == front + [st];
      ExecSnoc(Empty<C>(), front, st);
      RunKeepsInv(Empty<C>(), front);
      RunKeepsInv(Empty<C>(), steps);
      if c in Exec(Empty<C>(), front).connections {
        GoesOnReading(front, c);
      } else {
        assert st == Accepted(true, c);
        NoReadBeforeAccept(front, c);
      }
    }
  }

  lemma {:induction false} NoReadBeforeAccept<C>(steps: seq<Step<C>>, c: C)
    requires Legal(Empty<C>(), steps) && c !in Exec(Empty<C>(), steps).pending
    ensures ReadDone(c, Aborted) !in steps
    decreases |steps|
  {
    if steps != [] {
      var front, st := steps[..|steps| - 1], steps[|steps| - 1];
      assert steps == front + [st];
      ExecSnoc(Empty<C>(), front, st);
      NoReadBeforeAccept(front, c);
    }
  }

  /** A read error, other than an abort, of a client in the set takes it out and is told once. */
  lemma ReadErrorIsTold<C(!new)>(s: State<C>, c: C)
    requires Inv(s) && Enabled(s, ReadDone(c, OtherError)) && c in s.connections
    ensures var t := After(s, ReadDone(c, OtherError));
            && c !in t.connections && t.connections == s.connections - {c}
            && Told(s.log, c) == [Connected] && Told(t.log, c) == [Connected, Disconnected]
  {
    StepKeepsInv(s, ReadDone(c, OtherError));
    var t := After(s, ReadDone(c, OtherError));
    assert Told(s.log, c) == Story(s, c) && Told(t.log, c) == Story(t, c);
  }

  /** What the steps say was read. */
  function Read<C>(steps: seq<Step<C>>): seq<(C, Message)> {
    if steps == [] then []
    else
      (if steps[0].ReadDone? && steps[0].end.Data? then [(steps[0].c, steps[0].end.bytes)] else [])
      + Read(steps[1..])
  }

  /** Everything read is handed on, in order, whether or not the client still runs. */
  lemma {:induction false} ReadsAreReceived<C>(s: State<C>, steps: seq<Step<C>>)
    requires Legal(s, steps)
    ensures Exec(s, steps).received == s.received + Read(steps)
    decreases |steps|
  {
    if steps != [] {
      ReadsAreReceived(After(s, steps[0]), steps[1..]);
    }
  }

  // ---------------------------------------------------------------------------
  // The objects.

  class TcpServerClient {
    var doRun: bool
    var pending: nat       // reads handed to the operating system

    constructor ()
      ensures doRun && pending == 0
    {
      doRun, pending := true, 0;
    }

    method Start()
      modifies this
      ensures doRun && pending == old(pending) + 1
    {
      doRun := true;
      pending := pending + 1;
    }

    method Stop()
      modifies this`doRun
      ensures !doRun
    {
      doRun := false;
    }
  }

  class TcpServer {
    var isOpen: bool
    var accepts: nat
    var connections: set<TcpServerClient>
    ghost var started: set<TcpServerClient>
    ghost var log: seq<(TcpServerClient, ClientState)>
    ghost var received: seq<(TcpServerClient, Message)>
    ghost var swept: set<TcpServerClient>

    ghost function Model(): State<TcpServerClient>
      reads this, started
    {
      State(isOpen, accepts, connections,
            set c | c in started && c.doRun,
            map c | c in started :: c.pending,
            log, received, swept)
    }

    /** Every client in the set has been started. */
    ghost predicate Valid()
      reads this
    {
      connections <= started
    }

    constructor ()
      ensures Valid() && Model() == Empty() && started == {}
      ensures !isOpen && accepts == 0 && connections == {} && log == [] && received == []
    {
      isOpen, accepts, connections := false, 0, {};
      started, log, received, swept := {}, [], [], {};
    }

    method StopAll()
      requires Valid()
      modifies this`connections, this`swept, connections`doRun
      ensures Valid() && started == old(started)
      ensures connections == {} && forall c :: c in old(connections) ==> !c.doRun
      ensures Model() == Stopped(old(Model())).(open := isOpen)
    {
      var rest := connections;
      while rest != {}
        invariant rest <= connections == old(connections) && swept == old(swept)
        invariant forall c :: c in connections - rest ==> !c.doRun
        invariant forall c :: c in started && (c !in connections || c in rest) ==> c.doRun == old(c.doRun)
        decreases |rest|
      {
        var c :| c in rest;
        c.Stop();
        rest := rest - {c};
      }
      swept := swept + connections;
      connections := {};
      assert Model().running == old(Model()).running - old(connections);
      assert Model().pending == old(Model()).pending;
    }

    method Stop()
      requires Valid()
      modifies this`isOpen, this`connections, this`swept, connections`doRun
      ensures Valid() && started == old(started)
      ensures !isOpen && connections == {} && forall c :: c in old(connections) ==> !c.doRun
      ensures Model() == After(old(Model()), Step<TcpServerClient>.Stop)
    {
      isOpen := false;
      StopAll();
    }

    method Start(protocolNone: bool, bindOk: bool)
      requires Valid()
      modifies this`isOpen, this`accepts, this`connections, this`swept, connections`doRun
      ensures Valid() && started == old(started)
      ensures isOpen == !protocolNone && connections == {}
      ensures accepts == old(accepts) + if !protocolNone && bindOk then 1 else 0
      ensures Model() == After(old(Model()), Step<TcpServerClient>.Start(protocolNone, bindOk))
    {
      Stop();
      if protocolNone {
        return;
      }
      isOpen := true;
      if bindOk {
        accepts := accepts + 1;
      }
    }

    /** A server that is not open takes the options and stays closed. */
    method SetOptions(protocolNone: bool, bindOk: bool)
      requires Valid()
      modifies this`isOpen, this`accepts, this`connections, this`swept, connections`doRun
      ensures Valid() && started == old(started)
      ensures Model() == if old(isOpen) then After(old(Model()), Step<TcpServerClient>.Start(protocolNone, bindOk))
                         else old(Model())
    {
      if isOpen {
        Start(protocolNone, bindOk);
      }
    }

    /** The accept handler: a new client, unless the server has been stopped meanwhile. */
    method OnAccept(ok: bool) returns (c: TcpServerClient?)
      requires Valid() && accepts > 0
      modifies this`accepts, this`connections, this`started, this`log
      ensures Valid()
      ensures old(isOpen) && ok ==>
                c != null && fresh(c) && c !in old(Model()).pending && started == old(started) + {c}
                && connections == old(connections) + {c} && c.doRun && c.pending == 1 && accepts == old(accepts)
                && Model() == After(old(Model()), Accepted(ok, c))
      ensures !(old(isOpen) && ok) ==> Model() == old(Model()).(accepts := old(accepts) - 1)
    {
      accepts := accepts - 1;
      c := null;
      if !isOpen {
        return;
      }
      if ok {
        c := new TcpServerClient();
        ghost var running, pending := Model().running, Model().pending;
        StartClient(c);
        accepts := accepts + 1;
        assert Model().running == running + {c};
        assert Model().pending == pending[c := 1];
      }
    }

    /** TcpServerManager::start. */
    method StartClient(c: TcpServerClient)
      requires Valid() && c !in started && c.pending == 0
      modifies this`connections, this`started, this`log, c
      ensures Valid() && started == old(started) + {c} && c.doRun && c.pending == 1
      ensures connections == old(connections) + {c} && log == old(log) + [(c, Connected)]
    {
      connections := connections + {c};
      started := started + {c};
      c.Start();
      log := log + [(c, Connected)];
    }

    /** TcpServerManager::stop. */
    method StopClient(c: TcpServerClient)
      requires Valid() && c in started
      modifies this`connections, this`log, c`doRun
      ensures Valid() && !c.doRun
      ensures connections == old(connections) - {c} && log == old(log) + [(c, Disconnected)]
    {
      c.Stop();
      log := log + [(c, Disconnected)];
      connections := connections - {c};
    }

    /** onReceive, and the next read if the client still runs. */
    method Deliver(c: TcpServerClient, bytes: Message)
      requires Valid() && c in started
      modifies this`received, c`pending
      ensures received == old(received) + [(c, bytes)]
      ensures c.pending == old(c.pending) + if c.doRun then 1 else 0
    {
      received := received + [(c, bytes)];
      if c.doRun {
        c.pending := c.pending + 1;
      }
    }

    /** The read handler of a client. */
    method OnRead(c: TcpServerClient, end: ReadEnd)
      requires Valid() && c in started && c.pending > 0
      modifies this`connections, this`log, this`received, c
      ensures Valid() && started == old(started)
      ensures Model() == After(old(Model()), ReadDone(c, end))
    {
      ghost var s := Model();
      ghost var t := After(s, ReadDone(c, end));
      c.pending := c.pending - 1;
      if end.Data? {
        Deliver(c, end.bytes);
        assert Model().running == s.running;
      } else if end.OtherError? && c.doRun {
        StopClient(c);
        assert Model().running == s.running - {c};
      } else {
        assert Model().running == s.running;
      }
      assert Model().pending == t.pending;
    }
  }
}
