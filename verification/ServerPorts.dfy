/**
  Reloading with ports taken into account. reloadConfiguration starts the new server before it closes
  the old one, so that on the same port the new one can be refused its port, and its failure, on the
  installed channel, ends Start.

  The library is less free here than in ServerProtocol: ListenAndServe fails exactly when another server
  of this process listens on the port, and once it listens it returns only after Close.
 */
module ServerPorts {
  import opened Prelude
  import opened ServerProtocol
  import opened ServerSafety
  import opened ServerTheorems

  /** bound: the channels whose servers got their port; refused: those whose servers did not */
  datatype Net = Net(state: State, bound: set<Id>, refused: set<Id>)

  datatype Event = Step(action: Action) | Bind(channel: Id)

  /** The goroutine that reports on c is inside ListenAndServe and has got no port yet. */
  predicate Binding(n: Net, c: Id) {
    c in n.state.runners && n.state.runners[c].phase.Serving? && c !in n.bound
  }

  /** The server that reports on c holds its port. */
  predicate Listens(n: Net, c: Id) {
    && c in n.state.runners && n.state.runners[c].phase.Serving? && c in n.bound
    && n.state.runners[c].server !in n.state.closed
  }

  /** port(x) is the port in configuration x */
  function PortOf(s: State, port: Id -> int, x: Id): Option<int> {
    if x in s.builds then Some(port(s.builds[x].config)) else None
  }

  /** A server other than x listens on the port of x. */
  ghost predicate Taken(n: Net, port: Id -> int, x: Id) {
    exists c :: c in n.state.runners && Listens(n, c) && n.state.runners[c].server != x &&
      PortOf(n.state, port, n.state.runners[c].server) == PortOf(n.state, port, x)
  }

  ghost predicate Possible(n: Net, port: Id -> int, e: Event) {
    match e
    case Bind(c) => Binding(n, c) && !Taken(n, port, n.state.runners[c].server)
    case Step(a) =>
      && Enabled(n.state, a)
      && (a.ServeReturns? ==>
            var x := n.state.runners[a.channel].server;
            if x in n.state.closed then a.msg.Clean?
            else a.msg.Failure? && Binding(n, a.channel) && Taken(n, port, x))
  }

  function Happen(n: Net, e: Event): Net
    requires e.Step? ==> Enabled(n.state, e.action)
  {
    match e
    case Bind(c) => n.(bound := n.bound + {c})
    case Step(a) =>
      n.(state := Apply(n.state, a),
         refused := if a.ServeReturns? && a.msg.Failure? then n.refused + {a.channel} else n.refused)
  }

  ghost predicate PossibleRun(n: Net, port: Id -> int, events: seq<Event>)
    decreases |events|
  {
    events == [] || (Possible(n, port, events[0]) && PossibleRun(Happen(n, events[0]), port, events[1..]))
  }

  ghost function NetAfter(n: Net, port: Id -> int, events: seq<Event>): Net
    requires PossibleRun(n, port, events)
    decreases |events|
  {
    if events == [] then n else NetAfter(Happen(n, events[0]), port, events[1..])
  }

  function NetAtStart(): Net {
    Net(Initial(), {}, {})
  }

  /** A message is a refusal's or, after a Close, none; and only a refusal ends Start before cancellation. */
  ghost predicate Accounted(n: Net) {
    && (forall c :: c in n.state.runners && !n.state.runners[c].phase.Serving? && c !in n.refused ==>
          n.state.runners[c].server in n.state.closed)
    && (forall c :: c in n.refused ==> c in n.state.runners && !n.state.runners[c].phase.Serving?)
    && (forall c :: c in n.bound ==> c in n.state.runners)
    && Explained(n.state)
    && (!n.state.cancelled ==>
          && n.state.stopped == {} && n.state.held == {} && ClosedByShutdown(n.state.main) == {}
          && !n.state.main.Stopping? && !n.state.main.Closing?
          && (n.state.main.Returned? && n.state.main.outcome.ServerEnded? ==>
                n.state.main.outcome.channel in n.refused))
  }

  /** What every net that a run reaches satisfies. */
  ghost predicate Sound(n: Net) {
    Inv(n.state) && Accounted(n)
  }

  lemma MainStepAccounted(n: Net, port: Id -> int, a: Action)
    requires Sound(n) && Possible(n, port, Step(a)) && ByMain(a) && !a.Recheck?
    ensures Accounted(Happen(n, Step(a)))
  {
    MainStepExplained(n.state, a);
  }

  lemma RecheckAccounted(n: Net, port: Id -> int)
    requires Sound(n) && Possible(n, port, Step(Recheck))
    ensures Accounted(Happen(n, Step(Recheck)))
  {
    MainStepExplained(n.state, Recheck);
    assert ChannelOk(n.state, n.state.main.channel);
  }

  lemma ReloadStepAccounted(n: Net, port: Id -> int, a: Action)
    requires Sound(n) && Possible(n, port, Step(a)) && ByReload(a)
    ensures Accounted(Happen(n, Step(a)))
  {
    OtherStepExplained(n.state, a);
    assert a.SpawnNew? ==> ChannelOk(n.state, n.state.reload.channel.value);
    if a.Lock? || a.WriteField? || a.Unlock? {
      SwapStepFrame(n.state, a);
    } else {
      ReloadStepFrame(n.state, a);
    }
  }

  /** The step leaves main and the stops alone, and it closes and starts only what it is there for. */
  predicate ReloadFrame(s: State, a: Action, t: State) {
    && t.main == s.main && t.stopped == s.stopped && t.held == s.held && t.cancelled == s.cancelled
    && (!a.CloseOld? ==> t.closed == s.closed) && (!a.SpawnNew? ==> t.runners == s.runners)
  }

  lemma SwapStepFrame(s: State, a: Action)
    requires Enabled(s, a) && (a.Lock? || a.WriteField? || a.Unlock?)
    ensures ReloadFrame(s, a, Apply(s, a))
  {
  }

  lemma ReloadStepFrame(s: State, a: Action)
    requires Enabled(s, a) && ByReload(a) && !a.Lock? && !a.WriteField? && !a.Unlock?
    ensures ReloadFrame(s, a, Apply(s, a))
  {
  }

  lemma OtherStepAccounted(n: Net, port: Id -> int, a: Action)
    requires Sound(n) && Possible(n, port, Step(a)) && !ByMain(a) && !ByReload(a)
    ensures Accounted(Happen(n, Step(a)))
  {
    OtherStepExplained(n.state, a);
  }

  lemma EventSound(n: Net, port: Id -> int, e: Event)
    requires Sound(n) && Possible(n, port, e)
    ensures Sound(Happen(n, e))
  {
    if e.Step? {
      StepKeepsInv(n.state, e.action);
      if e.action.Recheck? {
        RecheckAccounted(n, port);
      } else if ByMain(e.action) {
        MainStepAccounted(n, port, e.action);
      } else if ByReload(e.action) {
        ReloadStepAccounted(n, port, e.action);
      } else {
        OtherStepAccounted(n, port, e.action);
      }
    }
  }

  lemma {:induction false} RunSound(n: Net, port: Id -> int, events: seq<Event>)
    requires Sound(n) && PossibleRun(n, port, events)
    ensures Sound(NetAfter(n, port, events))
    decreases |events|
  {
    if events != [] {
      EventSound(n, port, events[0]);
      RunSound(Happen(n, events[0]), port, events[1..]);
    }
  }

  lemma ReachableSound(port: Id -> int, events: seq<Event>)
    requires PossibleRun(NetAtStart(), port, events)
    ensures Sound(NetAfter(NetAtStart(), port, events))
  {
    InitialInv();
    RunSound(NetAtStart(), port, events);
  }

  /** The server that a reload has replaced and has still to close listens on the port of the installed one. */
  ghost predicate OldServerInTheWay(n: Net, port: Id -> int) {
    var s := n.state;
    && s.reload.Retiring? && PortOf(s, port, s.reload.prior) == PortOf(s, port, s.shared.ssh)
    && exists c :: c in s.runners && Listens(n, c) && s.runners[c].server == s.reload.prior
  }

  /** A server that nobody has closed is installed, or the reload that replaced it has still to close it. */
  lemma UnclosedIsInstalledOrPrior(n: Net, c: Id)
    requires Sound(n) && c in n.state.runners && n.state.runners[c].server !in n.state.closed
    ensures n.state.shared.channel == Some(c) || CloseAhead(n.state, n.state.runners[c].server)
  {
    assert ChannelOk(n.state, c);
  }

  /** While the old server is open and the installed one has been spawned, the reload is about to do its Close. */
  lemma SpawnedBeforeClose(n: Net, x: Id)
    requires Sound(n) && n.state.shared.channel.Some? && n.state.shared.channel.value in n.state.runners
    requires CloseAhead(n.state, x)
    ensures n.state.reload == Retiring(x) && n.state.runners[n.state.shared.channel.value].server == n.state.shared.ssh
  {
    var s := n.state;
    assert ChannelOk(s, s.shared.channel.value);
    assert s.reload.Swapped? ==> ChannelOk(s, s.reload.channel.value);
  }

  lemma TakenIff(n: Net, port: Id -> int)
    requires Sound(n) && n.state.shared.channel.Some? && Binding(n, n.state.shared.channel.value)
    ensures Taken(n, port, n.state.runners[n.state.shared.channel.value].server) <==> OldServerInTheWay(n, port)
  {
    var s := n.state;
    var c := s.shared.channel.value;
    var x := s.runners[c].server;
    if Taken(n, port, x) {
      var d :| d in s.runners && Listens(n, d) && s.runners[d].server != x &&
        PortOf(s, port, s.runners[d].server) == PortOf(s, port, x);
      UnclosedIsInstalledOrPrior(n, d);
      SpawnedBeforeClose(n, s.runners[d].server);
    }
    if OldServerInTheWay(n, port) {
      SpawnedBeforeClose(n, s.reload.prior);
    }
  }

  /**
    When the installed channel's server asks for its port, the port is taken exactly when the reload that
    installed it has still to close the old server, that one listens, and both are configured for the same port.
   */
  lemma PortTakenIffOldServerInTheWay(port: Id -> int, events: seq<Event>)
    requires PossibleRun(NetAtStart(), port, events)
    requires var n := NetAfter(NetAtStart(), port, events);
             n.state.shared.channel.Some? && Binding(n, n.state.shared.channel.value)
    ensures var n := NetAfter(NetAtStart(), port, events);
            Taken(n, port, n.state.runners[n.state.shared.channel.value].server) <==> OldServerInTheWay(n, port)
  {
    ReachableSound(port, events);
    TakenIff(NetAfter(NetAtStart(), port, events), port);
  }

  /** Once its reload has closed the old server, the installed server can have its port. */
  lemma PortFreeAfterReload(port: Id -> int, events: seq<Event>)
    requires PossibleRun(NetAtStart(), port, events)
    requires var n := NetAfter(NetAtStart(), port, events);
             n.state.shared.channel.Some? && Binding(n, n.state.shared.channel.value) && Quiet(n.state.reload)
    ensures var n := NetAfter(NetAtStart(), port, events);
            Possible(n, port, Bind(n.state.shared.channel.value))
  {
    ReachableSound(port, events);
    PortTakenIffOldServerInTheWay(port, events);
  }

  /** The reload in flight is about to close a server of the same port as the installed one. */
  predicate SamePortOpen(n: Net, port: Id -> int) {
    var s := n.state;
    s.reload.Retiring? && PortOf(s, port, s.reload.prior) == PortOf(s, port, s.shared.ssh)
  }

  /** No server is refused its port at any other time. */
  lemma RefusedWhileSamePortOpen(n: Net, port: Id -> int, c: Id, msg: Message)
    requires Sound(n) && Possible(n, port, Step(ServeReturns(c, msg))) && msg.Failure?
    ensures SamePortOpen(n, port)
  {
    var s := n.state;
    var x := s.runners[c].server;
    var d :| d in s.runners && Listens(n, d) && s.runners[d].server != x &&
      PortOf(s, port, s.runners[d].server) == PortOf(s, port, x);
    UnclosedIsInstalledOrPrior(n, c);
    UnclosedIsInstalledOrPrior(n, d);
    if s.shared.channel == Some(c) {
      SpawnedBeforeClose(n, s.runners[d].server);
    } else if s.shared.channel == Some(d) {
      SpawnedBeforeClose(n, x);
    }
  }

  /** Somewhere on this run the server of channel c is refused its port, by another of the same port still open. */
  ghost predicate RefusedAlong(n: Net, port: Id -> int, events: seq<Event>, c: Id)
    requires PossibleRun(n, port, events)
    decreases |events|
  {
    events != [] &&
    (RefusedNow(n, port, events[0], c) || RefusedAlong(Happen(n, events[0]), port, events[1..], c))
  }

  ghost predicate RefusedNow(n: Net, port: Id -> int, e: Event, c: Id) {
    && e.Step? && e.action.ServeReturns? && e.action.channel == c && e.action.msg.Failure?
    && SamePortOpen(n, port)
  }

  lemma RefusedIffNow(n: Net, port: Id -> int, e: Event, c: Id)
    requires Sound(n) && Possible(n, port, e)
    ensures c in Happen(n, e).refused <==> c in n.refused || RefusedNow(n, port, e, c)
  {
    if e.Step? && e.action.ServeReturns? && e.action.msg.Failure? {
      RefusedWhileSamePortOpen(n, port, e.action.channel, e.action.msg);
    }
  }

  lemma {:induction false} RefusedIffAlong(n: Net, port: Id -> int, events: seq<Event>, c: Id)
    requires Sound(n) && PossibleRun(n, port, events)
    ensures c in NetAfter(n, port, events).refused <==> c in n.refused || RefusedAlong(n, port, events, c)
    decreases |events|
  {
    if events != [] {
      RefusedIffNow(n, port, events[0], c);
      EventSound(n, port, events[0]);
      RefusedIffAlong(Happen(n, events[0]), port, events[1..], c);
    }
  }

  /**
    Before cancellation, the re-read of the server loop ends Start exactly when the message is that of a
    server that was refused its port, while its reload had still to close one of the same port, and no later
    reload has replaced that server.
   */
  lemma RecheckEndsStartIffRefused(port: Id -> int, events: seq<Event>)
    requires PossibleRun(NetAtStart(), port, events)
    requires var n := NetAfter(NetAtStart(), port, events); !n.state.cancelled && Enabled(n.state, Recheck)
    ensures var n := NetAfter(NetAtStart(), port, events);
            var c := n.state.main.channel;
            && (c in n.refused <==> RefusedAlong(NetAtStart(), port, events, c))
            && (Apply(n.state, Recheck).main.Returned? <==> c in n.refused && n.state.shared.channel == Some(c))
  {
    ReachableSound(port, events);
    InitialInv();
    var n := NetAfter(NetAtStart(), port, events);
    assert ChannelOk(n.state, n.state.main.channel);
    RefusedIffAlong(NetAtStart(), port, events, n.state.main.channel);
  }

  /** As long as no server is refused its port and nobody cancels, Start does not return once it serves. */
  lemma NobodyRefusedNobodyReturns(port: Id -> int, events: seq<Event>)
    requires PossibleRun(NetAtStart(), port, events)
    requires var n := NetAfter(NetAtStart(), port, events);
             !n.state.cancelled && n.refused == {} && n.state.shared.channel.Some?
    ensures !NetAfter(NetAtStart(), port, events).state.main.Returned?
  {
    ReachableSound(port, events);
  }

  // ------------------------------------------------------------------- reloads that change the port

  /** This event is the assignment that replaces a server by one of the same port. */
  predicate InstallsSamePort(n: Net, port: Id -> int, e: Event) {
    var r := n.state.reload;
    && e == Step(WriteField) && r.Swapping? && r.written == 2 && r.wasRunning
    && PortOf(n.state, port, r.prior) == Some(port(r.gen.config))
  }

  /** On this run every reload of a running server changes the port. */
  ghost predicate PortsChange(n: Net, port: Id -> int, events: seq<Event>)
    requires PossibleRun(n, port, events)
    decreases |events|
  {
    events == [] ||
    (!InstallsSamePort(n, port, events[0]) && PortsChange(Happen(n, events[0]), port, events[1..]))
  }

  /** Between its third assignment and its Close, a reload's two servers have different ports. */
  predicate Apart(n: Net, port: Id -> int) {
    var s := n.state;
    match s.reload
    case Swapping(gen, prior, wasRunning, written) =>
      wasRunning && written >= 3 ==> PortOf(s, port, prior) != Some(port(gen.config))
    case Swapped(server, _, prior) => PortOf(s, port, prior) != PortOf(s, port, server)
    case Retiring(prior) => PortOf(s, port, prior) != PortOf(s, port, s.shared.ssh)
    case _ => true
  }

  lemma ApartAfterReloadStep(n: Net, port: Id -> int, a: Action)
    requires Sound(n) && Possible(n, port, Step(a)) && ByReload(a) && Apart(n, port)
    requires !InstallsSamePort(n, port, Step(a))
    ensures Apart(Happen(n, Step(a)), port)
  {
  }

  lemma ApartAfterOtherEvent(n: Net, port: Id -> int, e: Event)
    requires Sound(n) && Possible(n, port, e) && (e.Step? ==> !ByReload(e.action)) && Apart(n, port)
    ensures Apart(Happen(n, e), port)
  {
    if e.Step? && ByMain(e.action) {
      MainStepFrame(n.state, e.action);
    } else if e.Step? {
      OtherStepFrame(n.state, e.action);
    }
  }

  /** A step of main touches the shared fields and the reload only to begin, and returns only at its end. */
  lemma MainStepFrame(s: State, a: Action)
    requires Enabled(s, a) && ByMain(a)
    ensures var t := Apply(s, a);
            && t.builds == s.builds && t.cancelled == s.cancelled
            && t.shared == (if a.MakeChannel? then s.shared.(channel := Some(s.next)) else s.shared)
            && t.reload == (if a.StartCall? && a.metricsOk then Waiting else s.reload)
            && (t.main.Returned? ==>
                  || a.StartCall? || a.Drain?
                  || (a.Recheck? && t.main == Returned(ServerEnded(s.main.channel, s.main.msg)) &&
                      s.shared.channel == Some(s.main.channel)))
  {
  }

  lemma OtherStepFrame(s: State, a: Action)
    requires Enabled(s, a) && !ByMain(a) && !ByReload(a)
    ensures var t := Apply(s, a);
            && t.builds == s.builds && t.shared == s.shared && t.reload == s.reload && t.main == s.main
            && (s.cancelled ==> t.cancelled)
  {
  }

  lemma NobodyRefused(n: Net, port: Id -> int, e: Event)
    requires Sound(n) && Possible(n, port, e) && Apart(n, port)
    ensures Happen(n, e).refused == n.refused
  {
    if e.Step? && e.action.ServeReturns? && e.action.msg.Failure? {
      RefusedWhileSamePortOpen(n, port, e.action.channel, e.action.msg);
    }
  }

  /** The installed server was not refused its port; before cancellation Start has not returned. */
  predicate Kept(n: Net) {
    n.state.shared.channel.Some? ==>
      n.state.shared.channel.value !in n.refused && (!n.state.cancelled ==> !n.state.main.Returned?)
  }

  lemma KeptAfter(n: Net, port: Id -> int, e: Event)
    requires Sound(n) && Possible(n, port, e) && Kept(n) && Happen(n, e).refused == n.refused
    requires Sound(Happen(n, e))
    ensures Kept(Happen(n, e))
  {
    if e.Step? && ByReload(e.action) {
      KeptAfterReloadStep(n, port, e.action);
    } else {
      KeptAfterOtherEvent(n, port, e);
    }
  }

  lemma KeptAfterReloadStep(n: Net, port: Id -> int, a: Action)
    requires Sound(n) && Possible(n, port, Step(a)) && ByReload(a) && Kept(n)
    ensures Kept(Happen(n, Step(a)))
  {
    var next := n.state.next;
    assert next in n.state.channels ==> ChannelOk(n.state, next);
  }

  lemma KeptAfterOtherEvent(n: Net, port: Id -> int, e: Event)
    requires Sound(n) && Possible(n, port, e) && (e.Step? ==> !ByReload(e.action)) && Kept(n)
    requires Happen(n, e).refused == n.refused && Sound(Happen(n, e))
    ensures Kept(Happen(n, e))
  {
    var next := n.state.next;
    assert next in n.state.channels ==> ChannelOk(n.state, next);
    if e.Step? && ByMain(e.action) {
      MainStepFrame(n.state, e.action);
    } else if e.Step? {
      OtherStepFrame(n.state, e.action);
    }
  }

  lemma {:induction false} RunKept(n: Net, port: Id -> int, events: seq<Event>)
    requires Sound(n) && PossibleRun(n, port, events) && PortsChange(n, port, events)
    requires Apart(n, port) && Kept(n)
    ensures NetAfter(n, port, events).refused == n.refused && Kept(NetAfter(n, port, events))
    decreases |events|
  {
    if events != [] {
      var e := events[0];
      NobodyRefused(n, port, e);
      if e.Step? && ByReload(e.action) {
        ApartAfterReloadStep(n, port, e.action);
      } else {
        ApartAfterOtherEvent(n, port, e);
      }
      EventSound(n, port, e);
      KeptAfter(n, port, e);
      RunKept(Happen(n, e), port, events[1..]);
    }
  }

  /**
    If every reload of the running server changes the port, then no server is ever refused its port, and
    before cancellation Start does not return once it serves.
   */
  lemma PortChangesKeepServing(port: Id -> int, events: seq<Event>)
    requires PossibleRun(NetAtStart(), port, events) && PortsChange(NetAtStart(), port, events)
    ensures var n := NetAfter(NetAtStart(), port, events);
            && n.refused == {}
            && (!n.state.cancelled && n.state.shared.channel.Some? ==> !n.state.main.Returned?)
  {
    InitialInv();
    RunKept(NetAtStart(), port, events);
  }
}
