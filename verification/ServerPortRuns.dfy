/** When one reload stops the server: exactly when it installs a server of the same port. */
module ServerPortRuns {
  import opened Prelude
  import opened ServerProtocol
  import opened ServerSafety
  import opened ServerTheorems
  import opened ServerPorts

  /** Nobody cancels, and no other reload begins. */
  predicate Undisturbed(events: seq<Event>) {
    Step(Cancel) !in events && Step(TakeSignal) !in events
  }

  /** Undisturbed events lead from n to m. */
  ghost predicate Leads(n: Net, port: Id -> int, m: Net) {
    exists events :: PossibleRun(n, port, events) && Undisturbed(events) && NetAfter(n, port, events) == m
  }

  ghost predicate Reached(n: Net, port: Id -> int) {
    exists events :: PossibleRun(NetAtStart(), port, events) && NetAfter(NetAtStart(), port, events) == n
  }

  lemma {:induction false} RunAppend(n: Net, port: Id -> int, events: seq<Event>, e: Event)
    requires PossibleRun(n, port, events) && Possible(NetAfter(n, port, events), port, e)
    ensures PossibleRun(n, port, events + [e])
    ensures NetAfter(n, port, events + [e]) == Happen(NetAfter(n, port, events), e)
    decreases |events|
  {
    if events == [] {
      assert events + [e] == [e];
      assert [e][1..] == [];
    } else {
      assert (events + [e])[1..] == events[1..] + [e];
      RunAppend(Happen(n, events[0]), port, events[1..], e);
    }
  }

  lemma {:induction false} RunsJoin(n: Net, port: Id -> int, first: seq<Event>, second: seq<Event>)
    requires PossibleRun(n, port, first) && PossibleRun(NetAfter(n, port, first), port, second)
    ensures PossibleRun(n, port, first + second)
    ensures NetAfter(n, port, first + second) == NetAfter(NetAfter(n, port, first), port, second)
    decreases |first|
  {
    if first == [] {
      assert first + second == second;
    } else {
      assert (first + second)[1..] == first[1..] + second;
      RunsJoin(Happen(n, first[0]), port, first[1..], second);
    }
  }

  lemma ReachedSound(n: Net, port: Id -> int)
    requires Reached(n, port)
    ensures Sound(n)
  {
    var events :| PossibleRun(NetAtStart(), port, events) && NetAfter(NetAtStart(), port, events) == n;
    ReachableSound(port, events);
  }

  lemma LeadsOn(n: Net, port: Id -> int, m: Net)
    requires Reached(n, port) && Leads(n, port, m)
    ensures Reached(m, port)
  {
    var first :| PossibleRun(NetAtStart(), port, first) && NetAfter(NetAtStart(), port, first) == n;
    var second :| PossibleRun(n, port, second) && Undisturbed(second) && NetAfter(n, port, second) == m;
    RunsJoin(NetAtStart(), port, first, second);
  }

  lemma NoEvents(n: Net, port: Id -> int)
    ensures Leads(n, port, n)
  {
    assert PossibleRun(n, port, []) && Undisturbed([]) && NetAfter(n, port, []) == n;
  }

  /** One more event. */
  lemma Go(n: Net, port: Id -> int, m: Net, e: Event) returns (k: Net)
    requires Leads(n, port, m) && Possible(m, port, e) && e != Step(Cancel) && e != Step(TakeSignal)
    ensures k == Happen(m, e) && Leads(n, port, k)
  {
    var events :| PossibleRun(n, port, events) && Undisturbed(events) && NetAfter(n, port, events) == m;
    RunAppend(n, port, events, e);
    assert Undisturbed(events + [e]);
    k := Happen(m, e);
  }

  lemma StillSound(n: Net, port: Id -> int, m: Net)
    requires Sound(n) && Leads(n, port, m)
    ensures Sound(m)
  {
    var events :| PossibleRun(n, port, events) && Undisturbed(events) && NetAfter(n, port, events) == m;
    RunSound(n, port, events);
  }

  /** Start is serving, nobody has cancelled, the installed server listens, and a reload has rebuilt. */
  ghost predicate AboutToInstall(n: Net) {
    && Sound(n) && n.state.reload.Built? && !n.state.cancelled && !n.state.main.Returned?
    && n.state.shared.channel.Some? && Listens(n, n.state.shared.channel.value)
  }

  predicate SamePort(n: Net, port: Id -> int)
    requires n.state.reload.Built?
  {
    PortOf(n.state, port, n.state.shared.ssh) == Some(port(n.state.reload.gen.config))
  }

  // ------------------------------------------------------------------- another port

  /** Only the reload with these products is under way, or it is over. */
  predicate OnlyReload(n: Net, gen: Generation, prior: Id, builds: map<Id, Build>) {
    && !n.state.cancelled && n.state.builds == builds
    && match n.state.reload
       case Built(g) => g == gen && n.state.shared.ssh == prior
       case Swapping(g, x, _, _) => g == gen && x == prior
       case Absent => false
       case Building => false
       case _ => true
  }

  lemma OnlyReloadAfter(n: Net, port: Id -> int, e: Event, gen: Generation, prior: Id, builds: map<Id, Build>)
    requires Sound(n) && Possible(n, port, e) && e != Step(Cancel) && e != Step(TakeSignal)
    requires OnlyReload(n, gen, prior, builds)
    ensures OnlyReload(Happen(n, e), gen, prior, builds)
  {
    if e.Step? && ByMain(e.action) {
      MainStepFrame(n.state, e.action);
    } else if e.Step? && !ByReload(e.action) {
      OnlyReloadAfterOther(n, port, e.action, gen, prior, builds);
    } else if e.Step? {
      OnlyReloadAfterReload(n, port, e.action, gen, prior, builds);
    }
  }

  lemma OnlyReloadAfterOther(n: Net, port: Id -> int, a: Action, gen: Generation, prior: Id, builds: map<Id, Build>)
    requires Possible(n, port, Step(a)) && !ByMain(a) && !ByReload(a) && !a.Cancel?
    requires OnlyReload(n, gen, prior, builds)
    ensures OnlyReload(Happen(n, Step(a)), gen, prior, builds)
  {
  }

  lemma OnlyReloadAfterReload(n: Net, port: Id -> int, a: Action, gen: Generation, prior: Id, builds: map<Id, Build>)
    requires Possible(n, port, Step(a)) && ByReload(a) && !a.TakeSignal?
    requires OnlyReload(n, gen, prior, builds)
    ensures OnlyReload(Happen(n, Step(a)), gen, prior, builds)
  {
  }

  lemma {:induction false} PortsChangeUndisturbed(n: Net, port: Id -> int, events: seq<Event>, gen: Generation,
      prior: Id, builds: map<Id, Build>)
    requires Sound(n) && PossibleRun(n, port, events) && Undisturbed(events)
    requires OnlyReload(n, gen, prior, builds)
    requires prior in builds && port(builds[prior].config) != port(gen.config)
    ensures PortsChange(n, port, events) && !NetAfter(n, port, events).state.cancelled
    decreases |events|
  {
    if events != [] {
      var e := events[0];
      assert e in events && forall x :: x in events[1..] ==> x in events;
      OnlyReloadAfter(n, port, e, gen, prior, builds);
      EventSound(n, port, e);
      PortsChangeUndisturbed(Happen(n, e), port, events[1..], gen, prior, builds);
    }
  }

  lemma OtherPortKeepsServing(n: Net, port: Id -> int, m: Net)
    requires AboutToInstall(n) && !SamePort(n, port) && Leads(n, port, m)
    ensures !m.state.main.Returned?
  {
    var events :| PossibleRun(n, port, events) && Undisturbed(events) && NetAfter(n, port, events) == m;
    PortsChangeUndisturbed(n, port, events, n.state.reload.gen, n.state.shared.ssh, n.state.builds);
    RunKept(n, port, events);
    ChannelKept(n, port, events);
  }

  /** Once there is a channel there always is one. */
  lemma {:induction false} ChannelKept(n: Net, port: Id -> int, events: seq<Event>)
    requires Sound(n) && PossibleRun(n, port, events) && n.state.shared.channel.Some?
    ensures NetAfter(n, port, events).state.shared.channel.Some?
    decreases |events|
  {
    if events != [] {
      var e := events[0];
      if e.Step? && ByMain(e.action) {
        MainStepFrame(n.state, e.action);
      } else if e.Step? && !ByReload(e.action) {
        OtherStepFrame(n.state, e.action);
      } else if e.Step? {
        ChannelKeptByReload(n.state, e.action);
      }
      EventSound(n, port, e);
      ChannelKept(Happen(n, e), port, events[1..]);
    }
  }

  lemma ChannelKeptByReload(s: State, a: Action)
    requires Enabled(s, a) && ByReload(a) && s.shared.channel.Some?
    ensures Apply(s, a).shared.channel.Some?
  {
  }

  // ------------------------------------------------------------------- the same port

  /** The net after the swap and the spawn of the new server. */
  function Installed(n: Net): Net
    requires n.state.reload.Built?
  {
    var s, gen, c := n.state, n.state.reload.gen, n.state.next;
    n.(state := s.(shared := Shared(gen.config, gen.logger, gen.server, Some(c)),
                   reload := Retiring(s.shared.ssh),
                   channels := s.channels[c := Channel(gen.server, [], 0, 0)],
                   runners := s.runners[c := Runner(gen.server, Serving)],
                   next := c + 1))
  }

  /** The net with the mutex held and the first two assignments done. */
  function HalfWritten(n: Net): Net
    requires n.state.reload.Built?
  {
    var s, gen := n.state, n.state.reload.gen;
    n.(state := s.(shared := s.shared.(config := gen.config, logger := gen.logger), locked := true,
                   reload := Swapping(gen, s.shared.ssh, true, 2)))
  }

  /** The net with all four written. */
  function Written(n: Net): Net
    requires n.state.reload.Built?
  {
    var s, gen, c := n.state, n.state.reload.gen, n.state.next;
    n.(state := s.(shared := Shared(gen.config, gen.logger, gen.server, Some(c)), locked := true,
                   reload := Swapping(gen, s.shared.ssh, true, 4),
                   channels := s.channels[c := Channel(gen.server, [], 0, 0)],
                   next := c + 1))
  }

  lemma HalfWrite(n: Net, port: Id -> int) returns (m: Net)
    requires n.state.reload.Built? && !n.state.locked && n.state.shared.channel.Some?
    ensures m == HalfWritten(n) && Leads(n, port, m)
  {
    NoEvents(n, port);
    m := Go(n, port, n, Step(Lock));
    m := Go(n, port, m, Step(WriteField));
    m := Go(n, port, m, Step(WriteField));
  }

  lemma Write(n: Net, port: Id -> int) returns (m: Net)
    requires n.state.reload.Built? && !n.state.locked && n.state.shared.channel.Some?
    ensures m == Written(n) && Leads(n, port, m)
  {
    m := HalfWrite(n, port);
    m := Go(n, port, m, Step(WriteField));
    m := Go(n, port, m, Step(WriteField));
  }

  lemma Install(n: Net, port: Id -> int) returns (m: Net)
    requires n.state.reload.Built? && !n.state.locked && n.state.shared.channel.Some?
    ensures m == Installed(n) && Leads(n, port, m)
  {
    m := Write(n, port);
    m := Go(n, port, m, Step(Unlock));
    m := Go(n, port, m, Step(SpawnNew));
  }

  lemma RefusalPossible(n: Net, port: Id -> int)
    requires AboutToInstall(n) && SamePort(n, port)
    ensures Possible(Installed(n), port, Step(ServeReturns(n.state.next, Failure(0))))
  {
    var s, m, c, d := n.state, Installed(n), n.state.next, n.state.shared.channel.value;
    assert ChannelOk(s, d);
    assert c in s.channels ==> ChannelOk(s, c);
    assert Listens(m, d) && m.state.runners[d].server == s.shared.ssh;
    assert PortOf(m.state, port, s.reload.gen.server) == PortOf(m.state, port, s.shared.ssh);
  }

  /** The new server's refusal is in its channel, and the old server is closed. */
  predicate Primed(n: Net, m: Net)
    requires n.state.reload.Built?
  {
    var s, t, c := n.state, m.state, n.state.next;
    && !t.cancelled && !t.locked && t.reload.Waiting?
    && t.shared == Installed(n).state.shared && c in t.channels && t.channels[c].buffer == [Failure(0)]
    && t.retired == s.retired + {s.shared.ssh}
  }

  /** The net after the new server was refused its port. */
  function RefusedNet(n: Net): Net
    requires n.state.reload.Built?
  {
    var m, c := Installed(n), n.state.next;
    var runner := Runner(n.state.reload.gen.server, Reporting(Failure(0)));
    m.(state := m.state.(runners := m.state.runners[c := runner]), refused := n.refused + {c})
  }

  lemma RefuseOnly(n: Net, port: Id -> int)
    requires n.state.reload.Built? && Leads(n, port, Installed(n))
    requires Possible(Installed(n), port, Step(ServeReturns(n.state.next, Failure(0))))
    ensures Leads(n, port, RefusedNet(n))
  {
    var m := Go(n, port, Installed(n), Step(ServeReturns(n.state.next, Failure(0))));
    assert m == RefusedNet(n);
  }

  /** The net after the new server has said so. */
  function ToldNet(n: Net): Net
    requires n.state.reload.Built?
  {
    var m, c := RefusedNet(n), n.state.next;
    var gen := n.state.reload.gen;
    m.(state := m.state.(runners := m.state.runners[c := Runner(gen.server, Finished(Failure(0)))],
                         channels := m.state.channels[c := Channel(gen.server, [Failure(0)], 1, 0)]))
  }

  lemma SayRefused(n: Net, port: Id -> int)
    requires n.state.reload.Built? && Leads(n, port, RefusedNet(n))
    ensures Leads(n, port, ToldNet(n))
  {
    var c, gen := n.state.next, n.state.reload.gen;
    assert RefusedNet(n).state.channels[c] == Channel(gen.server, [], 0, 0);
    assert Send(Channel(gen.server, [], 0, 0), Failure(0)) == Channel(gen.server, [Failure(0)], 1, 0);
    var m := Go(n, port, RefusedNet(n), Step(Report(c)));
    assert m == ToldNet(n);
  }

  lemma CloseOldServer(n: Net, port: Id -> int) returns (m: Net)
    requires n.state.reload.Built? && n.state.shared.channel.Some? && !n.state.cancelled && !n.state.locked
    requires Leads(n, port, ToldNet(n))
    ensures Leads(n, port, m) && Primed(n, m) && m.state.main == n.state.main
    ensures m.state.runners.Keys == n.state.runners.Keys + {n.state.next}
  {
    m := Go(n, port, ToldNet(n), Step(CloseOld));
  }

  lemma Refuse(n: Net, port: Id -> int) returns (m: Net)
    requires AboutToInstall(n) && SamePort(n, port)
    ensures Leads(n, port, m) && Primed(n, m) && m.state.main == n.state.main
    ensures m.state.runners.Keys == n.state.runners.Keys + {n.state.next}
  {
    m := Install(n, port);
    RefusalPossible(n, port);
    RefuseOnly(n, port);
    SayRefused(n, port);
    m := CloseOldServer(n, port);
  }

  /** The server of a channel that the loop waits for, but that is not installed, is closed. */
  lemma StaleIsClosed(n: Net, port: Id -> int, m: Net, d: Id)
    requires Sound(n) && n.state.reload.Built? && Leads(n, port, m) && Primed(n, m)
    requires d != n.state.next && m.state.main == Selecting(d)
    ensures d in m.state.channels && d in m.state.runners && m.state.runners[d].server in m.state.closed
    ensures m.state.channels[d].buffer != [] <==> m.state.runners[d].phase.Finished?
    ensures m.state.runners[d].phase.Reporting? ==> Enabled(m.state, Report(d))
  {
    StillSound(n, port, m);
    assert ChannelOk(m.state, d);
  }

  /** The stale channel's server returns from ListenAndServe, if it has not. */
  lemma EndStale(n: Net, port: Id -> int, m: Net, d: Id) returns (k: Net)
    requires Sound(n) && n.state.reload.Built? && Leads(n, port, m) && Primed(n, m)
    requires d != n.state.next && m.state.main == Selecting(d)
    ensures Leads(n, port, k) && Primed(n, k) && k.state.main == Selecting(d)
    ensures d in k.state.runners && !k.state.runners[d].phase.Serving?
    ensures k.state.runners.Keys == m.state.runners.Keys
  {
    k := m;
    StaleIsClosed(n, port, k, d);
    if k.state.runners[d].phase.Serving? {
      k := Go(n, port, k, Step(ServeReturns(d, Clean)));
    }
  }

  /** The message of a stale channel is brought into its buffer. */
  lemma Deliver(n: Net, port: Id -> int, m: Net, d: Id) returns (k: Net)
    requires Sound(n) && n.state.reload.Built? && Leads(n, port, m) && Primed(n, m)
    requires d != n.state.next && m.state.main == Selecting(d)
    ensures Leads(n, port, k) && Primed(n, k) && k.state.main == Selecting(d) && Holds(k.state, d)
    ensures k.state.runners.Keys == m.state.runners.Keys
  {
    k := EndStale(n, port, m, d);
    StaleIsClosed(n, port, k, d);
    if k.state.runners[d].phase.Reporting? {
      k := Go(n, port, k, Step(Report(d)));
    }
  }

  /** The loop dismisses the message of a stale channel. */
  lemma Dismiss(n: Net, port: Id -> int, m: Net) returns (k: Net)
    requires n.state.reload.Built? && Leads(n, port, m) && Primed(n, m) && m.state.main.Selecting?
    requires m.state.main.channel != n.state.next && Holds(m.state, m.state.main.channel)
    ensures Leads(n, port, k) && Primed(n, k) && k.state.main == Looping
    ensures k.state.runners.Keys == m.state.runners.Keys
  {
    k := Go(n, port, m, Step(SelectMessage));
    k := Go(n, port, k, Step(Recheck));
  }

  /** The loop comes round. */
  lemma ComeRound(n: Net, port: Id -> int, m: Net) returns (k: Net)
    requires Sound(n) && n.state.reload.Built? && Leads(n, port, m) && Primed(n, m)
    requires || m.state.main.Spawning? || m.state.main.Looping?
             || (m.state.main.Selecting? && m.state.main.channel != n.state.next)
             || (m.state.main.Rechecking? && m.state.main.channel != n.state.next)
    ensures Leads(n, port, k) && Primed(n, k) && k.state.main == Looping
    ensures !m.state.main.Spawning? ==> k.state.runners.Keys == m.state.runners.Keys
  {
    match m.state.main
    case Spawning(_, _) => k := Go(n, port, m, Step(SpawnFirst));
    case Selecting(d) =>
      k := Deliver(n, port, m, d);
      k := Dismiss(n, port, k);
    case Rechecking(_, _) => k := Go(n, port, m, Step(Recheck));
    case _ => k := m;
  }

  lemma Finish(n: Net, port: Id -> int, m: Net) returns (k: Net)
    requires n.state.reload.Built? && Leads(n, port, m) && Primed(n, m) && m.state.main == Looping
    ensures Leads(n, port, k) && k.state.main == Returned(ServerEnded(n.state.next, Failure(0)))
    ensures k.state == m.state.(main := k.state.main, channels := k.state.channels) && k.bound == m.bound
  {
    k := Go(n, port, m, Step(ReadChannel));
    k := Go(n, port, k, Step(SelectMessage));
    k := Go(n, port, k, Step(Recheck));
  }

  lemma WhereMainIs(n: Net)
    requires AboutToInstall(n)
    ensures var m := n.state.main;
            || m.Spawning? || m.Looping?
            || (m.Selecting? && m.channel != n.state.next) || (m.Rechecking? && m.channel != n.state.next)
  {
    var c := n.state.next;
    assert c in n.state.channels ==> ChannelOk(n.state, c);
  }

  lemma NobodyListens(n: Net, m: Net)
    requires n.state.reload.Built? && Sound(m) && Primed(n, m)
    ensures forall c :: !Listens(m, c)
  {
    assert ChannelOk(m.state, n.state.next);
    forall c
      ensures !Listens(m, c)
    {
      if c in m.state.runners && m.state.runners[c].server !in m.state.closed {
        UnclosedIsInstalledOrPrior(m, c);
      }
    }
  }

  lemma SamePortStopsServer(n: Net, port: Id -> int) returns (m: Net)
    requires AboutToInstall(n) && SamePort(n, port)
    ensures Leads(n, port, m) && m.state.main == Returned(ServerEnded(n.state.next, Failure(0)))
    ensures !m.state.cancelled && m.state.reload.Waiting? && m.state.retired == n.state.retired + {n.state.shared.ssh}
    ensures m.state.shared == Installed(n).state.shared && forall c :: !Listens(m, c)
    ensures !n.state.main.Spawning? ==> m.state.runners.Keys == n.state.runners.Keys + {n.state.next}
  {
    var refused := Refuse(n, port);
    WhereMainIs(n);
    var round := ComeRound(n, port, refused);
    StillSound(n, port, round);
    NobodyListens(n, round);
    m := Finish(n, port, round);
    forall c
      ensures !Listens(m, c)
    {
      assert !Listens(round, c);
    }
  }

  /**
    A reload that has rebuilt, of a server that listens, can stop the server if and only if both are
    configured for the same port: then some undisturbed continuation makes Start return, with nobody left
    listening; otherwise none does.
   */
  lemma ReloadStopsServerIffSamePort(n: Net, port: Id -> int)
    requires Reached(n, port) && AboutToInstall(n)
    ensures SamePort(n, port) <==> exists m :: Leads(n, port, m) && m.state.main.Returned?
    ensures SamePort(n, port) ==>
              exists m :: Leads(n, port, m) && !m.state.cancelled && (forall c :: !Listens(m, c)) &&
                m.state.main == Returned(ServerEnded(n.state.next, Failure(0)))
  {
    if SamePort(n, port) {
      var m := SamePortStopsServer(n, port);
    } else {
      forall m | Leads(n, port, m)
        ensures !m.state.main.Returned?
      {
        OtherPortKeepsServing(n, port, m);
      }
    }
  }

  // ------------------------------------------------------------------- one whole run

  /** One more event. */
  lemma Reach(n: Net, port: Id -> int, e: Event) returns (m: Net)
    requires Reached(n, port) && Possible(n, port, e)
    ensures m == Happen(n, e) && Reached(m, port)
  {
    var events :| PossibleRun(NetAtStart(), port, events) && NetAfter(NetAtStart(), port, events) == n;
    RunAppend(NetAtStart(), port, events, e);
    m := Happen(n, e);
  }

  /** The first server has been spawned. */
  function First(): Net {
    Net(State(Shared(0, 1, 2, Some(3)), false, Looping, Waiting, map[2 := Build(0, 1)],
              map[3 := Channel(2, [], 0, 0)], map[3 := Runner(2, Serving)], {}, {}, {}, false, {}, 4),
        {}, {})
  }

  /** It has its port. */
  function Bound(): Net {
    First().(bound := {3})
  }

  /** The loop waits, and a reload is building. */
  function Rebuilding(): Net {
    Bound().(state := First().state.(main := Selecting(3), reload := Building))
  }

  /** The first server has its port, and a reload has built the next generation. */
  function Built(): Net {
    Net(ReloadBuilt(), {3}, {})
  }

  lemma ReachFirst(port: Id -> int)
    ensures Reached(First(), port)
  {
    assert PossibleRun(NetAtStart(), port, []) && NetAfter(NetAtStart(), port, []) == NetAtStart();
    var n := Reach(NetAtStart(), port, Step(StartCall(true)));
    n := Reach(n, port, Step(MakeChannel));
    n := Reach(n, port, Step(SpawnFirst));
    assert n == First();
  }

  lemma FirstCanBind(port: Id -> int)
    ensures Possible(First(), port, Bind(3))
  {
  }

  lemma ReachBound(port: Id -> int)
    ensures Reached(Bound(), port)
  {
    ReachFirst(port);
    FirstCanBind(port);
    var n := Reach(First(), port, Bind(3));
    assert n == Bound();
  }

  lemma ReachBuilding(port: Id -> int)
    ensures Reached(Rebuilding(), port)
  {
    ReachBound(port);
    var n := Reach(Bound(), port, Step(ReadChannel));
    n := Reach(n, port, Step(TakeSignal));
    assert n == Rebuilding();
  }

  lemma ReachBuilt(port: Id -> int)
    ensures Reached(Built(), port)
  {
    ReachBuilding(port);
    var n := Reach(Rebuilding(), port, Step(BuildSucceeds));
    assert Rebuilding().state.builds[6 := Build(4, 5)] == ReloadBuilt().builds;
    assert n == Built();
  }

  /** The old server is closed, and may return from ListenAndServe. */
  lemma OldServerEnds(port: Id -> int, m: Net) returns (k: Net)
    requires Reached(m, port) && m.state.reload.Waiting? && 3 in m.state.runners
    requires m.state.shared.channel.Some? && m.state.shared.channel != Some(3)
    ensures Reached(k, port) && k.state == m.state.(runners := k.state.runners)
    ensures k.state.runners.Keys == m.state.runners.Keys && !k.state.runners[3].phase.Serving?
    ensures forall c :: c in m.state.runners && c != 3 ==> k.state.runners[c] == m.state.runners[c]
  {
    ReachedSound(m, port);
    assert ChannelOk(m.state, 3);
    k := m;
    if m.state.runners[3].phase.Serving? {
      k := Reach(m, port, Step(ServeReturns(3, Clean)));
    }
  }

  lemma BuiltIsReady(port: Id -> int)
    ensures Reached(Built(), port) && AboutToInstall(Built())
    ensures SamePort(Built(), port) <==> port(0) == port(4)
  {
    ReachBuilt(port);
    ReachedSound(Built(), port);
    assert Listens(Built(), 3);
  }

  lemma StoppedRun(port: Id -> int) returns (m: Net)
    requires port(0) == port(4)
    ensures Reached(m, port) && !m.state.cancelled && m.state.reload.Waiting? && m.state.retired == {2}
    ensures m.state.shared == Shared(4, 5, 6, Some(7)) && m.state.main == Returned(ServerEnded(7, Failure(0)))
    ensures m.state.runners.Keys == {3, 7} && m.state.runners[7].phase.Finished?
  {
    BuiltIsReady(port);
    m := SamePortStopsServer(Built(), port);
    LeadsOn(Built(), port, m);
    Returned7(port, m);
  }

  lemma Returned7(port: Id -> int, m: Net)
    requires Reached(m, port) && m.state.main == Returned(ServerEnded(7, Failure(0)))
    ensures 7 in m.state.runners && m.state.runners[7].phase.Finished?
  {
    ReachedSound(m, port);
  }

  /**
    A reload that succeeds can stop the server: on this run the new configuration names the same port, the
    new server asks for it before the old one is closed, and Start returns its failure, with no server left.
   */
  lemma ReloadCanStopServer(port: Id -> int) returns (n: Net)
    requires port(0) == port(4)
    ensures Reached(n, port) && !n.state.cancelled
    ensures n.state.shared.ssh == 6 && n.state.reload.Waiting? && n.state.retired == {2}
    ensures n.state.main == Returned(ServerEnded(7, Failure(0)))
    ensures forall c :: c in n.state.runners ==> !n.state.runners[c].phase.Serving?
  {
    var m := StoppedRun(port);
    n := OldServerEnds(port, m);
  }
}
