/** The embedded server's lifecycle: its fields under the lock, and its calls in any interleaving. */
module Embedded {
  import opened Prelude

  /** Listeners, options, loggers and servers are known by number. */
  type Id = nat

  datatype Fields = Fields(
    listener: Option<Id>,
    opts: Id,
    logger: Option<Id>,
    ssh: Option<Id>,
    started: bool,
    stopUsed: bool) // stopOnce has run its function

  /** How the parts of Configure that follow the listener check end. */
  datatype Attempt = LoggerFails | BuildFails(logger: Id) | Succeeds(logger: Id, server: Id)

  /** Configure: the new fields, and whether it succeeded */
  function Configured(f: Fields, listener: Option<Id>, opts: Id, attempt: Attempt): (Fields, bool) {
    if f.started then (f, false)
    else
      var f1 := if listener.Some? then f.(listener := listener) else f;
      if f1.listener.None? then (f1, false)
      else
        var f2 := f1.(opts := opts);
        match attempt
        case LoggerFails => (f2, false)
        case BuildFails(logger) => (f2.(logger := Some(logger)), false)
        case Succeeds(logger, server) => (f2.(logger := Some(logger), ssh := Some(server)), true)
  }

  /** The locked section of Start accepts. */
  predicate MayStart(f: Fields) {
    !f.started && f.ssh.Some?
  }

  /** validateStopPreconditions accepts. */
  predicate MayStop(f: Fields) {
    f.started && f.ssh.Some?
  }

  function CleanedUp(f: Fields): Fields {
    f.(ssh := None, listener := None)
  }

  class StandardEmbeddedSSHServer {
    var listener: Option<Id>
    var opts: Id
    var logger: Option<Id>
    var ssh: Option<Id>
    var started: bool
    var stopUsed: bool

    function View(): Fields
      reads this
    {
      Fields(listener, opts, logger, ssh, started, stopUsed)
    }

    constructor (listener: Id, opts: Id)
      ensures View() == Fields(Some(listener), opts, None, None, false, false)
    {
      this.listener, this.opts, logger, ssh, started, stopUsed := Some(listener), opts, None, None, false, false;
    }

    method Configure(newListener: Option<Id>, newOpts: Id, attempt: Attempt) returns (ok: bool)
      modifies this
      ensures (View(), ok) == Configured(old(View()), newListener, newOpts, attempt)
      ensures !ok ==> ssh == old(ssh) && started == old(started) && stopUsed == old(stopUsed)
      ensures ok ==> listener.Some? && (newListener.Some? ==> listener == newListener)
      ensures ok <==> !old(started) && (newListener.Some? || old(listener).Some?) && attempt.Succeeds?
      ensures listener == if old(started) || newListener.None? then old(listener) else newListener
      ensures opts == if old(started) || listener.None? then old(opts) else newOpts
      ensures logger == if old(started) || listener.None? || attempt.LoggerFails? then old(logger)
                        else Some(attempt.logger)
      ensures ssh == if ok then Some(attempt.server) else old(ssh)
    {
      if started {
        return false;
      }
      if newListener.Some? {
        listener := newListener;
      }
      if listener.None? {
        return false;
      }
      opts := newOpts;
      if attempt.LoggerFails? {
        return false;
      }
      logger := Some(attempt.logger);
      if attempt.BuildFails? {
        return false;
      }
      ssh := Some(attempt.server);
      ok := true;
    }

    /** The locked section of Start; the results are the server to serve with and the listener to serve on. */
    method BeginStart() returns (server: Option<Id>, on: Option<Id>)
      modifies this`started
      ensures old(MayStart(View())) ==> View() == old(View()).(started := true) && server == ssh && on == listener
      ensures !old(MayStart(View())) ==> View() == old(View()) && server == None && on == None
      ensures server.Some? <==> !old(started) && old(ssh).Some?
      ensures forall s: State :: s.fields == old(View()) ==>
                && Apply(s, Start).fields == View()
                && Apply(s, Start).starting == s.starting + if server.Some? then [Serving(server.value, on)] else []
    {
      if started || ssh.None? {
        return None, None;
      }
      started := true;
      server, on := ssh, listener;
    }

    /** validateStopPreconditions */
    method ServerToStop() returns (server: Option<Id>)
      ensures server == if MayStop(View()) then ssh else None
      ensures server.Some? <==> started && ssh.Some?
      ensures forall s: State :: s.fields == View() ==>
                Apply(s, Stop) ==
                if server.Some? then s.(stopping := s.stopping + multiset{server.value}) else s
    {
      server := if !started || ssh.None? then None else ssh;
    }

    /** stopOnce.Do: whether this call is the one that runs executeShutdown */
    method EnterOnce() returns (first: bool)
      modifies this`stopUsed
      ensures first <==> !old(stopUsed)
      ensures View() == old(View()).(stopUsed := true)
      ensures forall s: State, x :: s.fields == old(View()) && Enabled(s, Once(x)) ==>
                && Apply(s, Once(x)).fields == View()
                && Apply(s, Once(x)).closing == s.closing + if first then [x] else []
    {
      first := !stopUsed;
      stopUsed := true;
    }

    method Cleanup()
      modifies this
      ensures View() == CleanedUp(old(View()))
      ensures ssh.None? && listener.None? && opts == old(opts) && logger == old(logger)
      ensures started == old(started) && stopUsed == old(stopUsed)
      ensures !MayStart(View()) && !MayStop(View())
      ensures forall s: State :: s.fields == old(View()) ==> Apply(s, Action.Cleanup).fields == View()
    {
      ssh := None;
      listener := None;
    }
  }

  // ------------------------------------------------------------------- all interleavings

  /** A call of Serve on this server with this listener */
  datatype Serving = Serving(server: Id, listener: Option<Id>)

  /** The fields, the calls under way, and the calls made on the SSH library. */
  datatype State = State(
    fields: Fields,
    built: Option<Id>,       // the server of the last Configure that succeeded
    builtOn: Option<Id>,     // the listener in place when it did
    brought: Option<Id>,     // the last listener that a Configure brought since, failing after all
    starting: seq<Serving>,  // Start calls past their locked section, before Serve
    stopping: multiset<Id>,  // Stop calls past their checks, before the once
    closing: seq<Id>,        // the shutdown under way, before Close
    served: seq<Serving>,    // the calls of Serve
    closed: seq<Id>,         // Close was called on these
    next: Id)

  datatype Action =
    | Configure(listener: Option<Id>, opts: Id, ok: bool, loggerOk: bool)
    | Start
    | Serve
    | Stop
    | Once(server: Id)
    | Close
    | Cleanup

  function Initial(listener: Id, opts: Id): State {
    State(Fields(Some(listener), opts, None, None, false, false), None, None, None, [], multiset{}, [], [], [], 1)
  }

  predicate Enabled(s: State, a: Action) {
    match a
    case Serve => s.starting != []
    case Once(server) => server in s.stopping
    case Close => s.closing != []
    case _ => true
  }

  function Apply(s: State, a: Action): State
    requires Enabled(s, a)
  {
    match a
    case Configure(listener, opts, ok, loggerOk) =>
      var attempt := if ok then Succeeds(0, s.next) else if loggerOk then BuildFails(0) else LoggerFails;
      var (f, success) := Configured(s.fields, listener, opts, attempt);
      s.(fields := f, next := s.next + 1,
         built := if success then Some(s.next) else s.built,
         builtOn := if success then f.listener else s.builtOn,
         brought := if success then None else if !s.fields.started && listener.Some? then listener else s.brought)
    case Start =>
      if MayStart(s.fields) then
        s.(fields := s.fields.(started := true),
           starting := s.starting + [Serving(s.fields.ssh.value, s.fields.listener)])
      else s
    case Serve => s.(starting := s.starting[1..], served := s.served + [s.starting[0]])
    case Stop =>
      if MayStop(s.fields) then s.(stopping := s.stopping + multiset{s.fields.ssh.value}) else s
    case Once(server) =>
      var left := s.(stopping := s.stopping - multiset{server});
      if s.fields.stopUsed then left
      else left.(fields := s.fields.(stopUsed := true), closing := s.closing + [server])
    case Close => s.(closing := s.closing[1..], closed := s.closed + [s.closing[0]])
    case Cleanup => s.(fields := CleanedUp(s.fields))
  }

  predicate Follows(s: State, actions: seq<Action>)
    decreases |actions|
  {
    actions == [] || (Enabled(s, actions[0]) && Follows(Apply(s, actions[0]), actions[1..]))
  }

  function After(s: State, actions: seq<Action>): State
    requires Follows(s, actions)
    decreases |actions|
  {
    if actions == [] then s else After(Apply(s, actions[0]), actions[1..])
  }

  /** The listener brought last. */
  function ListenerNow(s: State): Option<Id> {
    if s.brought.Some? then s.brought else s.builtOn
  }

  ghost predicate Inv(s: State) {
    && (s.fields.ssh.Some? ==> s.built == s.fields.ssh && s.builtOn.Some? && s.fields.listener == ListenerNow(s))
    && (s.fields.started ==> s.built.Some?)
    && |s.starting| + |s.served| == (if s.fields.started then 1 else 0)
    && (forall call :: call in s.starting || call in s.served ==>
          s.built == Some(call.server) && s.builtOn.Some? && call.listener == ListenerNow(s))
    && (forall x :: x in s.stopping || x in s.closing || x in s.closed ==> s.built == Some(x))
    && |s.closing| + |s.closed| == (if s.fields.stopUsed then 1 else 0)
    && (!s.fields.started ==> s.stopping == multiset{} && !s.fields.stopUsed)
  }

  /** What Start settles: the built server and the one call of Serve. */
  ghost predicate Settled(s: State, t: State) {
    s.fields.started ==> t.fields.started && t.built == s.built && t.starting + t.served == s.starting + s.served
  }

  lemma ConfigureKeepsInv(s: State, a: Action)
    requires Inv(s) && a.Configure?
    ensures Inv(Apply(s, a)) && Settled(s, Apply(s, a))
  {
  }

  lemma ServingKeepsInv(s: State, a: Action)
    requires Inv(s) && Enabled(s, a) && (a.Start? || a.Serve?)
    ensures Inv(Apply(s, a)) && Settled(s, Apply(s, a))
  {
  }

  lemma StopKeepsInv(s: State)
    requires Inv(s)
    ensures Inv(Apply(s, Stop)) && Settled(s, Apply(s, Stop))
  {
  }

  lemma OnceKeepsInv(s: State, server: Id)
    requires Inv(s) && Enabled(s, Once(server))
    ensures Inv(Apply(s, Once(server))) && Settled(s, Apply(s, Once(server)))
  {
    var t := Apply(s, Once(server));
    assert forall x :: x in t.stopping ==> x in s.stopping;
    assert forall x :: x in t.closing ==> x in s.closing || x == server;
  }

  lemma CloseKeepsInv(s: State, a: Action)
    requires Inv(s) && Enabled(s, a) && (a.Close? || a.Cleanup?)
    ensures Inv(Apply(s, a)) && Settled(s, Apply(s, a))
  {
  }

  lemma {:induction false} ReachableInv(s: State, actions: seq<Action>)
    requires Inv(s) && Follows(s, actions)
    ensures Inv(After(s, actions)) && Settled(s, After(s, actions))
    decreases |actions|
  {
    if actions != [] {
      var a := actions[0];
      if a.Configure? {
        ConfigureKeepsInv(s, a);
      } else if a.Start? || a.Serve? {
        ServingKeepsInv(s, a);
      } else if a.Stop? {
        StopKeepsInv(s);
      } else if a.Once? {
        OnceKeepsInv(s, a.server);
      } else {
        CloseKeepsInv(s, a);
      }
      ReachableInv(Apply(s, a), actions[1..]);
    }
  }

  /**
    Over every interleaving: Serve is called at most once and Close at most once, both on the server that
    the last successful Configure built; after Start that is the server the field names, or the field is nil.
   */
  lemma OneServeOneCloseSameServer(listener: Id, opts: Id, actions: seq<Action>)
    requires Follows(Initial(listener, opts), actions)
    ensures var s := After(Initial(listener, opts), actions);
            && |s.served| <= 1 && |s.closed| <= 1
            && (s.served != [] ==> s.built == Some(s.served[0].server))
            && (s.closed != [] ==> s.built == Some(s.closed[0]) && s.fields.started)
            && (s.fields.ssh == None || s.fields.ssh == s.built)
  {
    ReachableInv(Initial(listener, opts), actions);
    var s := After(Initial(listener, opts), actions);
    if s.served != [] { assert s.served[0] in s.served; }
    if s.closed != [] { assert s.closed[0] in s.closed; }
  }

  /**
    Serve always gets a listener. It is the one that the server was built for exactly when no Configure
    that failed after that, before Start, brought another.
   */
  lemma ServedOnBuiltListenerIff(listener: Id, opts: Id, actions: seq<Action>)
    requires Follows(Initial(listener, opts), actions)
    requires After(Initial(listener, opts), actions).served != []
    ensures var s := After(Initial(listener, opts), actions);
            && s.served[0].listener.Some?
            && (s.served[0].listener == s.builtOn <==> s.brought == None || s.brought == s.builtOn)
  {
    ReachableInv(Initial(listener, opts), actions);
    var s := After(Initial(listener, opts), actions);
    assert s.served[0] in s.served;
  }

  /** A failed Configure can leave the server built for one listener to be served on another. */
  lemma FailedConfigureMovesListener(opts: Id)
    ensures var actions := [Configure(Some(1), opts, true, true), Configure(Some(2), opts, false, false), Start, Serve];
            && Follows(Initial(1, opts), actions)
            && var s := After(Initial(1, opts), actions);
               s.builtOn == Some(1) && s.built.Some? && s.served == [Serving(s.built.value, Some(2))]
  {
    var first := Apply(Initial(1, opts), Configure(Some(1), opts, true, true));
    var second := Apply(first, Configure(Some(2), opts, false, false));
    var third := Apply(second, Start);
    assert third.starting == [Serving(first.built.value, Some(2))];
    var last := Apply(third, Serve);
    var actions := [Configure(Some(1), opts, true, true), Configure(Some(2), opts, false, false), Start, Serve];
    assert actions[1..] == [Configure(Some(2), opts, false, false), Start, Serve];
    assert actions[1..][1..] == [Start, Serve];
    assert actions[1..][1..][1..] == [Serve];
    assert actions[1..][1..][1..][1..] == [];
    assert Follows(last, []) && After(last, []) == last;
    assert Follows(third, [Serve]) && After(third, [Serve]) == last;
    assert Follows(second, [Start, Serve]) && After(second, [Start, Serve]) == last;
  }

  /**
    From Start on, what is served is settled: no later call changes the server last built, or the one call
    of Serve.
   */
  lemma StartedServerIsSettled(listener: Id, opts: Id, actions: seq<Action>, later: seq<Action>)
    requires Follows(Initial(listener, opts), actions)
    requires var s := After(Initial(listener, opts), actions); s.fields.started && Follows(s, later)
    ensures var s := After(Initial(listener, opts), actions);
            var t := After(s, later);
            && t.built == s.built && t.fields.started
            && |t.starting + t.served| == 1 && t.starting + t.served == s.starting + s.served
  {
    ReachableInv(Initial(listener, opts), actions);
    ReachableInv(After(Initial(listener, opts), actions), later);
  }

  /** Before Start no Stop has used the single shutdown, and the first Stop after it that is accepted does. */
  lemma EarlyStopKeepsShutdown(listener: Id, opts: Id, actions: seq<Action>)
    requires Follows(Initial(listener, opts), actions)
    requires !After(Initial(listener, opts), actions).fields.started
    ensures var s := After(Initial(listener, opts), actions);
            && Apply(s, Stop) == s && !s.fields.stopUsed
            && (MayStart(s.fields) ==>
                  var t := Apply(Apply(s, Start), Stop);
                  var x := s.fields.ssh.value;
                  Enabled(t, Once(x)) && Apply(t, Once(x)).closing == [x])
  {
    ReachableInv(Initial(listener, opts), actions);
  }
}
