/** What the protocol promises over every schedule: every interleaving and any number of reloads. */
module ServerTheorems {
  import opened Prelude
  import opened ServerProtocol
  import opened ServerSafety

  /** Whoever takes the mutex finds configuration, logger, server and channel of one generation. */
  lemma OneGenerationOutsideTheLock(actions: seq<Action>)
    requires Follows(Initial(), actions)
    ensures var s := After(Initial(), actions);
            !s.locked ==>
              && s.shared.ssh in s.builds
              && s.builds[s.shared.ssh] == Build(s.shared.config, s.shared.logger)
              && (s.shared.channel.Some? ==>
                    var c := s.shared.channel.value;
                    && c in s.channels && s.channels[c].owner == s.shared.ssh
                    && (c in s.runners ==> s.runners[c].server == s.shared.ssh))
  {
    InitialInv();
    ReachableInv(Initial(), actions);
    var s := After(Initial(), actions);
    if s.shared.channel.Some? && s.shared.channel.value in s.channels {
      assert ChannelOk(s, s.shared.channel.value);
    }
  }

  /** A reload has replaced server x: it closed x, or its Close of x is still to come. */
  ghost predicate Superseded(s: State, x: Id) {
    x in s.retired || CloseAhead(s, x)
  }

  lemma SupersededIsNotInstalled(s: State, x: Id)
    requires Inv(s) && !s.locked && Superseded(s, x)
    ensures x != s.shared.ssh
  {
  }

  lemma SupersededStays(s: State, a: Action, x: Id)
    requires Inv(s) && Enabled(s, a) && Superseded(s, x)
    ensures Superseded(Apply(s, a), x)
  {
    if ByReload(a) {
      SupersededStaysInReload(s, a, x);
    } else {
      SupersededStaysElsewhere(s, a, x);
    }
  }

  lemma SupersededStaysInReload(s: State, a: Action, x: Id)
    requires Inv(s) && Enabled(s, a) && ByReload(a) && Superseded(s, x)
    ensures Superseded(Apply(s, a), x)
  {
  }

  lemma SupersededStaysElsewhere(s: State, a: Action, x: Id)
    requires Captured(s) && Enabled(s, a) && !ByReload(a) && Superseded(s, x)
    ensures Superseded(Apply(s, a), x)
  {
  }

  /**
    The locked re-read of runServerLoop ends Start exactly when the message is from the server that
    is installed; then no reload has superseded that server, so no reload's Close caused the message.
   */
  lemma RecheckEndsStartIffInstalled(actions: seq<Action>)
    requires Follows(Initial(), actions) && Enabled(After(Initial(), actions), Recheck)
    ensures var s := After(Initial(), actions);
            var c, msg := s.main.channel, s.main.msg;
            && c in s.channels && c in s.runners
            && s.runners[c] == Runner(s.channels[c].owner, Finished(msg))
            && (Apply(s, Recheck).main == Returned(ServerEnded(c, msg)) <==> s.channels[c].owner == s.shared.ssh)
            && (Apply(s, Recheck).main == Looping <==> Superseded(s, s.channels[c].owner))
  {
    InitialInv();
    ReachableInv(Initial(), actions);
    var s := After(Initial(), actions);
    var c := s.main.channel;
    assert ChannelOk(s, c);
    if Superseded(s, s.channels[c].owner) {
      SupersededIsNotInstalled(s, s.channels[c].owner);
    }
  }

  ghost predicate EndedBy(s: State, x: Id) {
    s.main.Returned? && s.main.outcome.ServerEnded? &&
    s.main.outcome.channel in s.channels && s.channels[s.main.outcome.channel].owner == x
  }

  lemma StepDoesNotEndBySuperseded(s: State, a: Action, x: Id)
    requires Inv(s) && Enabled(s, a) && Superseded(s, x) && !EndedBy(s, x)
    ensures !EndedBy(Apply(s, a), x)
  {
    if a.Recheck? {
      SupersededIsNotInstalled(s, x);
    }
  }

  lemma {:induction false} RunDoesNotEndBySuperseded(s: State, later: seq<Action>, x: Id)
    requires Inv(s) && Follows(s, later) && Superseded(s, x) && !EndedBy(s, x)
    ensures !EndedBy(After(s, later), x)
    decreases |later|
  {
    if later != [] {
      StepKeepsInv(s, later[0]);
      SupersededStays(s, later[0], x);
      StepDoesNotEndBySuperseded(s, later[0], x);
      RunDoesNotEndBySuperseded(Apply(s, later[0]), later[1..], x);
    }
  }

  /** Once a reload has superseded server x, Start never again returns because of a message from x. */
  lemma SupersededServerNeverEndsStart(actions: seq<Action>, later: seq<Action>, x: Id)
    requires Follows(Initial(), actions)
    requires var s := After(Initial(), actions); Follows(s, later) && Superseded(s, x) && !s.main.Returned?
    ensures !EndedBy(After(After(Initial(), actions), later), x)
  {
    InitialInv();
    ReachableInv(Initial(), actions);
    RunDoesNotEndBySuperseded(After(Initial(), actions), later, x);
  }

  /** When Start returns because a server ended, it returns what that server's ListenAndServe reported. */
  lemma StartReturnsWhatTheServerReported(actions: seq<Action>)
    requires Follows(Initial(), actions)
    ensures var s := After(Initial(), actions);
            s.main.Returned? && s.main.outcome.ServerEnded? ==>
              s.main.outcome.channel in s.runners &&
              s.runners[s.main.outcome.channel].phase == Finished(s.main.outcome.msg)
  {
    InitialInv();
    ReachableInv(Initial(), actions);
  }

  /** The goroutine of channel c has returned from ListenAndServe with msg. */
  predicate HasReturned(s: State, c: Id, msg: Message) {
    c in s.runners && (s.runners[c].phase == Reporting(msg) || s.runners[c].phase == Finished(msg))
  }

  lemma ReturnStep(s: State, a: Action, c: Id, msg: Message)
    requires Inv(s) && Enabled(s, a)
    ensures HasReturned(Apply(s, a), c, msg) <==> HasReturned(s, c, msg) || a == ServeReturns(c, msg)
  {
    if a.SpawnFirst? || a.SpawnNew? {
      SpawnStep(s, a, c);
    } else if a.ServeReturns? {
      ServeStep(s, a.channel, a.msg, c, msg);
    } else if a.Report? {
      ReportStep(s, a.channel, c, msg);
    } else {
      NoSpawnStep(s, a);
    }
  }

  lemma ServeStep(s: State, d: Id, said: Message, c: Id, msg: Message)
    requires Enabled(s, ServeReturns(d, said))
    ensures HasReturned(Apply(s, ServeReturns(d, said)), c, msg) <==>
            HasReturned(s, c, msg) || ServeReturns(d, said) == ServeReturns(c, msg)
  {
  }

  lemma ReportStep(s: State, d: Id, c: Id, msg: Message)
    requires Enabled(s, Report(d))
    ensures HasReturned(Apply(s, Report(d)), c, msg) <==> HasReturned(s, c, msg)
  {
  }

  lemma NoSpawnStep(s: State, a: Action)
    requires Enabled(s, a) && !a.SpawnFirst? && !a.SpawnNew? && !a.ServeReturns? && !a.Report?
    ensures Apply(s, a).runners == s.runners
  {
  }

  lemma SpawnStep(s: State, a: Action, c: Id)
    requires Inv(s) && Enabled(s, a) && (a.SpawnFirst? || a.SpawnNew?)
    ensures c in s.runners ==> c in Apply(s, a).runners && Apply(s, a).runners[c] == s.runners[c]
    ensures c in Apply(s, a).runners && c !in s.runners ==> Apply(s, a).runners[c].phase.Serving?
  {
    if c in s.channels { assert ChannelOk(s, c); }
  }

  lemma {:induction false} ReturnedIffServeReturns(s: State, actions: seq<Action>, c: Id, msg: Message)
    requires Inv(s) && Follows(s, actions)
    ensures HasReturned(After(s, actions), c, msg) <==> HasReturned(s, c, msg) || ServeReturns(c, msg) in actions
    decreases |actions|
  {
    if actions != [] {
      StepKeepsInv(s, actions[0]);
      ReturnStep(s, actions[0], c, msg);
      ReturnedIffServeReturns(Apply(s, actions[0]), actions[1..], c, msg);
      assert actions == [actions[0]] + actions[1..];
    }
  }

  /**
    When Start returns because a server ended, what it returns is what ListenAndServe returned to that
    server's goroutine: on the schedule, that very value and no other.
   */
  lemma StartReturnsTheErrorServed(actions: seq<Action>, c: Id, msg: Message)
    requires Follows(Initial(), actions)
    requires After(Initial(), actions).main == Returned(ServerEnded(c, msg))
    ensures ServeReturns(c, msg) in actions
    ensures forall other :: ServeReturns(c, other) in actions ==> other == msg
  {
    InitialInv();
    ReachableInv(Initial(), actions);
    ReturnedIffServeReturns(Initial(), actions, c, msg);
    forall other | ServeReturns(c, other) in actions
      ensures other == msg
    {
      ReturnedIffServeReturns(Initial(), actions, c, other);
    }
  }

  /** What a shutdown under way or done rests on. */
  predicate ShutdownFounded(s: State) {
    && (s.main.Stopping? || s.main.Closing? || s.main.Draining? ==> s.cancelled)
    && (s.reload.Gone? ==> s.cancelled)
    && (s.main.Returned? && s.main.outcome.ShutDown? ==>
          && s.cancelled && s.main.outcome.channel in s.channels && s.channels[s.main.outcome.channel].receives > 0)
  }

  lemma MainStepFounded(s: State, a: Action)
    requires Inv(s) && Enabled(s, a) && ByMain(a) && ShutdownFounded(s)
    ensures ShutdownFounded(Apply(s, a)) && (Apply(s, a).cancelled <==> s.cancelled || a.Cancel?)
  {
  }

  lemma ReloadStepFounded(s: State, a: Action)
    requires Inv(s) && Enabled(s, a) && ByReload(a) && ShutdownFounded(s)
    ensures ShutdownFounded(Apply(s, a)) && (Apply(s, a).cancelled <==> s.cancelled || a.Cancel?)
  {
    assert s.next in s.channels ==> ChannelOk(s, s.next);
  }

  lemma OtherStepFounded(s: State, a: Action)
    requires Enabled(s, a) && !ByMain(a) && !ByReload(a) && ShutdownFounded(s)
    ensures ShutdownFounded(Apply(s, a)) && (Apply(s, a).cancelled <==> s.cancelled || a.Cancel?)
  {
  }

  lemma {:induction false} ReachableFounded(s: State, actions: seq<Action>)
    requires Inv(s) && Follows(s, actions) && ShutdownFounded(s)
    ensures ShutdownFounded(After(s, actions))
    ensures After(s, actions).cancelled <==> s.cancelled || Cancel in actions
    decreases |actions|
  {
    if actions != [] {
      var a := actions[0];
      StepKeepsInv(s, a);
      if ByMain(a) {
        MainStepFounded(s, a);
      } else if ByReload(a) {
        ReloadStepFounded(s, a);
      } else {
        OtherStepFounded(s, a);
      }
      ReachableFounded(Apply(s, a), actions[1..]);
      assert actions == [a] + actions[1..];
    }
  }

  /**
    Start returns from a shutdown only after the context was cancelled, after the server it fetched was
    closed, and after the server whose channel it waited on had returned from ListenAndServe.
   */
  lemma ShutdownOnlyWhenCancelledAndEnded(actions: seq<Action>, c: Id, x: Id)
    requires Follows(Initial(), actions)
    requires After(Initial(), actions).main == Returned(ShutDown(c, x))
    ensures Cancel in actions && x in After(Initial(), actions).closed
    ensures exists msg :: ServeReturns(c, msg) in actions
  {
    InitialInv();
    ReachableInv(Initial(), actions);
    ReachableFounded(Initial(), actions);
    var s := After(Initial(), actions);
    assert ChannelOk(s, c);
    ReturnedIffServeReturns(Initial(), actions, c, s.runners[c].phase.msg);
  }

  /** A goroutine that has a result to send can always send it, and it sends on its channel once. */
  lemma SendNeverBlocks(actions: seq<Action>, c: Id)
    requires Follows(Initial(), actions)
    requires c in After(Initial(), actions).channels
    ensures var s := After(Initial(), actions);
            && s.channels[c].sends <= 1
            && (c in s.runners && s.runners[c].phase.Reporting? ==>
                  Enabled(s, Report(c)) && s.channels[c].sends == 0)
  {
    InitialInv();
    ReachableInv(Initial(), actions);
    assert ChannelOk(After(Initial(), actions), c);
  }

  /** The channel on which runServerLoop or handleShutdown waits, or is about to wait. */
  function Awaited(m: Main): Option<Id> {
    match m
    case Selecting(c) => Some(c)
    case Stopping(c) => Some(c)
    case Closing(c, _) => Some(c)
    case Draining(c, _) => Some(c)
    case _ => None
  }

  /**
    No wait is on a dead channel: a captured channel that a reload has replaced belongs to a server
    that is closed or that the reload has still to close, and its one message is still to come or
    still in the buffer.
   */
  lemma NoWaitOnDeadChannel(actions: seq<Action>)
    requires Follows(Initial(), actions)
    requires var s := After(Initial(), actions);
             Awaited(s.main).Some? && s.shared.channel != Awaited(s.main)
    ensures var s := After(Initial(), actions);
            var c := Awaited(s.main).value;
            && c in s.channels && c in s.runners && Superseded(s, s.channels[c].owner)
            && s.channels[c].receives == 0
            && (s.channels[c].buffer != [] <==> s.runners[c].phase.Finished?)
  {
    InitialInv();
    ReachableInv(Initial(), actions);
    var s := After(Initial(), actions);
    assert ChannelOk(s, Awaited(s.main).value);
  }

  predicate NoneByReload(actions: seq<Action>) {
    forall i :: 0 <= i < |actions| ==> !ByReload(actions[i])
  }

  lemma OtherStepReplacesNothing(s: State, a: Action)
    requires Inv(s) && Enabled(s, a) && !ByReload(a) && !s.main.Idle?
    ensures var t := Apply(s, a);
            && t.reload == s.reload && !t.main.Idle?
            && t.shared.config == s.shared.config && t.shared.logger == s.shared.logger
            && t.shared.ssh == s.shared.ssh
            && (s.shared.channel.Some? ==> t.shared.channel == s.shared.channel)
  {
  }

  lemma {:induction false} OnlyReloadReplaces(s: State, actions: seq<Action>)
    requires Inv(s) && Follows(s, actions) && NoneByReload(actions) && !s.main.Idle?
    ensures var t := After(s, actions);
            && t.reload == s.reload && !t.main.Idle?
            && t.shared.config == s.shared.config && t.shared.logger == s.shared.logger
            && t.shared.ssh == s.shared.ssh
            && (s.shared.channel.Some? ==> t.shared.channel == s.shared.channel)
    decreases |actions|
  {
    if actions != [] {
      var a := actions[0];
      assert !ByReload(a);
      StepKeepsInv(s, a);
      OtherStepReplacesNothing(s, a);
      assert NoneByReload(actions[1..]) by {
        forall i | 0 <= i < |actions[1..]|
          ensures !ByReload(actions[1..][i])
        {
          assert actions[1..][i] == actions[i + 1];
        }
      }
      OnlyReloadReplaces(Apply(s, a), actions[1..]);
    }
  }

  /** A reload that fails, whatever the others do meanwhile, leaves the four fields as it found them. */
  lemma FailedReloadChangesNothing(actions: seq<Action>, meanwhile: seq<Action>)
    requires Follows(Initial(), actions) && Follows(After(Initial(), actions), meanwhile)
    requires NoneByReload(meanwhile)
    requires After(Initial(), actions).reload.Building?
    ensures var s := After(Initial(), actions);
            var t := After(s, meanwhile);
            && Enabled(t, BuildFails)
            && Apply(t, BuildFails).shared ==
               s.shared.(channel := if s.shared.channel.Some? then s.shared.channel else t.shared.channel)
  {
    InitialInv();
    ReachableInv(Initial(), actions);
    OnlyReloadReplaces(After(Initial(), actions), meanwhile);
  }

  /** The shared fields with the first `written` of a reload's assignments done. */
  ghost predicate Progress(before: Shared, gen: Generation, s: State) {
    match s.reload
    case Swapping(g, prior, wasRunning, written) =>
      && g == gen && s.locked && prior == before.ssh && wasRunning == before.channel.Some? && written <= 4
      && s.shared.config == (if written >= 1 then gen.config else before.config)
      && s.shared.logger == (if written >= 2 then gen.logger else before.logger)
      && s.shared.ssh == (if written >= 3 then gen.server else before.ssh)
      && (if written == 4 && wasRunning then s.shared.channel.Some? else s.shared.channel == before.channel)
    case _ => false
  }

  lemma ProgressStep(before: Shared, gen: Generation, s: State, a: Action)
    requires Inv(s) && Enabled(s, a) && !a.Unlock? && Progress(before, gen, s)
    ensures Progress(before, gen, Apply(s, a))
  {
  }

  lemma {:induction false} ProgressRun(before: Shared, gen: Generation, s: State, actions: seq<Action>)
    requires Inv(s) && Follows(s, actions) && Unlock !in actions && Progress(before, gen, s)
    ensures Progress(before, gen, After(s, actions)) && Inv(After(s, actions))
    decreases |actions|
  {
    if actions != [] {
      StepKeepsInv(s, actions[0]);
      ProgressStep(before, gen, s, actions[0]);
      ProgressRun(before, gen, Apply(s, actions[0]), actions[1..]);
    }
  }

  /** What a successful reload makes of the shared fields; channel is the one it makes if Start is running. */
  function Reloaded(before: Shared, gen: Generation, channel: Id): Shared {
    Shared(gen.config, gen.logger, gen.server, if before.channel.Some? then Some(channel) else None)
  }

  function ChannelNumber(shared: Shared): Id {
    match shared.channel
    case Some(c) => c
    case None => 0
  }

  /** The swap under the mutex and its release, from Lock to Unlock. */
  lemma SwapFrom(s: State, during: seq<Action>)
    requires Inv(s) && Enabled(s, Lock)
    requires Follows(Apply(s, Lock), during) && Unlock !in during
    requires Enabled(After(Apply(s, Lock), during), Unlock)
    ensures var t := Apply(After(Apply(s, Lock), during), Unlock);
            && t.shared == Reloaded(s.shared, s.reload.gen, ChannelNumber(t.shared))
            && (t.shared.channel.Some? ==>
                  && t.shared.channel.value in t.channels
                  && t.channels[t.shared.channel.value].owner == s.reload.gen.server)
  {
    StepKeepsInv(s, Lock);
    ProgressRun(s.shared, s.reload.gen, Apply(s, Lock), during);
  }

  /** The field-by-field swap under the mutex is one replacement, whatever runs between its assignments. */
  lemma SwapIsOneReplacement(actions: seq<Action>, s: State, during: seq<Action>)
    requires Follows(Initial(), actions) && s == After(Initial(), actions) && Enabled(s, Lock)
    requires Follows(Apply(s, Lock), during) && Unlock !in during
    requires Enabled(After(Apply(s, Lock), during), Unlock)
    ensures var t := Apply(After(Apply(s, Lock), during), Unlock);
            && t.shared == Reloaded(s.shared, s.reload.gen, ChannelNumber(t.shared))
            && (t.shared.channel.Some? ==>
                  && t.shared.channel.value in t.channels
                  && t.channels[t.shared.channel.value].owner == s.reload.gen.server)
  {
    InitialInv();
    ReachableInv(Initial(), actions);
    SwapFrom(s, during);
  }

  /** No reload stands between its first assignment and its Close. */
  predicate Quiet(r: Reload) {
    !r.Swapping? && !r.Swapped? && !r.Retiring?
  }

  /** The server that handleShutdown closed. */
  function ClosedByShutdown(m: Main): set<Id> {
    match m
    case Draining(_, x) => {x}
    case Returned(ShutDown(_, x)) => {x}
    case _ => {}
  }

  /** Every closed server was closed by a reload, by a Stop call, or by handleShutdown. */
  ghost predicate Explained(s: State) {
    s.closed == s.retired + s.stopped + ClosedByShutdown(s.main)
  }

  lemma {:induction false} ReachableExplained(s: State, actions: seq<Action>)
    requires Explained(s) && Follows(s, actions)
    ensures Explained(After(s, actions))
    decreases |actions|
  {
    if actions != [] {
      if ByMain(actions[0]) {
        MainStepExplained(s, actions[0]);
      } else {
        OtherStepExplained(s, actions[0]);
      }
      ReachableExplained(Apply(s, actions[0]), actions[1..]);
    }
  }

  lemma MainStepExplained(s: State, a: Action)
    requires Explained(s) && Enabled(s, a) && ByMain(a)
    ensures Explained(Apply(s, a))
  {
  }

  lemma OtherStepExplained(s: State, a: Action)
    requires Explained(s) && Enabled(s, a) && !ByMain(a)
    ensures Explained(Apply(s, a))
  {
  }

  /** Some Stop call reads the installed server, and it is x, while these actions run. */
  predicate FetchesOne(s: State, actions: seq<Action>, x: Id)
    requires Follows(s, actions)
    decreases |actions|
  {
    actions != [] &&
    ((actions[0].StopFetches? && s.shared.ssh == x) || FetchesOne(Apply(s, actions[0]), actions[1..], x))
  }

  /** What one step does to the sets that record Stop calls, and to cancellation. */
  predicate StopsOnly(s: State, a: Action, t: State, x: Id) {
    && (x in t.stopped <==> x in s.stopped || a == StopCloses(x))
    && (x in t.held <==> x in s.held || (a.StopFetches? && s.shared.ssh == x))
    && (x in s.closed || a == StopCloses(x) ==> x in t.closed)
    && (t.cancelled <==> s.cancelled || a == Cancel)
  }

  lemma StopStep(s: State, a: Action, x: Id)
    requires Enabled(s, a)
    ensures StopsOnly(s, a, Apply(s, a), x)
  {
    if ByMain(a) {
      MainStepStops(s, a, x);
    } else if ByReload(a) {
      ReloadStepStops(s, a, x);
    } else {
      OtherStepStops(s, a, x);
    }
  }

  lemma MainStepStops(s: State, a: Action, x: Id)
    requires Enabled(s, a) && ByMain(a)
    ensures StopsOnly(s, a, Apply(s, a), x)
  {
  }

  lemma ReloadStepStops(s: State, a: Action, x: Id)
    requires Enabled(s, a) && ByReload(a)
    ensures StopsOnly(s, a, Apply(s, a), x)
  {
  }

  lemma OtherStepStops(s: State, a: Action, x: Id)
    requires Enabled(s, a) && !ByMain(a) && !ByReload(a)
    ensures StopsOnly(s, a, Apply(s, a), x)
  {
  }

  lemma {:induction false} StopsAreTheCalls(s: State, actions: seq<Action>, x: Id)
    requires Follows(s, actions)
    ensures var t := After(s, actions);
            && (x in t.stopped <==> x in s.stopped || StopCloses(x) in actions)
            && (x in t.held <==> x in s.held || FetchesOne(s, actions, x))
            && (x in s.closed || StopCloses(x) in actions ==> x in t.closed)
            && (t.cancelled <==> s.cancelled || Cancel in actions)
    decreases |actions|
  {
    if actions != [] {
      StopStep(s, actions[0], x);
      StopsAreTheCalls(Apply(s, actions[0]), actions[1..], x);
      assert actions == [actions[0]] + actions[1..];
    }
  }

  /** A server is closed for good by every Stop call that fetched it, and only an installed one is fetched. */
  lemma StopClosesWhatItFetched(actions: seq<Action>, x: Id)
    requires Follows(Initial(), actions)
    ensures var s := After(Initial(), actions);
            && (x in s.stopped <==> StopCloses(x) in actions)
            && (x in s.stopped ==> x in s.closed && FetchesOne(Initial(), actions, x) && Cancel in actions)
  {
    StopsAreTheCalls(Initial(), actions, x);
    StoppedWereHeld(Initial(), actions, x);
  }

  lemma {:induction false} StoppedWereHeld(s: State, actions: seq<Action>, x: Id)
    requires Follows(s, actions) && (x in s.stopped ==> x in s.held) && (x in s.held ==> s.cancelled)
    ensures x in After(s, actions).stopped ==> x in After(s, actions).held
    ensures x in After(s, actions).held ==> After(s, actions).cancelled
    decreases |actions|
  {
    if actions != [] {
      StopStep(s, actions[0], x);
      StoppedWereHeld(Apply(s, actions[0]), actions[1..], x);
    }
  }

  /** Every server ever started is closed. */
  ghost predicate AllClosed(s: State) {
    forall c :: c in s.runners ==> s.runners[c].server in s.closed
  }

  /**
    What handleShutdown leaves behind: once no reload is in flight, every server ever started is closed
    exactly when the installed one is, and that is when handleShutdown closed that one or a Stop call did.
   */
  lemma ShutdownLeavesNoServerIffInstalledClosed(actions: seq<Action>)
    requires Follows(Initial(), actions)
    requires var s := After(Initial(), actions);
             s.main.Returned? && s.main.outcome.ShutDown? && Quiet(s.reload)
    ensures var s := After(Initial(), actions);
            && (AllClosed(s) <==> s.shared.ssh in s.closed)
            && (AllClosed(s) <==> s.main.outcome.server == s.shared.ssh || s.shared.ssh in s.stopped)
  {
    InitialInv();
    ReachableInv(Initial(), actions);
    ReachableExplained(Initial(), actions);
    var s := After(Initial(), actions);
    var current := s.shared.channel.value;
    assert ChannelOk(s, current);
    assert s.runners[current].server == s.shared.ssh;
    forall c | c in s.runners && c != current
      ensures s.runners[c].server in s.closed
    {
      assert ChannelOk(s, c);
    }
  }

  /** Some reload puts its server into the shared fields while these actions run. */
  predicate Installs(s: State, actions: seq<Action>)
    requires Follows(s, actions)
    decreases |actions|
  {
    actions != [] &&
    ((actions[0].WriteField? && s.reload.written == 2) || Installs(Apply(s, actions[0]), actions[1..]))
  }

  /** Server x was replaced in the shared fields by a reload. */
  ghost predicate Replaced(s: State, x: Id) {
    Superseded(s, x) || (s.reload.Swapping? && s.reload.written >= 3 && s.reload.prior == x && s.reload.wasRunning)
  }

  lemma ReplacedStays(s: State, a: Action, x: Id)
    requires Inv(s) && Enabled(s, a) && Replaced(s, x)
    ensures Replaced(Apply(s, a), x)
  {
    if Superseded(s, x) {
      SupersededStays(s, a, x);
    } else if ByReload(a) {
      SwapStepReplaced(s, a, x);
    } else {
      OtherStepReplacesNothing(s, a);
    }
  }

  lemma SwapStepReplaced(s: State, a: Action, x: Id)
    requires Inv(s) && Enabled(s, a) && ByReload(a)
    requires s.reload.Swapping? && s.reload.written >= 3 && s.reload.prior == x && s.reload.wasRunning
    ensures Replaced(Apply(s, a), x)
  {
  }

  /** One step away from a state in which x is installed. */
  lemma InstalledStep(s: State, a: Action, x: Id)
    requires Inv(s) && Enabled(s, a) && s.shared.ssh == x && s.shared.channel.Some?
    ensures Apply(s, a).shared.channel.Some?
    ensures if a.WriteField? && s.reload.written == 2 then Replaced(Apply(s, a), x) else Apply(s, a).shared.ssh == x
  {
    if !ByReload(a) {
      OtherStepReplacesNothing(s, a);
    } else {
      InstalledReloadStep(s, a, x);
    }
  }

  lemma InstalledReloadStep(s: State, a: Action, x: Id)
    requires Inv(s) && Enabled(s, a) && ByReload(a) && s.shared.ssh == x && s.shared.channel.Some?
    ensures Apply(s, a).shared.channel.Some?
    ensures if a.WriteField? && s.reload.written == 2 then Replaced(Apply(s, a), x) else Apply(s, a).shared.ssh == x
  {
  }

  lemma {:induction false} RunReplaced(s: State, later: seq<Action>, x: Id)
    requires Inv(s) && Follows(s, later) && Replaced(s, x)
    ensures Replaced(After(s, later), x) && Inv(After(s, later))
    decreases |later|
  {
    if later != [] {
      StepKeepsInv(s, later[0]);
      ReplacedStays(s, later[0], x);
      RunReplaced(Apply(s, later[0]), later[1..], x);
    }
  }

  /** Unless a reload is left half way, server x is still installed exactly when none installed another. */
  lemma {:induction false} StillInstalledIff(s: State, later: seq<Action>, x: Id)
    requires Inv(s) && Follows(s, later) && s.shared.ssh == x && s.shared.channel.Some?
    requires Quiet(After(s, later).reload)
    ensures After(s, later).shared.ssh == x <==> !Installs(s, later)
    decreases |later|
  {
    if later != [] {
      var a, t := later[0], Apply(s, later[0]);
      StepKeepsInv(s, a);
      InstalledStep(s, a, x);
      if a.WriteField? && s.reload.written == 2 {
        RunReplaced(t, later[1..], x);
        SupersededIsNotInstalled(After(t, later[1..]), x);
      } else {
        StillInstalledIff(t, later[1..], x);
      }
    }
  }

  /** handleShutdown goes on with the server that it fetched. */
  predicate Shutting(m: Main, c: Id, x: Id) {
    m == Closing(c, x) || m == Draining(c, x) || m == Returned(ShutDown(c, x))
  }

  lemma {:induction false} ShuttingRun(s: State, later: seq<Action>, c: Id, x: Id)
    requires Follows(s, later) && Shutting(s.main, c, x)
    ensures Shutting(After(s, later).main, c, x)
    decreases |later|
  {
    if later != [] {
      ShuttingRun(Apply(s, later[0]), later[1..], c, x);
    }
  }

  /**
    The same on schedules: when Start has returned from a shutdown and no reload is in flight, no server
    is left open if and only if no reload installed one after handleShutdown fetched the server that it
    closes, or a Stop call closed the one that was installed.
   */
  lemma ShutdownLeavesNoServerIffNoneInstalledSince(before: seq<Action>, later: seq<Action>)
    requires Follows(Initial(), before) && Enabled(After(Initial(), before), FetchServer)
    requires var fetched := Apply(After(Initial(), before), FetchServer);
             Follows(fetched, later) && After(fetched, later).main.Returned? && Quiet(After(fetched, later).reload)
    ensures var fetched := Apply(After(Initial(), before), FetchServer);
            var s := After(fetched, later);
            AllClosed(s) <==> !Installs(fetched, later) || s.shared.ssh in s.stopped
  {
    InitialInv();
    ReachableInv(Initial(), before);
    var s0 := After(Initial(), before);
    var fetched := Apply(s0, FetchServer);
    StepKeepsInv(s0, FetchServer);
    StillInstalledIff(fetched, later, s0.shared.ssh);
    ShuttingRun(fetched, later, s0.main.channel, s0.shared.ssh);
    FollowsAppend(Initial(), before, FetchServer);
    FollowsBoth(Initial(), before + [FetchServer], later);
    ShutdownLeavesNoServerIffInstalledClosed(before + [FetchServer] + later);
  }

  lemma {:induction false} FollowsAppend(s: State, first: seq<Action>, a: Action)
    requires Follows(s, first) && Enabled(After(s, first), a)
    ensures Follows(s, first + [a]) && After(s, first + [a]) == Apply(After(s, first), a)
    decreases |first|
  {
    if first == [] {
      assert first + [a] == [a];
      assert [a][1..] == [];
    } else {
      assert (first + [a])[1..] == first[1..] + [a];
      FollowsAppend(Apply(s, first[0]), first[1..], a);
    }
  }

  lemma FollowsBoth(s: State, first: seq<Action>, second: seq<Action>)
    requires Follows(s, first) && Follows(After(s, first), second)
    ensures Follows(s, first + second) && After(s, first + second) == After(After(s, first), second)
    decreases |first|
  {
    if first == [] {
      assert first + second == second;
    } else {
      assert (first + second)[1..] == first[1..] + second;
      FollowsBoth(Apply(s, first[0]), first[1..], second);
    }
  }

  /** Start is serving with server 2 and channel 3; a reload has built generation (4, 5, 6). */
  function ReloadBuilt(): State {
    State(Shared(0, 1, 2, Some(3)), false, Selecting(3), Built(Generation(4, 5, 6)),
          map[2 := Build(0, 1), 6 := Build(4, 5)], map[3 := Channel(2, [], 0, 0)],
          map[3 := Runner(2, Serving)], {}, {}, {}, false, {}, 7)
  }

  /** The same state after cancellation and the Close of handleShutdown. */
  function OldClosed(): State {
    ReloadBuilt().(main := Draining(3, 2), cancelled := true, closed := {2})
  }

  /** The same state after the rest of the reload: server 6 serves, and channel 7 is its channel. */
  function NewInstalled(): State {
    OldClosed().(shared := Shared(4, 5, 6, Some(7)), reload := Waiting, retired := {2}, next := 8,
                 channels := map[3 := Channel(2, [], 0, 0), 7 := Channel(6, [], 0, 0)],
                 runners := map[3 := Runner(2, Serving), 7 := Runner(6, Serving)])
  }

  lemma UntilReloadBuilt() returns (actions: seq<Action>)
    ensures Follows(Initial(), actions) && After(Initial(), actions) == ReloadBuilt()
  {
    actions := [];
    assert Follows(Initial(), actions) && After(Initial(), actions) == Initial();
    FollowsAppend(Initial(), actions, StartCall(true));
    actions := actions + [StartCall(true)];
    FollowsAppend(Initial(), actions, MakeChannel);
    actions := actions + [MakeChannel];
    FollowsAppend(Initial(), actions, SpawnFirst);
    actions := actions + [SpawnFirst];
    FollowsAppend(Initial(), actions, ReadChannel);
    actions := actions + [ReadChannel];
    FollowsAppend(Initial(), actions, TakeSignal);
    actions := actions + [TakeSignal];
    FollowsAppend(Initial(), actions, BuildSucceeds);
    actions := actions + [BuildSucceeds];
  }

  lemma UntilOldClosed() returns (actions: seq<Action>)
    ensures Follows(ReloadBuilt(), actions) && After(ReloadBuilt(), actions) == OldClosed()
  {
    actions := [];
    assert Follows(ReloadBuilt(), actions) && After(ReloadBuilt(), actions) == ReloadBuilt();
    FollowsAppend(ReloadBuilt(), actions, Cancel);
    actions := actions + [Cancel];
    FollowsAppend(ReloadBuilt(), actions, SelectDone);
    actions := actions + [SelectDone];
    FollowsAppend(ReloadBuilt(), actions, FetchServer);
    actions := actions + [FetchServer];
    FollowsAppend(ReloadBuilt(), actions, CloseFetched);
    actions := actions + [CloseFetched];
  }

  /** The state in the middle of the swap: configuration and logger written, the mutex held. */
  function HalfWay(): State {
    OldClosed().(shared := Shared(4, 5, 2, Some(3)), locked := true,
                 reload := Swapping(Generation(4, 5, 6), 2, true, 2))
  }

  lemma UntilHalfWay() returns (actions: seq<Action>)
    ensures Follows(OldClosed(), actions) && After(OldClosed(), actions) == HalfWay()
  {
    actions := [];
    assert Follows(OldClosed(), actions) && After(OldClosed(), actions) == OldClosed();
    FollowsAppend(OldClosed(), actions, Lock);
    actions := actions + [Lock];
    FollowsAppend(OldClosed(), actions, WriteField);
    actions := actions + [WriteField];
    FollowsAppend(OldClosed(), actions, WriteField);
    actions := actions + [WriteField];
  }

  lemma UntilNewInstalled() returns (actions: seq<Action>)
    ensures Follows(HalfWay(), actions) && After(HalfWay(), actions) == NewInstalled()
  {
    actions := [];
    assert Follows(HalfWay(), actions) && After(HalfWay(), actions) == HalfWay();
    FollowsAppend(HalfWay(), actions, WriteField);
    actions := actions + [WriteField];
    FollowsAppend(HalfWay(), actions, WriteField);
    actions := actions + [WriteField];
    FollowsAppend(HalfWay(), actions, Unlock);
    actions := actions + [Unlock];
    FollowsAppend(HalfWay(), actions, SpawnNew);
    actions := actions + [SpawnNew];
    FollowsAppend(HalfWay(), actions, CloseOld);
    actions := actions + [CloseOld];
  }

  lemma UntilReturned() returns (actions: seq<Action>)
    ensures Follows(NewInstalled(), actions)
    ensures var s := After(NewInstalled(), actions);
            && s.main == Returned(ShutDown(3, 2)) && s.reload == Waiting
            && s.closed == {2} && 7 in s.runners && s.runners[7] == Runner(6, Serving)
  {
    actions := [];
    assert Follows(NewInstalled(), actions) && After(NewInstalled(), actions) == NewInstalled();
    FollowsAppend(NewInstalled(), actions, ServeReturns(3, Clean));
    actions := actions + [ServeReturns(3, Clean)];
    FollowsAppend(NewInstalled(), actions, Report(3));
    actions := actions + [Report(3)];
    FollowsAppend(NewInstalled(), actions, Drain);
    actions := actions + [Drain];
  }

  /**
    Ruling out a reload in flight is needed: on this schedule handleShutdown closes the old server, the
    reload then installs a new one, and Start returns with the new one left serving.
   */
  lemma ShutdownCanLeaveServerServing() returns (actions: seq<Action>)
    ensures Follows(Initial(), actions)
    ensures var s := After(Initial(), actions);
            && s.main.Returned? && s.main.outcome.ShutDown? && Quiet(s.reload)
            && exists c :: c in s.runners && s.runners[c].phase.Serving? && s.runners[c].server !in s.closed
  {
    actions := UntilReloadBuilt();
    var second := UntilOldClosed();
    FollowsBoth(Initial(), actions, second);
    actions := actions + second;
    var third := UntilHalfWay();
    FollowsBoth(Initial(), actions, third);
    actions := actions + third;
    var fourth := UntilNewInstalled();
    FollowsBoth(Initial(), actions, fourth);
    actions := actions + fourth;
    var last := UntilReturned();
    FollowsBoth(Initial(), actions, last);
    actions := actions + last;
  }
}
