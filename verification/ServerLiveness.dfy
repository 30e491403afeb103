/** Every wait on a channel whose server is closed, or about to be closed by a reload, ends. */
module ServerLiveness {
  import opened Prelude
  import opened ServerProtocol
  import opened ServerSafety
  import opened ServerTheorems

  /** An endless schedule and the states it goes through. */
  ghost predicate IsRun(states: nat -> State, actions: nat -> Action) {
    && states(0) == Initial()
    && forall i: nat :: Enabled(states(i), actions(i)) && states(i + 1) == Apply(states(i), actions(i))
  }

  /** The goroutines the scheduler, and the SSH library for closed servers, must not starve. */
  datatype Task = Receiving | Stepping | Reloading | Running(channel: Id)

  /** Main is between waits. */
  predicate Steps(m: Main) {
    m.Entered? || m.Spawning? || m.Looping? || m.Rechecking? || m.Stopping? || m.Closing?
  }

  /** The task has a step to do that nobody else can take away. */
  ghost predicate Due(s: State, task: Task) {
    match task
    case Receiving =>
      (s.main.Selecting? && (s.cancelled || Holds(s, s.main.channel))) || (s.main.Draining? && Holds(s, s.main.channel))
    case Stepping => !s.locked && Steps(s.main)
    case Reloading => !Quiet(s.reload)
    case Running(c) =>
      c in s.runners &&
      ((s.runners[c].phase.Serving? && s.runners[c].server in s.closed) || s.runners[c].phase.Reporting?)
  }

  predicate Does(task: Task, a: Action) {
    match task
    case Receiving => a.SelectDone? || a.SelectMessage? || a.Drain?
    case Stepping =>
      a.MakeChannel? || a.SpawnFirst? || a.ReadChannel? || a.Recheck? || a.FetchServer? || a.CloseFetched?
    case Reloading => a.WriteField? || a.Unlock? || a.SpawnNew? || a.CloseOld?
    case Running(c) => (a.ServeReturns? && a.channel == c) || (a.Report? && a.channel == c)
  }

  ghost predicate ServedAt(states: nat -> State, actions: nat -> Action, task: Task, j: nat) {
    Due(states(j), task) ==> Does(task, actions(j))
  }

  ghost predicate ServedFrom(states: nat -> State, actions: nat -> Action, task: Task, i: nat) {
    exists j: nat :: i <= j && ServedAt(states, actions, task, j)
  }

  /** Weak fairness: a task that stays due is done. */
  ghost predicate Fair(states: nat -> State, actions: nat -> Action) {
    forall task, i: nat :: ServedFrom(states, actions, task, i)
  }

  /** Main waits on channel c, whose server is closed or which the reload in flight will close. */
  ghost predicate Waits(s: State, c: Id) {
    && ((s.main.Selecting? && s.main.channel == c) || (s.main.Draining? && s.main.channel == c))
    && c in s.channels
    && (s.channels[c].owner in s.closed || CloseAhead(s, s.channels[c].owner))
  }

  function StepsLeft(r: Reload): nat {
    match r
    case Swapping(_, _, _, written) => if written <= 4 then 7 - written else 0
    case Swapped(_, _, _) => 2
    case Retiring(_) => 1
    case _ => 0
  }

  /** How far the message is from the buffer. */
  ghost function Distance(s: State, c: Id): nat
    requires c in s.channels
  {
    if s.channels[c].buffer != [] then 0
    else if c in s.runners && s.runners[c].phase.Reporting? then 1
    else if c in s.runners && s.runners[c].server in s.closed then 2
    else 3 + StepsLeft(s.reload)
  }

  /** Who has to move next to bring it closer. */
  ghost function Helper(s: State, c: Id): Task
    requires c in s.channels
  {
    if Distance(s, c) == 0 then Receiving else if Distance(s, c) <= 2 then Running(c) else Reloading
  }

  lemma HelperIsDue(s: State, c: Id)
    requires Inv(s) && Waits(s, c)
    ensures Due(s, Helper(s, c))
  {
    assert ChannelOk(s, c);
  }

  /** The channel and what is closed outlast the step. */
  ghost predicate Outlast(s: State, t: State, c: Id)
    requires c in s.channels
  {
    c in t.channels && t.channels[c].owner == s.channels[c].owner && s.closed <= t.closed
  }

  lemma MainStepOutlasted(s: State, a: Action, c: Id)
    requires Enabled(s, a) && ByMain(a) && c in s.channels && c < s.next
    ensures Outlast(s, Apply(s, a), c)
  {
  }

  lemma ReloadStepOutlasted(s: State, a: Action, c: Id)
    requires Enabled(s, a) && ByReload(a) && c in s.channels && c < s.next
    ensures Outlast(s, Apply(s, a), c)
  {
  }

  lemma OtherStepOutlasted(s: State, a: Action, c: Id)
    requires Enabled(s, a) && !ByMain(a) && !ByReload(a) && c in s.channels && c < s.next
    ensures Outlast(s, Apply(s, a), c)
  {
  }

  lemma StepKeepsWaiting(s: State, a: Action, c: Id)
    requires Inv(s) && Enabled(s, a) && Waits(s, c) && Apply(s, a).main == s.main
    ensures Waits(Apply(s, a), c)
  {
    assert ChannelOk(s, c);
    if ByMain(a) {
      MainStepOutlasted(s, a, c);
    } else if ByReload(a) {
      ReloadStepOutlasted(s, a, c);
    } else {
      OtherStepOutlasted(s, a, c);
    }
    if CloseAhead(s, s.channels[c].owner) {
      SupersededStays(s, a, s.channels[c].owner);
      StepKeepsInv(s, a);
    }
  }

  lemma SwapStepNearer(s: State, a: Action, c: Id)
    requires Enabled(s, a) && (a.WriteField? || a.Unlock?) && c in s.channels && ChannelOk(s, c)
    ensures Distance(Apply(s, a), c) <= Distance(s, c)
    ensures Does(Helper(s, c), a) ==> Distance(Apply(s, a), c) < Distance(s, c)
  {
  }

  lemma RetireStepNearer(s: State, a: Action, c: Id)
    requires Enabled(s, a) && (a.SpawnNew? || a.CloseOld?) && c in s.channels && ChannelOk(s, c)
    ensures Distance(Apply(s, a), c) <= Distance(s, c)
    ensures Does(Helper(s, c), a) ==> Distance(Apply(s, a), c) < Distance(s, c)
  {
  }

  lemma RunnerStepNearer(s: State, a: Action, c: Id)
    requires Enabled(s, a) && (a.ServeReturns? || a.Report?) && c in s.channels && ChannelOk(s, c)
    ensures Distance(Apply(s, a), c) <= Distance(s, c)
    ensures Does(Helper(s, c), a) ==> Distance(Apply(s, a), c) < Distance(s, c)
  {
  }

  lemma OtherStepNeverFarther(s: State, a: Action, c: Id)
    requires Enabled(s, a) && !Does(Reloading, a) && !a.ServeReturns? && !a.Report?
    requires c in s.channels && ChannelOk(s, c) && Waits(s, c) && Apply(s, a).main == s.main
    ensures c in Apply(s, a).channels && Distance(Apply(s, a), c) <= Distance(s, c)
    ensures !Does(Helper(s, c), a)
  {
  }

  lemma {:induction false} RunInv(states: nat -> State, actions: nat -> Action, i: nat)
    requires IsRun(states, actions)
    ensures Inv(states(i))
  {
    if i == 0 {
      InitialInv();
    } else {
      RunInv(states, actions, i - 1);
      assert states(i - 1 + 1) == Apply(states(i - 1), actions(i - 1));
      StepKeepsInv(states(i - 1), actions(i - 1));
    }
  }

  /** One step of a run, seen from a wait on channel c. */
  lemma RunStep(states: nat -> State, actions: nat -> Action, c: Id, i: nat)
    requires IsRun(states, actions) && Waits(states(i), c) && states(i + 1).main == states(i).main
    ensures Waits(states(i + 1), c)
    ensures Distance(states(i + 1), c) <= Distance(states(i), c)
    ensures Does(Helper(states(i), c), actions(i)) ==> Distance(states(i + 1), c) < Distance(states(i), c)
  {
    RunInv(states, actions, i);
    assert ChannelOk(states(i), c);
    StepKeepsWaiting(states(i), actions(i), c);
    if actions(i).WriteField? || actions(i).Unlock? {
      SwapStepNearer(states(i), actions(i), c);
    } else if actions(i).SpawnNew? || actions(i).CloseOld? {
      RetireStepNearer(states(i), actions(i), c);
    } else if actions(i).ServeReturns? || actions(i).Report? {
      RunnerStepNearer(states(i), actions(i), c);
    } else {
      OtherStepNeverFarther(states(i), actions(i), c);
    }
  }

  /** Up to step j, either main stopped waiting, or the message came nearer, or nothing changed. */
  lemma {:induction false} UntilStep(states: nat -> State, actions: nat -> Action, c: Id, i: nat, j: nat)
      returns (k: nat)
    requires IsRun(states, actions) && Waits(states(i), c) && i <= j
    ensures i <= k <= j
    ensures k < j ==> states(k + 1).main != states(i).main
    ensures states(k).main == states(i).main && Waits(states(k), c)
    ensures Distance(states(k), c) <= Distance(states(i), c)
    decreases j - i
  {
    if i == j || states(i + 1).main != states(i).main {
      k := i;
    } else {
      RunStep(states, actions, c, i);
      k := UntilStep(states, actions, c, i + 1, j);
    }
  }

  /** Main stops waiting, or waits on with the message strictly nearer. */
  lemma NearerEventually(states: nat -> State, actions: nat -> Action, c: Id, i: nat) returns (k: nat)
    requires IsRun(states, actions) && Fair(states, actions) && Waits(states(i), c)
    ensures k > i
    ensures || states(k).main != states(i).main
            || (Waits(states(k), c) && Distance(states(k), c) < Distance(states(i), c))
  {
    var task := Helper(states(i), c);
    assert ServedFrom(states, actions, task, i);
    var j: nat :| i <= j && ServedAt(states, actions, task, j);
    var m := UntilStep(states, actions, c, i, j);
    k := m + 1;
    if states(k).main == states(i).main {
      assert m == j;
      RunStep(states, actions, c, m);
      if Distance(states(m), c) == Distance(states(i), c) {
        assert Helper(states(m), c) == task;
        RunInv(states, actions, m);
        HelperIsDue(states(m), c);
      }
    }
  }

  lemma {:induction false} WaitEndsBy(states: nat -> State, actions: nat -> Action, c: Id, i: nat) returns (k: nat)
    requires IsRun(states, actions) && Fair(states, actions) && Waits(states(i), c)
    ensures k > i && states(k).main != states(i).main
    decreases Distance(states(i), c)
  {
    k := NearerEventually(states, actions, c, i);
    if states(k).main == states(i).main {
      k := WaitEndsBy(states, actions, c, k);
    }
  }

  /**
    In every fair run, every wait of handleShutdown ends, and so does every wait of runServerLoop on a
    channel that a reload has replaced or whose server was closed.
   */
  lemma EveryWaitEnds(states: nat -> State, actions: nat -> Action, i: nat)
    requires IsRun(states, actions) && Fair(states, actions)
    requires var s := states(i);
             || s.main.Draining?
             || (s.main.Selecting? &&
                   (s.shared.channel != Some(s.main.channel) ||
                    (s.main.channel in s.channels && s.channels[s.main.channel].owner in s.closed)))
    ensures exists k: nat :: k > i && states(k).main != states(i).main
  {
    RunInv(states, actions, i);
    var c := states(i).main.channel;
    assert ChannelOk(states(i), c);
    var k := WaitEndsBy(states, actions, c, i);
  }

  /** In every fair run, a loop that waits while the context is cancelled moves on. */
  lemma CancelledSelectEnds(states: nat -> State, actions: nat -> Action, i: nat)
    requires IsRun(states, actions) && Fair(states, actions)
    requires states(i).main.Selecting? && states(i).cancelled
    ensures exists k: nat :: k > i && states(k).main != states(i).main
  {
    assert ServedFrom(states, actions, Receiving, i);
    var j: nat :| i <= j && ServedAt(states, actions, Receiving, j);
    var k := MovedBy(states, actions, i, j + 1);
  }

  lemma {:induction false} MovedBy(states: nat -> State, actions: nat -> Action, i: nat, j: nat) returns (k: nat)
    requires IsRun(states, actions) && states(i).main.Selecting? && states(i).cancelled && i < j
    requires ServedAt(states, actions, Receiving, j - 1)
    ensures k > i && states(k).main != states(i).main
    decreases j - i
  {
    assert states(i + 1) == Apply(states(i), actions(i));
    if states(i + 1).main != states(i).main {
      k := i + 1;
    } else {
      k := MovedBy(states, actions, i + 1, j);
    }
  }

  /** How far main is from returning, as long as no reload installs a server. */
  function Rank(s: State): nat {
    match s.main
    case Idle => 13
    case Entered => 12
    case Spawning(_, _) => 11
    case Selecting(c) => if s.shared.channel == Some(c) then 6 else 10
    case Rechecking(c, _) => if s.shared.channel == Some(c) then 5 else 8
    case Looping => 7
    case Stopping(_) => 4
    case Closing(_, _) => 3
    case Draining(_, _) => 2
    case Returned(_) => 0
  }

  /** How far the reload in flight is from its end. */
  function ReloadRank(r: Reload): nat {
    match r
    case Building => 9
    case Built(_) => 8
    case Swapping(_, _, _, written) => if written <= 4 then 7 - written else 3
    case Swapped(_, _, _) => 2
    case Retiring(_) => 1
    case _ => 0
  }

  predicate Nearer(s: State, t: State) {
    ReloadRank(t.reload) < ReloadRank(s.reload) || (ReloadRank(t.reload) == ReloadRank(s.reload) && Rank(t) < Rank(s))
  }

  predicate AsFar(s: State, t: State) {
    ReloadRank(t.reload) == ReloadRank(s.reload) && Rank(t) == Rank(s) && t.main == s.main && t.locked == s.locked
  }

  /** Start has been called and the context is cancelled. */
  predicate Ending(s: State) {
    s.cancelled && !s.main.Idle?
  }

  lemma EndingMainStep(s: State, a: Action)
    requires Captured(s) && Enabled(s, a) && ByMain(a) && Ending(s)
    ensures Ending(Apply(s, a)) && Nearer(s, Apply(s, a))
  {
  }

  lemma EndingReloadStep(s: State, a: Action)
    requires Enabled(s, a) && ByReload(a) && !a.TakeSignal? && Ending(s)
    ensures Ending(Apply(s, a))
    ensures if a.StopListening? then AsFar(s, Apply(s, a)) else Nearer(s, Apply(s, a))
  {
  }

  lemma EndingOtherStep(s: State, a: Action)
    requires Enabled(s, a) && !ByMain(a) && !ByReload(a) && Ending(s)
    ensures Ending(Apply(s, a)) && AsFar(s, Apply(s, a))
  {
  }

  /** No reload signal is taken from step n on. */
  ghost predicate NoSignalFrom(actions: nat -> Action, n: nat) {
    forall j: nat :: n <= j ==> !actions(j).TakeSignal?
  }

  /** One step of such a run. */
  lemma EndingStep(states: nat -> State, actions: nat -> Action, i: nat)
    requires IsRun(states, actions) && Ending(states(i)) && !actions(i).TakeSignal?
    ensures Ending(states(i + 1))
    ensures Nearer(states(i), states(i + 1)) || AsFar(states(i), states(i + 1))
    ensures Does(Stepping, actions(i)) || Does(Reloading, actions(i)) ==> Nearer(states(i), states(i + 1))
  {
    RunInv(states, actions, i);
    if ByMain(actions(i)) {
      EndingMainStep(states(i), actions(i));
    } else if ByReload(actions(i)) {
      EndingReloadStep(states(i), actions(i));
    } else {
      EndingOtherStep(states(i), actions(i));
    }
    assert states(i + 1) == Apply(states(i), actions(i));
  }

  lemma {:induction false} EndingRun(states: nat -> State, actions: nat -> Action, i: nat, j: nat)
    requires IsRun(states, actions) && Ending(states(i)) && NoSignalFrom(actions, i) && i <= j
    ensures Ending(states(j)) && (Nearer(states(i), states(j)) || AsFar(states(i), states(j)))
    decreases j - i
  {
    if i < j {
      EndingStep(states, actions, i);
      EndingRun(states, actions, i + 1, j);
    }
  }

  /** A fair task that is due as long as nothing comes nearer brings something nearer. */
  lemma TaskBringsNearer(states: nat -> State, actions: nat -> Action, i: nat, task: Task) returns (k: nat)
    requires IsRun(states, actions) && Fair(states, actions) && Ending(states(i)) && NoSignalFrom(actions, i)
    requires (task.Stepping? && !states(i).locked && Steps(states(i).main)) || (task.Reloading? && states(i).locked)
    ensures k > i && Nearer(states(i), states(k))
  {
    assert ServedFrom(states, actions, task, i);
    var j: nat :| i <= j && ServedAt(states, actions, task, j);
    EndingRun(states, actions, i, j);
    if AsFar(states(i), states(j)) {
      RunInv(states, actions, j);
      assert Due(states(j), task);
      EndingStep(states, actions, j);
      k := j + 1;
    } else {
      k := j;
    }
  }

  lemma SomethingNearer(states: nat -> State, actions: nat -> Action, i: nat) returns (k: nat)
    requires IsRun(states, actions) && Fair(states, actions) && Ending(states(i)) && NoSignalFrom(actions, i)
    requires !states(i).main.Returned?
    ensures k > i && Nearer(states(i), states(k))
  {
    if states(i).locked {
      k := TaskBringsNearer(states, actions, i, Reloading);
    } else if Steps(states(i).main) {
      k := TaskBringsNearer(states, actions, i, Stepping);
    } else {
      if states(i).main.Draining? {
        EveryWaitEnds(states, actions, i);
      } else {
        CancelledSelectEnds(states, actions, i);
      }
      k :| k > i && states(k).main != states(i).main;
      EndingRun(states, actions, i, k);
    }
  }

  lemma {:induction false} ReturnsBy(states: nat -> State, actions: nat -> Action, i: nat) returns (k: nat)
    requires IsRun(states, actions) && Fair(states, actions) && Ending(states(i)) && NoSignalFrom(actions, i)
    ensures k >= i && states(k).main.Returned?
    decreases ReloadRank(states(i).reload), Rank(states(i))
  {
    k := i;
    if !states(i).main.Returned? {
      k := SomethingNearer(states, actions, i);
      EndingRun(states, actions, i, k);
      k := ReturnsBy(states, actions, k);
    }
  }

  lemma {:induction false} CancelledStays(states: nat -> State, actions: nat -> Action, i: nat, j: nat)
    requires IsRun(states, actions) && Ending(states(i)) && i <= j
    ensures Ending(states(j))
    decreases j - i
  {
    if i < j {
      assert states(i + 1) == Apply(states(i), actions(i));
      CancelledStays(states, actions, i + 1, j);
    }
  }

  /**
    In every fair run in which Start is called, the context is cancelled, and only finitely many reload
    signals are taken, Start returns: even if a rebuild never ends.
   */
  lemma StartReturns(states: nat -> State, actions: nat -> Action, i: nat, n: nat)
    requires IsRun(states, actions) && Fair(states, actions)
    requires Ending(states(i)) && NoSignalFrom(actions, n)
    ensures exists k: nat :: k >= i && states(k).main.Returned?
  {
    var from := if i <= n then n else i;
    CancelledStays(states, actions, i, from);
    var k := ReturnsBy(states, actions, from);
  }
}
