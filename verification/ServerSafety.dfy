/** What every reachable state of the reload and shutdown protocol keeps. */
module ServerSafety {
  import opened Prelude
  import opened ServerProtocol

  /** The four shared fields come from one generation. */
  ghost predicate Coherent(s: State) {
    && s.shared.ssh in s.builds
    && s.builds[s.shared.ssh] == Build(s.shared.config, s.shared.logger)
    && (s.shared.channel.Some? ==>
          s.shared.channel.value in s.channels && s.channels[s.shared.channel.value].owner == s.shared.ssh)
  }

  /** Which field of which generation is in place while the swap is under way. */
  ghost predicate HalfSwapped(s: State)
    requires s.reload.Swapping?
  {
    var Swapping(gen, prior, wasRunning, written) := s.reload;
    && prior in s.builds && prior != gen.server && written <= 4
    && s.shared.config == (if written >= 1 then gen.config else s.builds[prior].config)
    && s.shared.logger == (if written >= 2 then gen.logger else s.builds[prior].logger)
    && s.shared.ssh == (if written >= 3 then gen.server else prior)
    && (wasRunning <==> s.shared.channel.Some?)
    && (wasRunning ==>
          && s.shared.channel.value in s.channels
          && s.channels[s.shared.channel.value].owner == if written >= 4 then gen.server else prior)
  }

  /** A rebuilt server that the shared fields do not name yet. */
  ghost predicate Prepared(s: State, gen: Generation) {
    && gen.server in s.builds && s.builds[gen.server] == Build(gen.config, gen.logger)
    && gen.server !in s.retired
  }

  ghost predicate Shape(s: State) {
    && (s.locked <==> s.reload.Swapping?)
    && match s.reload
       case Built(gen) => Coherent(s) && Prepared(s, gen) && gen.server != s.shared.ssh
       case Swapping(gen, _, _, _) => HalfSwapped(s) && Prepared(s, gen)
       case Swapped(server, channel, prior) =>
         Coherent(s) && server == s.shared.ssh && prior != server && prior in s.builds && channel.Some? &&
         channel.value in s.channels && s.channels[channel.value].owner == server
       case Retiring(prior) => Coherent(s) && prior != s.shared.ssh && prior in s.builds
       case _ => Coherent(s)
  }

  ghost predicate Numbered(s: State) {
    && (forall x :: x in s.builds ==> x < s.next)
    && s.retired <= s.closed <= s.builds.Keys && s.held <= s.builds.Keys
    && s.runners.Keys <= s.channels.Keys
    && (s.shared.channel.None? ==> s.channels == map[])
  }

  /** Main has not reached the section that makes the first channel. */
  predicate BeforeStart(m: Main) {
    m.Idle? || m.Entered? || m == Returned(StartupFailed)
  }

  /** The reload in flight has still to spawn the goroutine that will send on channel c. */
  ghost predicate SpawnAhead(s: State, c: Id) {
    || (s.reload.Swapping? && s.reload.written == 4 && s.reload.wasRunning && s.shared.channel == Some(c))
    || (s.reload.Swapped? && s.reload.channel == Some(c))
  }

  /** Channel c exists but the goroutine that will send on it has not been spawned. */
  ghost predicate Unspawned(s: State, c: Id) {
    (s.main.Spawning? && s.main.channel == c) || SpawnAhead(s, c)
  }

  /** The reload in flight still has its Close of server x to do. */
  ghost predicate CloseAhead(s: State, x: Id) {
    || (s.reload.Swapping? && s.reload.written == 4 && s.reload.wasRunning && s.reload.prior == x)
    || (s.reload.Swapped? && s.reload.prior == x)
    || (s.reload.Retiring? && s.reload.prior == x)
  }

  /**
    Each channel carries the one message of its goroutine, in the buffer or already received;
    once the shared fields stop naming a channel its server is closed or about to be; and once
    the channel has been received from, the server loop does not wait on it again.
   */
  ghost predicate ChannelOk(s: State, c: Id)
    requires c in s.channels
  {
    var ch := s.channels[c];
    && c < s.next && ch.owner in s.builds
    && (c in s.runners <==> !Unspawned(s, c))
    && (c in s.runners ==> s.runners[c].server == ch.owner)
    && |ch.buffer| + ch.receives == ch.sends
    && ch.sends == (if c in s.runners && s.runners[c].phase.Finished? then 1 else 0)
    && (ch.buffer != [] ==> ch.buffer == [s.runners[c].phase.msg])
    && (s.shared.channel != Some(c) ==> ch.owner in s.retired || CloseAhead(s, ch.owner))
    && (ch.receives > 0 ==>
          s.shared.channel != Some(c) || s.main.Returned? || (s.main.Rechecking? && s.main.channel == c))
  }

  ghost predicate Channels(s: State) {
    forall c :: c in s.channels ==> ChannelOk(s, c)
  }

  /** No reload has closed the server that is installed. */
  ghost predicate CurrentKept(s: State) {
    && s.shared.ssh !in s.retired
    && (s.shared.channel.Some? && s.shared.channel.value in s.channels ==>
          s.channels[s.shared.channel.value].owner !in s.retired)
  }

  ghost predicate Unconsumed(s: State, c: Id) {
    c in s.channels && s.channels[c].receives == 0
  }

  /** What the server loop knows about the channel it captured. */
  ghost predicate Captured(s: State) {
    && (BeforeStart(s.main) <==> s.shared.channel.None?)
    && (s.reload.Absent? <==> s.main.Idle? || s.main == Returned(StartupFailed))
    && match s.main
       case Spawning(c, server) => Unconsumed(s, c) && s.channels[c].owner == server && !SpawnAhead(s, c)
       case Selecting(c) => Unconsumed(s, c)
       case Rechecking(c, msg) => c in s.channels && c in s.runners && s.runners[c].phase == Finished(msg)
       case Stopping(c) => Unconsumed(s, c)
       case Closing(c, server) =>
         Unconsumed(s, c) && server in s.builds && (server == s.channels[c].owner || s.shared.channel != Some(c))
       case Draining(c, server) =>
         && Unconsumed(s, c) && server in s.closed
         && (s.channels[c].owner in s.closed || CloseAhead(s, s.channels[c].owner))
       case Returned(ServerEnded(c, msg)) => c in s.runners && s.runners[c].phase == Finished(msg)
       case Returned(ShutDown(c, server)) => server in s.closed
       case _ => true
  }

  ghost predicate Control(s: State) {
    Shape(s) && Numbered(s) && CurrentKept(s) && Captured(s)
  }

  ghost predicate Inv(s: State) {
    Control(s) && Channels(s)
  }

  lemma InitialInv()
    ensures Inv(Initial())
  {
  }


  lemma AfterStartCall(s: State, metricsOk: bool)
    requires Inv(s) && Enabled(s, StartCall(metricsOk))
    ensures Inv(Apply(s, StartCall(metricsOk)))
  {
  }

  lemma AfterMakeChannel(s: State)
    requires Inv(s) && Enabled(s, MakeChannel)
    ensures Inv(Apply(s, MakeChannel))
  {
  }

  lemma AfterReadChannel(s: State)
    requires Inv(s) && Enabled(s, ReadChannel)
    ensures Inv(Apply(s, ReadChannel))
  {
  }

  lemma AfterSelectDone(s: State)
    requires Inv(s) && Enabled(s, SelectDone)
    ensures Inv(Apply(s, SelectDone))
  {
  }

  lemma AfterFetchServer(s: State)
    requires Inv(s) && Enabled(s, FetchServer)
    ensures Inv(Apply(s, FetchServer))
  {
  }

  lemma AfterTakeSignal(s: State)
    requires Inv(s) && Enabled(s, TakeSignal)
    ensures Inv(Apply(s, TakeSignal))
  {
  }

  lemma AfterStopListening(s: State)
    requires Inv(s) && Enabled(s, StopListening)
    ensures Inv(Apply(s, StopListening))
  {
  }

  lemma AfterBuildFails(s: State)
    requires Inv(s) && Enabled(s, BuildFails)
    ensures Inv(Apply(s, BuildFails))
  {
  }

  lemma AfterLock(s: State)
    requires Inv(s) && Enabled(s, Lock)
    ensures Inv(Apply(s, Lock))
  {
  }

  lemma AfterUnlock(s: State)
    requires Inv(s) && Enabled(s, Unlock)
    ensures Inv(Apply(s, Unlock))
  {
  }

  lemma AfterCloseOld(s: State)
    requires Inv(s) && Enabled(s, CloseOld)
    ensures Inv(Apply(s, CloseOld))
  {
  }

  lemma AfterStopFetches(s: State)
    requires Inv(s) && Enabled(s, StopFetches)
    ensures Inv(Apply(s, StopFetches))
  {
  }

  // The actions below touch more of the state: the control part and the channels go separately.

  lemma ControlAfterSpawnFirst(s: State)
    requires Inv(s) && Enabled(s, SpawnFirst)
    ensures Control(Apply(s, SpawnFirst))
  {
  }

  lemma ChannelAfterSpawnFirst(s: State, c: Id)
    requires Inv(s) && Enabled(s, SpawnFirst) && c in s.channels
    ensures ChannelOk(Apply(s, SpawnFirst), c)
  {
    assert ChannelOk(s, c);
  }

  lemma ControlAfterSelectMessage(s: State)
    requires Inv(s) && Enabled(s, SelectMessage)
    ensures Control(Apply(s, SelectMessage))
  {
  }

  lemma ChannelAfterSelectMessage(s: State, c: Id)
    requires Inv(s) && Enabled(s, SelectMessage) && c in s.channels
    ensures ChannelOk(Apply(s, SelectMessage), c)
  {
    assert ChannelOk(s, c);
  }

  lemma ControlAfterRecheckStale(s: State)
    requires Inv(s) && Enabled(s, Recheck) && s.shared.channel != Some(s.main.channel)
    ensures Control(Apply(s, Recheck))
  {
  }

  lemma ControlAfterRecheckCurrent(s: State)
    requires Inv(s) && Enabled(s, Recheck) && s.shared.channel == Some(s.main.channel)
    ensures Control(Apply(s, Recheck))
  {
  }

  lemma ChannelAfterRecheck(s: State, c: Id)
    requires Inv(s) && Enabled(s, Recheck) && c in s.channels
    ensures ChannelOk(Apply(s, Recheck), c)
  {
    assert ChannelOk(s, c);
  }

  lemma ControlAfterCloseFetched(s: State)
    requires Inv(s) && Enabled(s, CloseFetched)
    ensures Control(Apply(s, CloseFetched))
  {
  }

  lemma ChannelAfterCloseFetched(s: State, c: Id)
    requires Inv(s) && Enabled(s, CloseFetched) && c in s.channels
    ensures ChannelOk(Apply(s, CloseFetched), c)
  {
    assert ChannelOk(s, c);
  }

  lemma ControlAfterDrain(s: State)
    requires Inv(s) && Enabled(s, Drain)
    ensures Control(Apply(s, Drain))
  {
  }

  lemma ChannelAfterDrain(s: State, c: Id)
    requires Inv(s) && Enabled(s, Drain) && c in s.channels
    ensures ChannelOk(Apply(s, Drain), c)
  {
    assert ChannelOk(s, c);
  }

  lemma ControlAfterBuildSucceeds(s: State)
    requires Inv(s) && Enabled(s, BuildSucceeds)
    ensures Control(Apply(s, BuildSucceeds))
  {
  }

  lemma ChannelAfterBuildSucceeds(s: State, c: Id)
    requires Inv(s) && Enabled(s, BuildSucceeds) && c in s.channels
    ensures ChannelOk(Apply(s, BuildSucceeds), c)
  {
    assert ChannelOk(s, c);
  }

  lemma ShapeAfterWriteField(s: State)
    requires Inv(s) && Enabled(s, WriteField) && s.reload.written < 3
    ensures Shape(Apply(s, WriteField))
  {
  }

  /** Before the third assignment is done, nothing is ahead of its spawn or of its Close. */
  lemma WriteFieldFrame(s: State)
    requires Enabled(s, WriteField) && s.reload.written < 3
    ensures var s' := Apply(s, WriteField);
            && s' == s.(shared := s'.shared, reload := s'.reload) && s'.shared.channel == s.shared.channel
            && (forall c :: !SpawnAhead(s, c) && !SpawnAhead(s', c))
            && (forall x :: !CloseAhead(s, x) && !CloseAhead(s', x))
  {
  }

  lemma CapturedAfterWriteField(s: State)
    requires Inv(s) && Enabled(s, WriteField) && s.reload.written < 3
    ensures Captured(Apply(s, WriteField))
  {
    WriteFieldFrame(s);
  }

  lemma RestAfterWriteField(s: State)
    requires Inv(s) && Enabled(s, WriteField) && s.reload.written < 3
    ensures Numbered(Apply(s, WriteField)) && CurrentKept(Apply(s, WriteField))
  {
  }

  lemma ChannelAfterWriteField(s: State, c: Id)
    requires Inv(s) && Enabled(s, WriteField) && s.reload.written < 3 && c in s.channels
    ensures ChannelOk(Apply(s, WriteField), c)
  {
    assert ChannelOk(s, c);
    WriteFieldFrame(s);
  }

  lemma ControlAfterWriteChannel(s: State)
    requires Inv(s) && Enabled(s, WriteField) && s.reload.written == 3
    ensures Control(Apply(s, WriteField))
  {
  }

  lemma ChannelAfterWriteChannel(s: State, c: Id)
    requires Inv(s) && Enabled(s, WriteField) && s.reload.written == 3 && c in Apply(s, WriteField).channels
    ensures ChannelOk(Apply(s, WriteField), c)
  {
    assert c in s.channels ==> ChannelOk(s, c);
  }

  lemma ControlAfterSpawnNew(s: State)
    requires Inv(s) && Enabled(s, SpawnNew)
    ensures Control(Apply(s, SpawnNew))
  {
  }

  lemma ChannelAfterSpawnNew(s: State, c: Id)
    requires Inv(s) && Enabled(s, SpawnNew) && c in s.channels
    ensures ChannelOk(Apply(s, SpawnNew), c)
  {
    assert ChannelOk(s, c);
  }

  lemma ControlAfterServeReturns(s: State, d: Id, msg: Message)
    requires Inv(s) && Enabled(s, ServeReturns(d, msg))
    ensures Control(Apply(s, ServeReturns(d, msg)))
  {
  }

  lemma ChannelAfterServeReturns(s: State, d: Id, msg: Message, c: Id)
    requires Inv(s) && Enabled(s, ServeReturns(d, msg)) && c in s.channels
    ensures ChannelOk(Apply(s, ServeReturns(d, msg)), c)
  {
    assert ChannelOk(s, c);
  }

  lemma ShapeAfterReport(s: State, d: Id)
    requires Inv(s) && Enabled(s, Report(d))
    ensures Shape(Apply(s, Report(d)))
  {
  }

  lemma CapturedAfterReport(s: State, d: Id)
    requires Inv(s) && Enabled(s, Report(d))
    ensures Captured(Apply(s, Report(d)))
  {
    assert ChannelOk(s, d);
  }

  lemma RestAfterReport(s: State, d: Id)
    requires Inv(s) && Enabled(s, Report(d))
    ensures Numbered(Apply(s, Report(d))) && CurrentKept(Apply(s, Report(d)))
  {
  }

  lemma ReportedChannel(s: State, d: Id)
    requires Inv(s) && Enabled(s, Report(d))
    ensures ChannelOk(Apply(s, Report(d)), d)
  {
    assert ChannelOk(s, d);
  }

  lemma OtherChannelAfterReport(s: State, d: Id, c: Id)
    requires Inv(s) && Enabled(s, Report(d)) && c in s.channels && c != d
    ensures ChannelOk(Apply(s, Report(d)), c)
  {
    assert ChannelOk(s, c);
  }

  lemma ControlAfterCancel(s: State)
    requires Inv(s) && Enabled(s, Cancel)
    ensures Control(Apply(s, Cancel))
  {
  }

  lemma ChannelAfterCancel(s: State, c: Id)
    requires Inv(s) && Enabled(s, Cancel) && c in s.channels
    ensures ChannelOk(Apply(s, Cancel), c)
  {
    assert ChannelOk(s, c);
  }

  lemma ControlAfterStopCloses(s: State, x: Id)
    requires Inv(s) && Enabled(s, StopCloses(x))
    ensures Control(Apply(s, StopCloses(x)))
  {
  }

  lemma ChannelAfterStopCloses(s: State, x: Id, c: Id)
    requires Inv(s) && Enabled(s, StopCloses(x)) && c in s.channels
    ensures ChannelOk(Apply(s, StopCloses(x)), c)
  {
    assert ChannelOk(s, c);
  }

  predicate ByMain(a: Action) {
    a.StartCall? || a.MakeChannel? || a.SpawnFirst? || a.ReadChannel? || a.SelectDone? || a.SelectMessage? ||
    a.Recheck? || a.FetchServer? || a.CloseFetched? || a.Drain?
  }

  predicate ByReload(a: Action) {
    a.TakeSignal? || a.StopListening? || a.BuildFails? || a.BuildSucceeds? || a.Lock? || a.WriteField? ||
    a.Unlock? || a.SpawnNew? || a.CloseOld?
  }

  lemma AfterMain(s: State, a: Action)
    requires Inv(s) && Enabled(s, a) && ByMain(a)
    ensures Inv(Apply(s, a))
  {
    var s' := Apply(s, a);
    match a
    case StartCall(ok) => AfterStartCall(s, ok);
    case MakeChannel => AfterMakeChannel(s);
    case SpawnFirst =>
      ControlAfterSpawnFirst(s);
      forall c | c in s'.channels ensures ChannelOk(s', c) { ChannelAfterSpawnFirst(s, c); }
    case ReadChannel => AfterReadChannel(s);
    case SelectDone => AfterSelectDone(s);
    case SelectMessage =>
      ControlAfterSelectMessage(s);
      forall c | c in s'.channels ensures ChannelOk(s', c) { ChannelAfterSelectMessage(s, c); }
    case Recheck =>
      if s.shared.channel == Some(s.main.channel) {
        ControlAfterRecheckCurrent(s);
      } else {
        ControlAfterRecheckStale(s);
      }
      forall c | c in s'.channels ensures ChannelOk(s', c) { ChannelAfterRecheck(s, c); }
    case FetchServer => AfterFetchServer(s);
    case CloseFetched =>
      ControlAfterCloseFetched(s);
      forall c | c in s'.channels ensures ChannelOk(s', c) { ChannelAfterCloseFetched(s, c); }
    case Drain =>
      ControlAfterDrain(s);
      forall c | c in s'.channels ensures ChannelOk(s', c) { ChannelAfterDrain(s, c); }
  }

  lemma AfterBuildSucceeds(s: State)
    requires Inv(s) && Enabled(s, BuildSucceeds)
    ensures Inv(Apply(s, BuildSucceeds))
  {
    var s' := Apply(s, BuildSucceeds);
    ControlAfterBuildSucceeds(s);
    forall c | c in s'.channels ensures ChannelOk(s', c) { ChannelAfterBuildSucceeds(s, c); }
  }

  lemma AfterWriteField(s: State)
    requires Inv(s) && Enabled(s, WriteField)
    ensures Inv(Apply(s, WriteField))
  {
    var s' := Apply(s, WriteField);
    if s.reload.written < 3 {
      ShapeAfterWriteField(s);
      CapturedAfterWriteField(s);
      RestAfterWriteField(s);
      forall c | c in s'.channels ensures ChannelOk(s', c) { ChannelAfterWriteField(s, c); }
    } else {
      ControlAfterWriteChannel(s);
      forall c | c in s'.channels ensures ChannelOk(s', c) { ChannelAfterWriteChannel(s, c); }
    }
  }

  lemma AfterSpawnNew(s: State)
    requires Inv(s) && Enabled(s, SpawnNew)
    ensures Inv(Apply(s, SpawnNew))
  {
    var s' := Apply(s, SpawnNew);
    ControlAfterSpawnNew(s);
    forall c | c in s'.channels ensures ChannelOk(s', c) { ChannelAfterSpawnNew(s, c); }
  }

  lemma AfterReload(s: State, a: Action)
    requires Inv(s) && Enabled(s, a) && ByReload(a)
    ensures Inv(Apply(s, a))
  {
    match a
    case TakeSignal => AfterTakeSignal(s);
    case StopListening => AfterStopListening(s);
    case BuildFails => AfterBuildFails(s);
    case BuildSucceeds => AfterBuildSucceeds(s);
    case Lock => AfterLock(s);
    case WriteField => AfterWriteField(s);
    case Unlock => AfterUnlock(s);
    case SpawnNew => AfterSpawnNew(s);
    case CloseOld => AfterCloseOld(s);
  }

  lemma AfterOthers(s: State, a: Action)
    requires Inv(s) && Enabled(s, a) && !ByMain(a) && !ByReload(a)
    ensures Inv(Apply(s, a))
  {
    var s' := Apply(s, a);
    match a
    case ServeReturns(d, msg) =>
      ControlAfterServeReturns(s, d, msg);
      forall c | c in s'.channels ensures ChannelOk(s', c) { ChannelAfterServeReturns(s, d, msg, c); }
    case Report(d) =>
      ShapeAfterReport(s, d);
      CapturedAfterReport(s, d);
      RestAfterReport(s, d);
      ReportedChannel(s, d);
      forall c | c in s'.channels && c != d ensures ChannelOk(s', c) { OtherChannelAfterReport(s, d, c); }
    case Cancel =>
      ControlAfterCancel(s);
      forall c | c in s'.channels ensures ChannelOk(s', c) { ChannelAfterCancel(s, c); }
    case StopFetches => AfterStopFetches(s);
    case StopCloses(x) =>
      ControlAfterStopCloses(s, x);
      forall c | c in s'.channels ensures ChannelOk(s', c) { ChannelAfterStopCloses(s, x, c); }
  }

  /** Every action keeps the invariant. */
  lemma StepKeepsInv(s: State, a: Action)
    requires Inv(s) && Enabled(s, a)
    ensures Inv(Apply(s, a))
  {
    if ByMain(a) { AfterMain(s, a); } else if ByReload(a) { AfterReload(s, a); } else { AfterOthers(s, a); }
  }

  /** Every state of every schedule satisfies the invariant. */
  lemma {:induction false} ReachableInv(s: State, actions: seq<Action>)
    requires Inv(s) && Follows(s, actions)
    ensures Inv(After(s, actions))
    decreases |actions|
  {
    if actions != [] {
      StepKeepsInv(s, actions[0]);
      ReachableInv(Apply(s, actions[0]), actions[1..]);
    }
  }
}
