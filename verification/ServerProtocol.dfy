/**
  The reload and shutdown protocol of pkg/server as a step system.

  Every goroutine is a program counter in the state; an action is one step of one goroutine.
  Sections that only read under the mutex, and the section of Start that makes the first
  channel, are single actions that need the mutex to be free. The section of
  reloadConfiguration that replaces the four shared fields is NOT atomic here: it takes the
  mutex, writes one field per action, and releases the mutex.
*/
module ServerProtocol {
  import opened Prelude

  /** Configurations, loggers, SSH servers and channels are known by number. */
  type Id = nat

  /** What runSSHServer puts on its channel: a wrapped error, or nil. */
  datatype Message = Failure(code: int) | Clean

  /** The four fields of Server that its mutex protects. */
  datatype Shared = Shared(config: Id, logger: Id, ssh: Id, channel: Option<Id>)

  /** What an SSH server was initialised from. */
  datatype Build = Build(config: Id, logger: Id)

  /** The products of a successful rebuild. */
  datatype Generation = Generation(config: Id, logger: Id, server: Id)

  /** An error channel, the server it was made for, and how often it was used. */
  datatype Channel = Channel(owner: Id, buffer: seq<Message>, sends: nat, receives: nat)

  /** make(chan error, 1) */
  const CAPACITY: nat := 1

  /** A runSSHServer goroutine: inside ListenAndServe, about to send, or done. */
  datatype Phase = Serving | Reporting(msg: Message) | Finished(msg: Message)
  datatype Runner = Runner(server: Id, phase: Phase)

  datatype Outcome =
    | StartupFailed
    | ServerEnded(channel: Id, msg: Message)
    | ShutDown(channel: Id, server: Id)

  /** The goroutine that runs Start, runServerLoop and handleShutdown. */
  datatype Main =
    | Idle
    | Entered
    | Spawning(channel: Id, server: Id)
    | Looping
    | Selecting(channel: Id)
    | Rechecking(channel: Id, msg: Message)
    | Stopping(channel: Id)
    | Closing(channel: Id, server: Id)
    | Draining(channel: Id, server: Id)
    | Returned(outcome: Outcome)

  /** The goroutine that runs handleSignals and reloadConfiguration. */
  datatype Reload =
    | Absent
    | Waiting
    | Building
    | Built(gen: Generation)
    | Swapping(gen: Generation, prior: Id, wasRunning: bool, written: nat)
    | Swapped(server: Id, channel: Option<Id>, prior: Id)
    | Retiring(prior: Id)
    | Gone

  datatype State = State(
    shared: Shared,
    locked: bool,             // the reloading goroutine holds the mutex
    main: Main,
    reload: Reload,
    builds: map<Id, Build>,
    channels: map<Id, Channel>,
    runners: map<Id, Runner>, // by the channel they report on
    closed: set<Id>,          // servers on which Close was called
    retired: set<Id>,         // those on which a reload called it
    stopped: set<Id>,         // those on which a Stop call did
    cancelled: bool,          // the signal handler's context
    held: set<Id>,            // servers some Stop call has fetched
    next: Id
  )

  datatype Action =
    | StartCall(metricsOk: bool)
    | MakeChannel
    | SpawnFirst
    | ReadChannel
    | SelectDone
    | SelectMessage
    | Recheck
    | FetchServer
    | CloseFetched
    | Drain
    | TakeSignal
    | StopListening
    | BuildFails
    | BuildSucceeds
    | Lock
    | WriteField
    | Unlock
    | SpawnNew
    | CloseOld
    | ServeReturns(channel: Id, msg: Message)
    | Report(channel: Id)
    | Cancel
    | StopFetches
    | StopCloses(server: Id)

  /** The state NewWithConfigFile leaves behind. */
  function Initial(): State {
    State(Shared(0, 1, 2, None), false, Idle, Absent, map[2 := Build(0, 1)], map[], map[], {}, {}, {}, false, {}, 3)
  }

  function Receive(c: Channel): (r: Channel)
    requires c.buffer != []
  {
    c.(buffer := c.buffer[1..], receives := c.receives + 1)
  }

  function Send(c: Channel, msg: Message): Channel {
    c.(buffer := c.buffer + [msg], sends := c.sends + 1)
  }

  /** A channel of this state that holds a message. */
  predicate Holds(s: State, c: Id) {
    c in s.channels && s.channels[c].buffer != []
  }

  predicate Enabled(s: State, a: Action) {
    match a
    case StartCall(_) => s.main.Idle?
    case MakeChannel => s.main.Entered? && !s.locked
    case SpawnFirst => s.main.Spawning?
    case ReadChannel => s.main.Looping? && !s.locked && s.shared.channel.Some?
    case SelectDone => s.main.Selecting? && s.cancelled
    case SelectMessage => s.main.Selecting? && Holds(s, s.main.channel)
    case Recheck => s.main.Rechecking? && !s.locked
    case FetchServer => s.main.Stopping? && !s.locked
    case CloseFetched => s.main.Closing?
    case Drain => s.main.Draining? && Holds(s, s.main.channel)
    case TakeSignal => s.reload.Waiting?
    case StopListening => s.reload.Waiting? && s.cancelled
    case BuildFails => s.reload.Building?
    case BuildSucceeds => s.reload.Building?
    case Lock => s.reload.Built? && !s.locked
    case WriteField => s.reload.Swapping? && s.reload.written < 4
    case Unlock => s.reload.Swapping? && s.reload.written == 4
    case SpawnNew => s.reload.Swapped?
    case CloseOld => s.reload.Retiring?
    case ServeReturns(c, _) => c in s.runners && s.runners[c].phase.Serving?
    case Report(c) =>
      c in s.runners && s.runners[c].phase.Reporting? && c in s.channels && |s.channels[c].buffer| < CAPACITY
    case Cancel => true
    case StopFetches => s.cancelled && !s.locked
    case StopCloses(x) => x in s.held
  }

  /** reloadConfiguration's assignments, in source order: config, logger, ssh, then sshErrCh if it was set. */
  function Write(s: State): State
    requires Enabled(s, WriteField)
  {
    var r := s.reload;
    var moved := s.(reload := r.(written := r.written + 1));
    match r.written
    case 0 => moved.(shared := s.shared.(config := r.gen.config))
    case 1 => moved.(shared := s.shared.(logger := r.gen.logger))
    case 2 => moved.(shared := s.shared.(ssh := r.gen.server))
    case _ =>
      if r.wasRunning then
        moved.(shared := s.shared.(channel := Some(s.next)),
              channels := s.channels[s.next := Channel(r.gen.server, [], 0, 0)],
              next := s.next + 1)
      else moved
  }

  function Apply(s: State, a: Action): State
    requires Enabled(s, a)
  {
    match a
    case StartCall(metricsOk) =>
      if metricsOk then s.(main := Entered, reload := Waiting) else s.(main := Returned(StartupFailed))
    case MakeChannel =>
      s.(main := Spawning(s.next, s.shared.ssh),
         shared := s.shared.(channel := Some(s.next)),
         channels := s.channels[s.next := Channel(s.shared.ssh, [], 0, 0)],
         next := s.next + 1)
    case SpawnFirst =>
      s.(main := Looping, runners := s.runners[s.main.channel := Runner(s.main.server, Serving)])
    case ReadChannel => s.(main := Selecting(s.shared.channel.value))
    case SelectDone => s.(main := Stopping(s.main.channel))
    case SelectMessage =>
      var c := s.main.channel;
      s.(main := Rechecking(c, s.channels[c].buffer[0]), channels := s.channels[c := Receive(s.channels[c])])
    case Recheck =>
      if s.shared.channel != Some(s.main.channel) then s.(main := Looping)
      else s.(main := Returned(ServerEnded(s.main.channel, s.main.msg)))
    case FetchServer => s.(main := Closing(s.main.channel, s.shared.ssh))
    case CloseFetched =>
      s.(main := Draining(s.main.channel, s.main.server), closed := s.closed + {s.main.server})
    case Drain =>
      var c := s.main.channel;
      s.(main := Returned(ShutDown(c, s.main.server)), channels := s.channels[c := Receive(s.channels[c])])
    case TakeSignal => s.(reload := Building)
    case StopListening => s.(reload := Gone)
    case BuildFails => s.(reload := Waiting)
    case BuildSucceeds =>
      var gen := Generation(s.next, s.next + 1, s.next + 2);
      s.(reload := Built(gen), builds := s.builds[gen.server := Build(gen.config, gen.logger)], next := s.next + 3)
    case Lock =>
      s.(locked := true, reload := Swapping(s.reload.gen, s.shared.ssh, s.shared.channel.Some?, 0))
    case WriteField => Write(s)
    case Unlock =>
      s.(locked := false,
         reload := if s.reload.wasRunning
                   then Swapped(s.reload.gen.server, s.shared.channel, s.reload.prior)
                   else Waiting)
    case SpawnNew =>
      s.(reload := Retiring(s.reload.prior),
         runners := if s.reload.channel.Some?
                    then s.runners[s.reload.channel.value := Runner(s.reload.server, Serving)]
                    else s.runners)
    case CloseOld =>
      s.(reload := Waiting, closed := s.closed + {s.reload.prior}, retired := s.retired + {s.reload.prior})
    case ServeReturns(c, msg) => s.(runners := s.runners[c := s.runners[c].(phase := Reporting(msg))])
    case Report(c) =>
      var msg := s.runners[c].phase.msg;
      s.(runners := s.runners[c := s.runners[c].(phase := Finished(msg))],
         channels := s.channels[c := Send(s.channels[c], msg)])
    case Cancel => s.(cancelled := true)
    case StopFetches => s.(held := s.held + {s.shared.ssh})
    case StopCloses(x) => s.(closed := s.closed + {x}, stopped := s.stopped + {x})
  }

  /** A finite schedule that can be followed from s. */
  predicate Follows(s: State, actions: seq<Action>)
    decreases |actions|
  {
    actions == [] || (Enabled(s, actions[0]) && Follows(Apply(s, actions[0]), actions[1..]))
  }

  function After(s: State, actions: seq<Action>): State
    requires Follows(s, actions)
    decreases |actions|
  {
    if actions == [] then s else After(Apply(s, actions[0]), actions[1..])
  }
}
