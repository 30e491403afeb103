/** The fields of Server that its mutex protects, and the sections that run under it. */
module Servers {
  import opened Prelude
  import opened ServerProtocol
  import opened ServerTheorems

  /** From Lock to Unlock the protocol comes to the same server and channel to spawn, and server to close. */
  ghost predicate TakesOver(before: Shared, made: Id, fields: Shared, spawn: (Id, Id), close: Id) {
    forall s: State ::
      && (s.shared == before && Enabled(s, Lock) ==> Apply(s, Lock).reload.prior == close)
      && (s.shared == fields && Enabled(s, Unlock) && s.reload.wasRunning &&
          s.reload.gen.server == made && s.reload.prior == close ==>
            Apply(s, Unlock).reload == Swapped(spawn.0, Some(spawn.1), close))
  }

  lemma SwapTakesOver(before: Shared, made: Id, fields: Shared)
    requires fields.channel.Some?
    ensures TakesOver(before, made, fields, (made, fields.channel.value), before.ssh)
  {
  }

  class Server {
    const configFile: string
    var config: Id
    var logger: Id
    var ssh: Option<Id>
    var sshErrCh: Option<Id>

    function Fields(): Shared
      requires ssh.Some?
      reads this
    {
      Shared(config, logger, ssh.value, sshErrCh)
    }

    /** The literal with which NewWithConfigFile and reloadConfiguration begin: no SSH server yet. */
    constructor (config: Id, logger: Id, configFile: string)
      ensures this.config == config && this.logger == logger && this.configFile == configFile
      ensures ssh == None && sshErrCh == None
    {
      this.configFile := configFile;
      this.config, this.logger, this.ssh, this.sshErrCh := config, logger, None, None;
    }

    /**
      initializeSSHServer. made is the new SSH server, None when no host key could be had; it is built from
      this object's own configuration and logger.
     */
    method InitializeSSHServer(made: Option<Id>) returns (build: Option<Build>)
      modifies this`ssh
      ensures build == if made.Some? then Some(Build(config, logger)) else None
      ensures ssh == if made.Some? then made else old(ssh)
    {
      if made.None? {
        return None;
      }
      build := Some(Build(config, logger));
      ssh := made;
    }

    /** The locked section of Start: make the first channel and take the server it is for. */
    method MakeFirstChannel(made: Id) returns (errCh: Id, server: Id)
      requires ssh.Some?
      modifies this`sshErrCh
      ensures forall s: State :: s.shared == old(Fields()) && s.next == made && Enabled(s, MakeChannel) ==>
                Apply(s, MakeChannel).shared == Fields() && Apply(s, MakeChannel).main == Spawning(errCh, server)
      ensures sshErrCh == Some(errCh) && ssh == Some(server)
    {
      sshErrCh := Some(made);
      errCh := made;
      server := ssh.value;
    }

    /** The locked read that starts each round of runServerLoop. */
    method CaptureChannel() returns (errCh: Option<Id>)
      requires ssh.Some?
      ensures errCh == sshErrCh
      ensures forall s: State :: s.shared == Fields() && Enabled(s, ReadChannel) ==>
                errCh.Some? && Apply(s, ReadChannel).main == Selecting(errCh.value)
    {
      errCh := sshErrCh;
    }

    /** The branch of runServerLoop that has received msg from errCh; None means another round. */
    method AfterMessage(errCh: Id, msg: Message) returns (outcome: Option<Outcome>)
      requires ssh.Some?
      ensures outcome.Some? <==> sshErrCh == Some(errCh)
      ensures forall s: State ::
                s.shared == Fields() && s.main == Rechecking(errCh, msg) && Enabled(s, Recheck) ==>
                  Apply(s, Recheck).main == match outcome case Some(o) => Returned(o) case None => Looping
    {
      var current := sshErrCh;
      if current != Some(errCh) {
        return None;
      }
      outcome := Some(ServerEnded(errCh, msg));
    }

    /** getSSH, with which handleShutdown and Stop take the server that they close */
    method GetSSH() returns (server: Id)
      requires ssh.Some?
      ensures ssh == Some(server)
      ensures forall s: State :: s.shared == Fields() && Enabled(s, FetchServer) ==>
                Apply(s, FetchServer).main == Closing(s.main.channel, server)
      ensures forall s: State :: s.shared == Fields() && Enabled(s, StopFetches) ==>
                Apply(s, StopFetches).held == s.held + {server}
    {
      server := ssh.value;
    }

    /**
      reloadConfiguration. loaded is the configuration that the file held, newLogger the logger made from
      it, initialized the SSH server made from both, each None if that step failed; made is the channel that
      `make` would return. The results say whether the reload succeeded, what the new server was built from,
      which server to run on which channel, and which server to close.
     */
    method Reload(loaded: Option<Id>, newLogger: Option<Id>, initialized: Option<Id>, made: Id)
        returns (ok: bool, build: Option<Build>, spawn: Option<(Id, Id)>, close: Option<Id>)
      requires ssh.Some?
      modifies this
      ensures ok <==> configFile != "" && loaded.Some? && newLogger.Some? && initialized.Some?
      ensures !ok ==> unchanged(this) && spawn == None && close == None
      ensures !ok ==>
                forall s: State :: s.shared == old(Fields()) && Enabled(s, BuildFails) ==>
                  Apply(s, BuildFails).shared == Fields()
      ensures ok ==> ssh.Some? && build == Some(Build(loaded.value, newLogger.value))
      ensures ok ==>
                Fields() == Reloaded(old(Fields()), Generation(loaded.value, newLogger.value, initialized.value), made)
      ensures ok && old(sshErrCh).None? ==> spawn == None && close == None
      ensures ok && old(sshErrCh).Some? ==> spawn == Some((initialized.value, made)) && close == old(ssh)
      ensures ok && old(sshErrCh).Some? ==>
                TakesOver(old(Fields()), initialized.value, Fields(), spawn.value, close.value)
    {
      ok, build, spawn, close := false, None, None, None;
      if configFile == "" || loaded.None? || newLogger.None? {
        return;
      }
      var builder := new Server(loaded.value, newLogger.value, "");
      build := builder.InitializeSSHServer(initialized);
      if build.None? {
        return;
      }
      var oldServer := ssh;
      var wasRunning := sshErrCh.Some?;
      config := loaded.value;
      logger := newLogger.value;
      ssh := builder.ssh;
      if wasRunning {
        sshErrCh := Some(made);
      }
      ok := true;
      if wasRunning {
        spawn, close := Some((builder.ssh.value, made)), oldServer;
        SwapTakesOver(old(Fields()), initialized.value, Fields());
      }
    }
  }

  /** NewWithConfigFile, with what the steps that may fail yielded. */
  method NewWithConfigFile(config: Option<Id>, newLogger: Option<Id>, initialized: Option<Id>, configFile: string)
      returns (server: Server?, build: Option<Build>)
    ensures server != null <==> config.Some? && newLogger.Some? && initialized.Some?
    ensures server != null ==>
              && fresh(server) && server.configFile == configFile && server.ssh.Some?
              && server.Fields() == Shared(config.value, newLogger.value, initialized.value, None)
              && build == Some(Build(config.value, newLogger.value))
  {
    server, build := null, None;
    if config.None? || newLogger.None? {
      return;
    }
    var s := new Server(config.value, newLogger.value, configFile);
    build := s.InitializeSSHServer(initialized);
    if build.Some? {
      server := s;
    }
  }
}
