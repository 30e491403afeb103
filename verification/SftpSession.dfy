/** The handler object of one SFTP session, over the file system it changes. */
module SftpSessions {
  import opened Prelude
  import opened Text
  import opened Paths
  import opened FileTree
  import opened Confinement
  import opened Sftp

  class SecureHandlers {
    const session: Session
    var fs: FS
    var open: set<nat>

    constructor (session: Session, fs: FS)
      ensures this.session == session && this.fs == fs && open == {}
    {
      this.session, this.fs, this.open := session, fs, {};
    }

    function State(): System
      reads this
    {
      System(fs, open)
    }

    /** The condition that Confinement and Sftp are about, for this session's root. */
    ghost predicate Valid()
      reads this
    {
      IsAbs(session.workingDir) && Confined(fs, Root(session), open)
    }

    method Fileread(env: Env, request: string) returns (handle: Option<nat>)
      modifies this`open
      ensures State() == Serve(old(State()), env, session, Read(request))
      ensures handle == ReadResult(fs, env, session, request)
      ensures old(Valid()) ==> Valid()
    {
      handle := None;
      if Valid() { ReadKeeps(fs, env, session, request, open); }
      if Contains(request, "..") {
        return;
      }
      var path := ResolvePath(fs, env, session.workingDir, request);
      if path.None? || !session.allowed(path.value, "read") {
        return;
      }
      handle := OpenRead(fs, env, path.value);
      open := WithHandle(open, handle);
    }

    method Filewrite(env: Env, request: string, flags: Flags) returns (handle: Option<nat>)
      modifies this
      ensures State() == Serve(old(State()), env, session, Write(request, flags))
      ensures handle == WriteResult(old(fs), env, session, request, flags).1
      ensures old(Valid()) ==> Valid() && SameOutside(old(fs), fs, Root(session))
    {
      handle := None;
      if Valid() { WriteKeeps(fs, env, session, request, flags, open); }
      if Contains(request, "..") {
        return;
      }
      var path := ResolvePath(fs, env, session.workingDir, request);
      if path.None? || !session.allowed(path.value, "write") {
        return;
      }
      var (parented, ok) := MkdirAll(fs, env, DirElements(path.value));
      fs := parented;
      if !ok {
        return;
      }
      var (opened_, h) := OpenWrite(fs, env, path.value, flags.creat, flags.trunc, flags.excl);
      fs, handle := opened_, h;
      open := WithHandle(open, handle);
    }

    method Filecmd(env: Env, command: string, request: string, target: string, attributes: Attributes)
        returns (ok: bool)
      modifies this`fs
      ensures State() == Serve(old(State()), env, session, Command(command, request, target, attributes))
      ensures ok == CmdResult(old(fs), env, session, command, request, target, attributes).1
      ensures old(Valid()) ==> Valid() && SameOutside(old(fs), fs, Root(session))
    {
      ok := false;
      if Valid() { CmdKeeps(fs, env, session, command, request, target, attributes, open); }
      if Contains(request, "..") || (target != "" && Contains(target, "..")) {
        return;
      }
      var path := ResolvePath(fs, env, session.workingDir, request);
      if path.None? {
        return;
      }
      var targetPath := "";
      if target != "" {
        var resolved := ResolvePath(fs, env, session.workingDir, target);
        if resolved.None? {
          return;
        }
        targetPath := resolved.value;
      }
      var operation := ToLower(command);
      if !session.allowed(path.value, operation) || (targetPath != "" && !session.allowed(targetPath, operation)) {
        return;
      }
      ResolvedText(fs, env, session.workingDir, target);
      var (changed, done) := ExecuteResult(fs, env, command, path.value, targetPath, attributes);
      fs, ok := changed, done;
    }
  }

  /** A resolved path is never the empty string. */
  lemma ResolvedText(fs: FS, env: Env, workingDir: string, request: string)
    ensures ResolvePath(fs, env, workingDir, request) != Some("")
  {
    CleanNotEmpty(JoinPath(Clean(workingDir), request));
  }

  lemma CleanNotEmpty(path: string)
    ensures Clean(path) != ""
  {
    if !IsAbs(path) {
      var elements := PushAll(false, [], Split(path, '/'));
      KeptNotEmpty([], Split(path, '/'));
      if elements != [] {
        assert elements[0] != "";
      }
    }
  }

  lemma {:induction false} KeptNotEmpty(kept: seq<string>, elements: seq<string>)
    requires "" !in kept
    ensures "" !in PushAll(false, kept, elements)
    decreases |elements|
  {
    if elements != [] {
      KeptNotEmpty(Push(false, kept, elements[0]), elements[1..]);
    }
  }
}
