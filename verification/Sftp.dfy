/** The SFTP request handlers: resolve, check, execute. */
module Sftp {
  import opened Prelude
  import opened Text
  import opened Paths
  import opened FileTree
  import opened Confinement

  /** allowed(path, operation) is ValidateFileOperation for the session's user. */
  datatype Session = Session(workingDir: string, allowed: (string, string) -> bool)

  datatype Flags = Flags(creat: bool, trunc: bool, excl: bool)

  datatype Attributes = Attributes(
    hasMode: bool, mode: int,
    hasOwner: bool, uid: int, gid: int,
    hasSize: bool, size: nat,
    hasTimes: bool, atime: int, mtime: int)

  /** resolvePath */
  function ResolvePath(fs: FS, env: Env, workingDir: string, request: string): Option<string> {
    var root := Clean(workingDir);
    var resolved := Clean(JoinPath(root, request));
    if root == "/" then Some(resolved)
    else if !WithinText(root, resolved) then None
    else match EvalSymlinks(fs, env, resolved)
      case Some(evaluated) => if WithinText(root, evaluated) then Some(resolved) else None
      case None => Some(resolved)
  }

  /** The path a handler goes on with: not one that mentions "..", resolved, and allowed. */
  function Accepted(fs: FS, env: Env, s: Session, request: string, operation: string): Option<string> {
    if Contains(request, "..") then None
    else match ResolvePath(fs, env, s.workingDir, request)
      case Some(path) => if s.allowed(path, operation) then Some(path) else None
      case None => None
  }

  function ReadResult(fs: FS, env: Env, s: Session, request: string): Option<nat> {
    match Accepted(fs, env, s, request, "read")
    case Some(path) => OpenRead(fs, env, path)
    case None => None
  }

  /** filepath.Dir of a clean absolute path, as its elements */
  function DirElements(path: string): seq<string> {
    var elements := Elements(path);
    if elements == [] then [] else elements[..|elements| - 1]
  }

  function WriteResult(fs: FS, env: Env, s: Session, request: string, flags: Flags): (FS, Option<nat>) {
    match Accepted(fs, env, s, request, "write")
    case Some(path) =>
      var (fs1, ok) := MkdirAll(fs, env, DirElements(path));
      if ok then OpenWrite(fs1, env, path, flags.creat, flags.trunc, flags.excl) else (fs1, None)
    case None => (fs, None)
  }

  function ModeOf(a: Attributes): Attr -> Attr {
    (x: Attr) => x.(mode := a.mode)
  }

  function OwnerOf(a: Attributes): Attr -> Attr {
    (x: Attr) => x.(uid := a.uid, gid := a.gid)
  }

  function TimesOf(a: Attributes): Attr -> Attr {
    (x: Attr) => x.(atime := a.atime, mtime := a.mtime)
  }

  /** handleSetstat: mode, owner, size, times, stopping at the first failure */
  function SetstatResult(fs: FS, env: Env, path: string, a: Attributes): (FS, bool) {
    var (fs1, ok1) := if a.hasMode then SetAttr(fs, env, Chmod, path, ModeOf(a)) else (fs, true);
    if !ok1 then (fs1, false) else
    var (fs2, ok2) :=
      if a.hasOwner then SetAttr(fs1, env, Chown, path, OwnerOf(a)) else (fs1, true);
    if !ok2 then (fs2, false) else
    var (fs3, ok3) := if a.hasSize then TruncateFile(fs2, env, path, a.size) else (fs2, true);
    if !ok3 then (fs3, false) else
    if a.hasTimes then SetAttr(fs3, env, Chtimes, path, TimesOf(a)) else (fs3, true)
  }

  /** executeFilecmd; target is "" when the request names none */
  function ExecuteResult(fs: FS, env: Env, command: string, path: string, target: string, a: Attributes): (FS, bool) {
    match command
    case "Setstat" => SetstatResult(fs, env, path, a)
    case "Rename" => Rename(fs, env, path, target)
    case "Rmdir" => Remove(fs, env, path)
    case "Mkdir" => Mkdir(fs, env, path)
    case "Remove" => Remove(fs, env, path)
    case "Symlink" => Symlink(fs, env, path, target)
    case "Link" => HardLinkTo(fs, env, path, target)
    case _ => (fs, false)
  }

  /** Filecmd */
  function CmdResult(fs: FS, env: Env, s: Session, command: string, request: string, target: string, a: Attributes)
      : (FS, bool)
  {
    match Accepted(fs, env, s, request, ToLower(command))
    case None => (fs, false)
    case Some(path) =>
      if target == "" then ExecuteResult(fs, env, command, path, "", a)
      else match Accepted(fs, env, s, target, ToLower(command))
        case None => (fs, false)
        case Some(targetPath) => ExecuteResult(fs, env, command, path, targetPath, a)
  }

  /** The file system and the inodes of the files handed out to the client. */
  datatype System = System(fs: FS, open: set<nat>)

  /** One request; Store is the library writing through a handle of an earlier Write. */
  datatype Request =
    | Read(path: string)
    | Write(path: string, flags: Flags)
    | Command(command: string, path: string, target: string, attributes: Attributes)
    | Store(inode: nat, content: seq<bv8>)

  function WithHandle(open: set<nat>, handle: Option<nat>): set<nat> {
    match handle
    case Some(i) => open + {i}
    case None => open
  }

  function Serve(sys: System, env: Env, s: Session, r: Request): System {
    match r
    case Read(path) => sys.(open := WithHandle(sys.open, ReadResult(sys.fs, env, s, path)))
    case Write(path, flags) =>
      var (fs', handle) := WriteResult(sys.fs, env, s, path, flags);
      System(fs', WithHandle(sys.open, handle))
    case Command(command, path, target, attributes) =>
      sys.(fs := CmdResult(sys.fs, env, s, command, path, target, attributes).0)
    case Store(inode, content) => if inode in sys.open then sys.(fs := SetContent(sys.fs, inode, content)) else sys
  }

  /** A session's requests, each under whatever permissions hold at that moment. */
  function ServeAll(sys: System, s: Session, requests: seq<(Env, Request)>): System
    decreases |requests|
  {
    if requests == [] then sys
    else ServeAll(Serve(sys, requests[0].0, s, requests[0].1), s, requests[1..])
  }

  /** The session's root as a list of names. */
  function Root(s: Session): Path {
    Elements(s.workingDir)
  }

  /** Clean of an absolute working directory is "/" exactly when it has no elements. */
  lemma RootText(s: Session)
    requires IsAbs(s.workingDir)
    ensures Clean(s.workingDir) == Abs(Root(s)) && Names(Root(s))
    ensures Abs(Root(s)) == "/" <==> Root(s) == []
  {
    CleanAbs(s.workingDir);
    if Root(s) != [] {
      SplitAbs(Root(s));
      SplitAbs([]);
      assert ([""] + Root(s))[1] == Root(s)[0] && IsName(Root(s)[0]);
      assert Abs([]) == "/";
    }
  }

  /** What resolvePath returns is clean, absolute, and at or below root: in any tree, for any request. */
  lemma ResolvedInside(fs: FS, env: Env, s: Session, request: string)
    requires IsAbs(s.workingDir)
    ensures ResolvePath(fs, env, s.workingDir, request).Some? ==>
              Inside(Root(s), ResolvePath(fs, env, s.workingDir, request).value)
  {
    RootText(s);
    ResolvedElements(Root(s), request);
    var resolved := Resolved(Abs(Root(s)), request);
    var elements := PushAll(true, Root(s), Split(request, '/'));
    CleanAbs(Abs(Root(s)) + "/" + request);
    if Root(s) != [] {
      WithinTextIffPrefix(Root(s), elements);
    }
  }

  lemma AcceptedInside(fs: FS, env: Env, s: Session, request: string, operation: string)
    requires IsAbs(s.workingDir)
    ensures Accepted(fs, env, s, request, operation).Some? ==>
              Inside(Root(s), Accepted(fs, env, s, request, operation).value)
  {
    ResolvedInside(fs, env, s, request);
  }

  lemma KeepsTrans(fs: FS, fs1: FS, fs2: FS, root: Path, open: set<nat>)
    requires Keeps(fs, fs1, root, open) && Keeps(fs1, fs2, root, open)
    ensures Keeps(fs, fs2, root, open)
  {
    SameOutsideTrans(fs, fs1, fs2, root);
  }

  lemma WriteKeeps(fs: FS, env: Env, s: Session, request: string, flags: Flags, open: set<nat>)
    requires IsAbs(s.workingDir) && Confined(fs, Root(s), open)
    ensures var (fs', handle) := WriteResult(fs, env, s, request, flags);
            Keeps(fs, fs', Root(s), WithHandle(open, handle))
  {
    AcceptedInside(fs, env, s, request, "write");
    match Accepted(fs, env, s, request, "write")
    case None =>
    case Some(path) =>
      var elements :| Names(elements) && Root(s) <= elements && path == Abs(elements);
      ElementsOfAbs(elements);
      var dir := DirElements(path);
      MkdirAllKeeps(fs, env, dir, Root(s), open);
      var (fs1, ok) := MkdirAll(fs, env, dir);
      OpenWriteKeeps(fs1, env, path, flags.creat, flags.trunc, flags.excl, Root(s), open);
      var (fs2, handle) := OpenWrite(fs1, env, path, flags.creat, flags.trunc, flags.excl);
      SameOutsideTrans(fs, fs1, fs2, Root(s));
  }

  lemma SetstatKeeps(fs: FS, env: Env, path: string, a: Attributes, root: Path, open: set<nat>)
    requires Confined(fs, root, open) && Inside(root, path)
    ensures Keeps(fs, SetstatResult(fs, env, path, a).0, root, open)
  {
    var fs1 := if a.hasMode then SetAttr(fs, env, Chmod, path, ModeOf(a)).0 else fs;
    ChangeKeeps(a.hasMode, fs, env, Chmod, path, ModeOf(a), root, open);
    var fs2 := if a.hasOwner then SetAttr(fs1, env, Chown, path, OwnerOf(a)).0 else fs1;
    ChangeKeeps(a.hasOwner, fs1, env, Chown, path, OwnerOf(a), root, open);
    KeepsTrans(fs, fs1, fs2, root, open);
    var fs3 := if a.hasSize then TruncateFile(fs2, env, path, a.size).0 else fs2;
    TruncateKeeps(fs2, env, path, a.size, root, open);
    KeepsTrans(fs, fs2, fs3, root, open);
    ChangeKeeps(a.hasTimes, fs3, env, Chtimes, path, TimesOf(a), root, open);
    KeepsTrans(fs, fs3, SetAttr(fs3, env, Chtimes, path, TimesOf(a)).0, root, open);
  }

  lemma ChangeKeeps(asked: bool, fs: FS, env: Env, call: Call, path: string, change: Attr -> Attr, root: Path,
      open: set<nat>)
    requires Confined(fs, root, open) && Inside(root, path)
    ensures Keeps(fs, SetAttr(fs, env, call, path, change).0, root, open)
    ensures Keeps(fs, if asked then SetAttr(fs, env, call, path, change).0 else fs, root, open)
  {
    SetAttrKeeps(fs, env, call, path, change, root, open);
  }

  lemma ExecuteKeeps(fs: FS, env: Env, command: string, path: string, target: string, a: Attributes, root: Path,
      open: set<nat>)
    requires Confined(fs, root, open) && Inside(root, path) && (target == "" || Inside(root, target))
    ensures Keeps(fs, ExecuteResult(fs, env, command, path, target, a).0, root, open)
  {
    match command
    case "Setstat" => SetstatKeeps(fs, env, path, a, root, open);
    case "Rename" => if target != "" { RenameKeeps(fs, env, path, target, root, open); }
    case "Rmdir" => RemoveKeeps(fs, env, path, root, open);
    case "Mkdir" => MkdirKeeps(fs, env, path, root, open);
    case "Remove" => RemoveKeeps(fs, env, path, root, open);
    case "Symlink" => if target != "" { SymlinkKeeps(fs, env, path, target, root, open); }
    case "Link" => if target != "" { HardLinkKeeps(fs, env, path, target, root, open); }
    case _ =>
  }

  lemma CmdKeeps(fs: FS, env: Env, s: Session, command: string, request: string, target: string, a: Attributes,
      open: set<nat>)
    requires IsAbs(s.workingDir) && Confined(fs, Root(s), open)
    ensures Keeps(fs, CmdResult(fs, env, s, command, request, target, a).0, Root(s), open)
  {
    AcceptedInside(fs, env, s, request, ToLower(command));
    AcceptedInside(fs, env, s, target, ToLower(command));
    match Accepted(fs, env, s, request, ToLower(command))
    case None =>
    case Some(path) =>
      if target == "" {
        ExecuteKeeps(fs, env, command, path, "", a, Root(s), open);
      } else {
        match Accepted(fs, env, s, target, ToLower(command))
        case None =>
        case Some(targetPath) => ExecuteKeeps(fs, env, command, path, targetPath, a, Root(s), open);
      }
  }

  lemma ReadKeeps(fs: FS, env: Env, s: Session, request: string, open: set<nat>)
    requires IsAbs(s.workingDir) && Confined(fs, Root(s), open)
    ensures Confined(fs, Root(s), WithHandle(open, ReadResult(fs, env, s, request)))
  {
    AcceptedInside(fs, env, s, request, "read");
    match Accepted(fs, env, s, request, "read")
    case None =>
    case Some(path) => OpenReadKeeps(fs, env, path, Root(s), open);
  }

  /** One request, whatever it is, keeps the tree confined and changes nothing outside root. */
  lemma ServeKeeps(sys: System, env: Env, s: Session, r: Request)
    requires IsAbs(s.workingDir) && Confined(sys.fs, Root(s), sys.open)
    ensures Confined(Serve(sys, env, s, r).fs, Root(s), Serve(sys, env, s, r).open)
    ensures SameOutside(sys.fs, Serve(sys, env, s, r).fs, Root(s))
  {
    match r
    case Read(path) => ReadKeeps(sys.fs, env, s, path, sys.open);
    case Write(path, flags) => WriteKeeps(sys.fs, env, s, path, flags, sys.open);
    case Command(command, path, target, attributes) =>
      CmdKeeps(sys.fs, env, s, command, path, target, attributes, sys.open);
    case Store(inode, content) =>
      if inode in sys.open { SetContentKeeps(sys.fs, inode, content, Root(s), sys.open); }
  }

  /** Any sequence of requests keeps the tree confined and changes nothing outside root. */
  lemma {:induction false} SessionStaysInside(sys: System, s: Session, requests: seq<(Env, Request)>)
    requires IsAbs(s.workingDir) && Confined(sys.fs, Root(s), sys.open)
    ensures Confined(ServeAll(sys, s, requests).fs, Root(s), ServeAll(sys, s, requests).open)
    ensures SameOutside(sys.fs, ServeAll(sys, s, requests).fs, Root(s))
    decreases |requests|
  {
    if requests != [] {
      var sys1 := Serve(sys, requests[0].0, s, requests[0].1);
      ServeKeeps(sys, requests[0].0, s, requests[0].1);
      SessionStaysInside(sys1, s, requests[1..]);
      SameOutsideTrans(sys.fs, sys1.fs, ServeAll(sys1, s, requests[1..]).fs, Root(s));
    }
  }

  /** Lookup from real names, over parts of path texts, ends at real names. */
  lemma {:induction false} WalkNames(fs: FS, at: Path, rest: seq<string>, follow: bool, links: nat)
    requires Names(at) && forall e :: e in rest ==> '/' !in e
    ensures var w := Walk(fs, at, rest, follow, links); w.Found? ==> Names(w.path)
    decreases links, |rest|
  {
    if rest != [] {
      if rest[0] == "" || rest[0] == "." {
        WalkNames(fs, at, rest[1..], follow, links);
      } else if rest[0] == ".." {
        WalkNames(fs, if at == [] then [] else at[..|at| - 1], rest[1..], follow, links);
      } else {
        var p := at + [rest[0]];
        if p in fs.nodes {
          match fs.nodes[p]
          case Dir(_) => WalkNames(fs, p, rest[1..], follow, links);
          case File(_) =>
          case Link(target) =>
            forall e | e in Split(target, '/')
              ensures '/' !in e
            {
              PartsWithoutSeparator(target, '/', e);
            }
            if links != 0 && target != "" {
              WalkNames(fs, if IsAbs(target) then [] else at, Split(target, '/') + rest[1..], follow, links - 1);
            }
        }
      }
    }
  }

  lemma LookupNames(fs: FS, path: string, follow: bool, links: nat)
    ensures var w := Lookup(fs, path, follow, links); w.Found? ==> Names(w.path)
  {
    forall e | e in Split(path, '/')
      ensures '/' !in e
    {
      PartsWithoutSeparator(path, '/', e);
    }
    if path != "" {
      WalkNames(fs, [], Split(path, '/'), follow, links);
    }
  }

  /** In any tree at all: an accepted path that exists and evaluates leads to a place at or below root. */
  lemma EvaluatedPathIsInside(fs: FS, env: Env, s: Session, request: string)
    requires IsAbs(s.workingDir) && ResolvePath(fs, env, s.workingDir, request).Some?
    ensures var path := ResolvePath(fs, env, s.workingDir, request).value;
            var w := Lookup(fs, path, true, env.evalLinks);
            w.Found? && env.may(Eval, path) ==> Root(s) <= w.path
  {
    RootText(s);
    var path := ResolvePath(fs, env, s.workingDir, request).value;
    LookupNames(fs, path, true, env.evalLinks);
    var w := Lookup(fs, path, true, env.evalLinks);
    if w.Found? && env.may(Eval, path) && Root(s) != [] {
      WithinTextIffPrefix(Root(s), w.path);
    }
  }

  /** The request's elements, taken from root with "..", leave root exactly when resolvePath refuses lexically. */
  lemma RefusedLexicallyIffLeaving(s: Session, request: string)
    requires IsAbs(s.workingDir) && Root(s) != []
    ensures WithinText(Clean(s.workingDir), Clean(JoinPath(Clean(s.workingDir), request))) <==>
            Root(s) <= PushAll(true, Root(s), Split(request, '/'))
  {
    RootText(s);
    ResolvedElements(Root(s), request);
    WithinTextIffPrefix(Root(s), PushAll(true, Root(s), Split(request, '/')));
  }

  /** In a confined tree no request without ".." is refused by resolvePath, and it resolves under root. */
  lemma ConfinedTreeAccepts(fs: FS, env: Env, s: Session, request: string, open: set<nat>)
    requires IsAbs(s.workingDir) && Confined(fs, Root(s), open) && !Contains(request, "..")
    ensures ResolvePath(fs, env, s.workingDir, request) == Some(Abs(Root(s) + Proper(Split(request, '/'))))
  {
    RootText(s);
    RequestWithoutUp(Root(s), request);
    var path := Abs(Root(s) + Proper(Split(request, '/')));
    CleanAbs(Abs(Root(s)) + "/" + request);
    assert Inside(Root(s), path);
    LookupStaysInside(fs, Root(s), path, true, env.evalLinks);
    LookupNames(fs, path, true, env.evalLinks);
    var w := Lookup(fs, path, true, env.evalLinks);
    if w.Found? && Root(s) != [] {
      WithinTextIffPrefix(Root(s), w.path);
    }
  }
}
