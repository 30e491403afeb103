/** Filecmd, Filewrite and Fileread in a confined tree: exactly when they succeed, and what they do to the nodes. */
module SftpCommands {
  import opened Prelude
  import opened Text
  import opened Paths
  import opened FileTree
  import opened Confinement
  import opened Sftp
  import opened SftpEffects

  lemma CmdWithTarget(fs: FS, env: Env, s: Session, command: string, request: string, target: string, a: Attributes,
      open: set<nat>)
    requires IsAbs(s.workingDir) && Confined(fs, Root(s), open) && target != ""
    ensures CmdResult(fs, env, s, command, request, target, a) ==
            if && !Contains(request, "..") && s.allowed(PathOf(s, request), ToLower(command))
               && !Contains(target, "..") && s.allowed(PathOf(s, target), ToLower(command))
            then ExecuteResult(fs, env, command, PathOf(s, request), PathOf(s, target), a)
            else (fs, false)
  {
    if !Contains(request, "..") {
      ConfinedTreeAccepts(fs, env, s, request, open);
    }
    if !Contains(target, "..") {
      ConfinedTreeAccepts(fs, env, s, target, open);
    }
  }

  /** Every proper, non-empty beginning of p is a directory. */
  predicate ParentsAreDirs(fs: FS, p: Path) {
    forall k :: 0 < k < |p| ==> p[..k] in fs.nodes && fs.nodes[p[..k]].Dir?
  }

  predicate AllDirs(fs: FS, p: Path) {
    ParentsAreDirs(fs, p) && (p != [] ==> p in fs.nodes && fs.nodes[p].Dir?)
  }

  /** A place that a lookup comes to lies below directories only. */
  lemma {:induction false} WalkParents(fs: FS, at: Path, rest: seq<string>, follow: bool, links: nat)
    requires AllDirs(fs, at)
    ensures var w := Walk(fs, at, rest, follow, links); !w.Failed? ==> ParentsAreDirs(fs, w.path)
    decreases links, |rest|
  {
    if rest != [] {
      if rest[0] == "" || rest[0] == "." {
        WalkParents(fs, at, rest[1..], follow, links);
      } else if rest[0] == ".." {
        WalkUp(fs, at);
        WalkParents(fs, if at == [] then [] else at[..|at| - 1], rest[1..], follow, links);
      } else {
        var p := at + [rest[0]];
        assert forall k :: 0 < k <= |at| ==> p[..k] == at[..k];
        assert at[..|at|] == at;
        if p in fs.nodes {
          match fs.nodes[p]
          case Dir(_) => WalkParents(fs, p, rest[1..], follow, links);
          case File(_) =>
          case Link(target) =>
            if links != 0 && target != "" {
              var from := if IsAbs(target) then [] else at;
              WalkParents(fs, from, Split(target, '/') + rest[1..], follow, links - 1);
            }
        }
      }
    }
  }

  lemma WalkUp(fs: FS, at: Path)
    requires AllDirs(fs, at)
    ensures AllDirs(fs, if at == [] then [] else at[..|at| - 1])
  {
    if at != [] {
      var up := at[..|at| - 1];
      assert forall k :: 0 < k <= |up| ==> up[..k] == at[..k];
      assert up[..|up|] == up;
    }
  }

  /** A place found is not strictly below another one that is no directory. */
  lemma NotBelow(fs: FS, path: string, follow: bool, links: nat, p: Path)
    requires p in fs.nodes && !fs.nodes[p].Dir? && p != []
    ensures var w := Lookup(fs, path, follow, links); !w.Failed? ==> !(p < w.path)
  {
    if path != "" {
      WalkParents(fs, [], Split(path, '/'), follow, links);
      var w := Lookup(fs, path, follow, links);
      if !w.Failed? {
        ProperBeginning(p, w.path);
      }
    }
  }

  lemma ProperBeginning(p: Path, q: Path)
    ensures p < q ==> |p| < |q| && q[..|p|] == p
  {
  }

  /** w leads to what is renamed; v is where to. */
  predicate RenamePossible(fs: FS, w: Walked, v: Walked, sameText: bool) {
    && w.Found? && w.path in fs.nodes && w.path != []
    && match v
       case Missing(q) => !(w.path <= q)
       case Found(q) =>
         && q in fs.nodes && q != []
         && (if q == w.path then !(fs.nodes[q].Dir? && sameText) else !fs.nodes[q].Dir? && !fs.nodes[w.path].Dir?)
       case Failed => false
  }

  /** Both are names of the same place or of the same file. */
  predicate SameFile(fs: FS, w: Walked, v: Walked) {
    && w.Found? && v.Found? && w.path in fs.nodes && v.path in fs.nodes
    && (w.path == v.path ||
        (fs.nodes[w.path].File? && fs.nodes[v.path].File? && fs.nodes[w.path].inode == fs.nodes[v.path].inode))
  }

  /** What was at or below p is at or below q, nothing is left of it at p, and all else is as it was. */
  ghost predicate MovedTo(fs: FS, fs': FS, p: Path, q: Path) {
    && fs' == fs.(nodes := fs'.nodes)
    && (forall tail: Path ::
          && (q + tail in fs'.nodes <==> p + tail in fs.nodes)
          && (p + tail in fs.nodes ==> fs'.nodes[q + tail] == fs.nodes[p + tail]))
    && (forall x :: p <= x && !(q <= x) ==> x !in fs'.nodes)
    && (forall x :: !(p <= x) && !(q <= x) ==>
          (x in fs'.nodes <==> x in fs.nodes) && (x in fs.nodes ==> fs'.nodes[x] == fs.nodes[x]))
  }

  lemma MoveTreeIsMovedTo(fs: FS, p: Path, q: Path)
    requires !(p <= q)
    ensures MovedTo(fs, fs.(nodes := MoveTree(fs.nodes, p, q)), p, q)
  {
    var fs' := fs.(nodes := MoveTree(fs.nodes, p, q));
    forall tail: Path
      ensures q + tail in fs'.nodes <==> p + tail in fs.nodes
      ensures p + tail in fs.nodes ==> fs'.nodes[q + tail] == fs.nodes[p + tail]
    {
      MoveTreeMoves(fs.nodes, p, q, tail, []);
    }
    forall x
      ensures p <= x && !(q <= x) ==> x !in fs'.nodes
      ensures !(p <= x) && !(q <= x) ==>
                (x in fs'.nodes <==> x in fs.nodes) && (x in fs.nodes ==> fs'.nodes[x] == fs.nodes[x])
    {
      MoveTreeMoves(fs.nodes, p, q, [], x);
    }
  }

  lemma RenameDoes(fs: FS, env: Env, path: string, target: string)
    ensures var w, v := Lookup(fs, path, false, env.kernelLinks), Lookup(fs, target, false, env.kernelLinks);
            var (fs', ok) := Rename(fs, env, path, target);
            && (ok <==> RenamePossible(fs, w, v, path == target) && env.may(Move, path))
            && (!ok ==> fs' == fs)
            && (ok ==> if SameFile(fs, w, v) then fs' == fs else MovedTo(fs, fs', w.path, v.path))
  {
    var w, v := Lookup(fs, path, false, env.kernelLinks), Lookup(fs, target, false, env.kernelLinks);
    if RenamePossible(fs, w, v, path == target) && env.may(Move, path) && !SameFile(fs, w, v) {
      if v.Found? {
        NotBelow(fs, target, false, env.kernelLinks, w.path);
      }
      MoveTreeIsMovedTo(fs, w.path, v.path);
    }
  }

  /**
    Filecmd "Rename" moves what the request names to where the target says, if and only if neither goes up,
    both are allowed, the source exists, and the target is free or may be replaced; otherwise nothing changes.
   */
  lemma FilecmdRename(fs: FS, env: Env, s: Session, request: string, target: string, a: Attributes, open: set<nat>)
    requires IsAbs(s.workingDir) && Confined(fs, Root(s), open) && target != ""
    ensures var from, to := PathOf(s, request), PathOf(s, target);
            var w, v := Lookup(fs, from, false, env.kernelLinks), Lookup(fs, to, false, env.kernelLinks);
            var (fs', ok) := CmdResult(fs, env, s, "Rename", request, target, a);
            && (ok <==>
                 && !Contains(request, "..") && s.allowed(from, ToLower("Rename"))
                 && !Contains(target, "..") && s.allowed(to, ToLower("Rename"))
                 && RenamePossible(fs, w, v, from == to) && env.may(Move, from))
            && (!ok ==> fs' == fs)
            && (ok ==> if SameFile(fs, w, v) then fs' == fs else MovedTo(fs, fs', w.path, v.path))
  {
    CmdWithTarget(fs, env, s, "Rename", request, target, a, open);
    RenameDoes(fs, env, PathOf(s, request), PathOf(s, target));
  }

  lemma SymlinkDoes(fs: FS, env: Env, text: string, path: string, a: Attributes)
    requires text != ""
    ensures var v := Lookup(fs, path, false, env.kernelLinks);
            ExecuteResult(fs, env, "Symlink", text, path, a) ==
            if v.Missing? && env.may(MakeLink, path) then (fs.(nodes := fs.nodes[v.path := Link(text)]), true)
            else (fs, false)
  {
  }

  lemma HardLinkDoes(fs: FS, env: Env, path: string, target: string, a: Attributes)
    ensures var w, v := Lookup(fs, path, false, env.kernelLinks), Lookup(fs, target, false, env.kernelLinks);
            ExecuteResult(fs, env, "Link", path, target, a) ==
            if && w.Found? && w.path in fs.nodes && !fs.nodes[w.path].Dir?
               && v.Missing? && env.may(HardLink, target)
            then (fs.(nodes := fs.nodes[v.path := fs.nodes[w.path]]), true)
            else (fs, false)
  {
  }

  /** Filecmd "Symlink" adds one link, at the target, to the resolved request; otherwise nothing changes. */
  lemma FilecmdSymlink(fs: FS, env: Env, s: Session, request: string, target: string, a: Attributes, open: set<nat>)
    requires IsAbs(s.workingDir) && Confined(fs, Root(s), open) && target != ""
    ensures var from, to := PathOf(s, request), PathOf(s, target);
            var v := Lookup(fs, to, false, env.kernelLinks);
            var (fs', ok) := CmdResult(fs, env, s, "Symlink", request, target, a);
            && (ok <==>
                 && !Contains(request, "..") && s.allowed(from, ToLower("Symlink"))
                 && !Contains(target, "..") && s.allowed(to, ToLower("Symlink"))
                 && v.Missing? && env.may(MakeLink, to))
            && fs' == if ok then fs.(nodes := fs.nodes[v.path := Link(from)]) else fs
  {
    CmdWithTarget(fs, env, s, "Symlink", request, target, a, open);
    SymlinkDoes(fs, env, PathOf(s, request), PathOf(s, target), a);
  }

  /** Filecmd "Link" gives one file or link a second name, at the target; otherwise nothing changes. */
  lemma FilecmdLink(fs: FS, env: Env, s: Session, request: string, target: string, a: Attributes, open: set<nat>)
    requires IsAbs(s.workingDir) && Confined(fs, Root(s), open) && target != ""
    ensures var from, to := PathOf(s, request), PathOf(s, target);
            var w, v := Lookup(fs, from, false, env.kernelLinks), Lookup(fs, to, false, env.kernelLinks);
            var (fs', ok) := CmdResult(fs, env, s, "Link", request, target, a);
            && (ok <==>
                 && !Contains(request, "..") && s.allowed(from, ToLower("Link"))
                 && !Contains(target, "..") && s.allowed(to, ToLower("Link"))
                 && w.Found? && w.path in fs.nodes && !fs.nodes[w.path].Dir?
                 && v.Missing? && env.may(HardLink, to))
            && fs' == if ok then fs.(nodes := fs.nodes[v.path := fs.nodes[w.path]]) else fs
  {
    CmdWithTarget(fs, env, s, "Link", request, target, a, open);
    HardLinkDoes(fs, env, PathOf(s, request), PathOf(s, target), a);
  }

  /** Filecmd "Setstat" on a file: the permitted changes, in order, and success exactly when all are permitted. */
  lemma FilecmdSetstat(fs: FS, env: Env, s: Session, request: string, a: Attributes, open: set<nat>, inode: nat)
    requires IsAbs(s.workingDir) && Confined(fs, Root(s), open) && LeadsTo(fs, env, PathOf(s, request), inode)
    ensures var path := PathOf(s, request);
            var (fs', ok) := CmdResult(fs, env, s, "Setstat", request, "", a);
            var accepted := !Contains(request, "..") && s.allowed(path, ToLower("Setstat"));
            && (ok <==>
                 && accepted
                 && (a.hasMode ==> env.may(Chmod, path)) && (a.hasOwner ==> env.may(Chown, path))
                 && (a.hasSize ==> env.may(Truncate, path) && a.size <= 0x7fff_ffff_ffff_ffff)
                 && (a.hasTimes ==> env.may(Chtimes, path)))
            && fs' == if accepted
                      then fs.(inodes := fs.inodes[inode := Updated(fs.inodes[inode], Permitted(env, path, a))])
                      else fs
  {
    CmdWithoutTarget(fs, env, s, "Setstat", request, a, open);
    SetstatUpdatesFile(fs, env, PathOf(s, request), a, inode);
  }

  /** Attributes of directories do not matter to lookup. */
  lemma {:induction false} WalkOtherAttr(fs: FS, p: Path, attr: Attr, at: Path, rest: seq<string>, follow: bool,
      links: nat)
    requires p in fs.nodes && fs.nodes[p].Dir?
    ensures Walk(fs.(nodes := fs.nodes[p := Dir(attr)]), at, rest, follow, links) == Walk(fs, at, rest, follow, links)
    decreases links, |rest|
  {
    if rest != [] {
      if rest[0] == "" || rest[0] == "." {
        WalkOtherAttr(fs, p, attr, at, rest[1..], follow, links);
      } else if rest[0] == ".." {
        WalkOtherAttr(fs, p, attr, if at == [] then [] else at[..|at| - 1], rest[1..], follow, links);
      } else {
        var q := at + [rest[0]];
        if q in fs.nodes {
          match fs.nodes[q]
          case Dir(_) => WalkOtherAttr(fs, p, attr, q, rest[1..], follow, links);
          case File(_) =>
          case Link(target) =>
            if links != 0 {
              var from := if IsAbs(target) then [] else at;
              WalkOtherAttr(fs, p, attr, from, Split(target, '/') + rest[1..], follow, links - 1);
            }
        }
      }
    }
  }

  /** A directory with these of its attributes replaced. */
  function UpdatedAttr(x: Attr, a: Attributes): Attr {
    Updated(Inode([], x), a.(hasSize := false)).attr
  }

  predicate LeadsToDir(fs: FS, env: Env, path: string, p: Path) {
    Lookup(fs, path, true, env.kernelLinks) == Found(p) && p in fs.nodes && fs.nodes[p].Dir?
  }

  lemma LeadsOnToDir(fs: FS, env: Env, path: string, p: Path, attr: Attr)
    requires LeadsToDir(fs, env, path, p)
    ensures LeadsToDir(fs.(nodes := fs.nodes[p := Dir(attr)]), env, path, p)
  {
    WalkOtherAttr(fs, p, attr, [], Split(path, '/'), true, env.kernelLinks);
  }

  /** Setstat on a directory: as on a file, but a size is always refused. */
  lemma SetstatUpdatesDirectory(fs: FS, env: Env, path: string, a: Attributes, p: Path)
    requires LeadsToDir(fs, env, path, p)
    ensures var (fs', ok) := SetstatResult(fs, env, path, a);
            var mode := a.hasMode ==> env.may(Chmod, path);
            var owner := mode && (a.hasOwner ==> env.may(Chown, path));
            var times := owner && !a.hasSize && (a.hasTimes ==> env.may(Chtimes, path));
            var done := a.(hasMode := a.hasMode && mode, hasOwner := a.hasOwner && owner,
                           hasTimes := a.hasTimes && times);
            && (ok <==> times)
            && fs' == fs.(nodes := fs.nodes[p := Dir(UpdatedAttr(fs.nodes[p].attr, done))])
  {
    var none := Attributes(false, 0, false, 0, 0, false, 0, false, 0, 0);
    var mode := a.hasMode ==> env.may(Chmod, path);
    var owner := mode && (a.hasOwner ==> env.may(Chown, path));
    var times := owner && !a.hasSize && (a.hasTimes ==> env.may(Chtimes, path));
    var a0 := fs.nodes[p].attr;
    var a1 := UpdatedAttr(a0, none.(hasMode := a.hasMode && mode, mode := a.mode));
    var a2 := UpdatedAttr(a1, none.(hasOwner := a.hasOwner && owner, uid := a.uid, gid := a.gid));
    var a3 := UpdatedAttr(a2, none.(hasTimes := a.hasTimes && times, atime := a.atime, mtime := a.mtime));
    assert fs == fs.(nodes := fs.nodes[p := Dir(a0)]);
    LeadsOnToDir(fs, env, path, p, a1);
    LeadsOnToDir(fs, env, path, p, a2);
    assert fs.nodes[p := Dir(a1)][p := Dir(a2)] == fs.nodes[p := Dir(a2)];
    assert fs.nodes[p := Dir(a2)][p := Dir(a3)] == fs.nodes[p := Dir(a3)];
  }

  /** Setstat on what does not exist succeeds exactly when it asks for nothing, and changes nothing. */
  lemma SetstatOnNothing(fs: FS, env: Env, path: string, a: Attributes)
    requires !Lookup(fs, path, true, env.kernelLinks).Found?
    ensures SetstatResult(fs, env, path, a) == (fs, !a.hasMode && !a.hasOwner && !a.hasSize && !a.hasTimes)
  {
  }

  /** Filecmd on a directory, or on nothing. */
  lemma FilecmdSetstatOther(fs: FS, env: Env, s: Session, request: string, a: Attributes, open: set<nat>)
    requires IsAbs(s.workingDir) && Confined(fs, Root(s), open)
    ensures CmdResult(fs, env, s, "Setstat", request, "", a) ==
            if !Contains(request, "..") && s.allowed(PathOf(s, request), ToLower("Setstat"))
            then SetstatResult(fs, env, PathOf(s, request), a)
            else (fs, false)
  {
    CmdWithoutTarget(fs, env, s, "Setstat", request, a, open);
  }

  /** Without a target, the commands that need one fail; so does every command that is not known. */
  lemma OtherCommandsFail(fs: FS, env: Env, s: Session, command: string, request: string, target: string,
      a: Attributes)
    requires
      || (target == "" && (command == "Rename" || command == "Symlink" || command == "Link"))
      || (command != "Rename" && command != "Symlink" && command != "Link" && command != "Setstat" &&
          command != "Rmdir" && command != "Mkdir" && command != "Remove")
    ensures CmdResult(fs, env, s, command, request, target, a) == (fs, false)
  {
  }

  // ------------------------------------------------------------------- resolving

  /**
    resolvePath, in any tree: the request's elements applied to root, refused if they leave it, or if the
    path evaluates to a place that is not at or below root.
   */
  lemma ResolvePathIs(fs: FS, env: Env, s: Session, request: string)
    requires IsAbs(s.workingDir)
    ensures var elements := PushAll(true, Root(s), Split(request, '/'));
            var w := Lookup(fs, Abs(elements), true, env.evalLinks);
            ResolvePath(fs, env, s.workingDir, request) ==
            if Root(s) == [] then Some(Abs(elements))
            else if !(Root(s) <= elements) then None
            else if w.Found? && env.may(Eval, Abs(elements)) && !(Root(s) <= w.path) then None
            else Some(Abs(elements))
  {
    RootText(s);
    ResolvedElements(Root(s), request);
    var elements := PushAll(true, Root(s), Split(request, '/'));
    CleanAbs(Abs(Root(s)) + "/" + request);
    LookupNames(fs, Abs(elements), true, env.evalLinks);
    var w := Lookup(fs, Abs(elements), true, env.evalLinks);
    if Root(s) != [] {
      WithinTextIffPrefix(Root(s), elements);
      if w.Found? {
        WithinTextIffPrefix(Root(s), w.path);
      }
    }
  }

  // ------------------------------------------------------------------- reading and writing

  /** Fileread opens a file if and only if its path does not go up, is allowed, is permitted, and leads to it. */
  lemma FilereadOpens(fs: FS, env: Env, s: Session, request: string, open: set<nat>, inode: nat)
    requires IsAbs(s.workingDir) && Confined(fs, Root(s), open)
    ensures var path := PathOf(s, request);
            var w := Lookup(fs, path, true, env.kernelLinks);
            ReadResult(fs, env, s, request) == Some(inode) <==>
            && !Contains(request, "..") && s.allowed(path, "read") && env.may(Open, path)
            && w.Found? && w.path in fs.nodes && fs.nodes[w.path] == File(inode)
  {
    if !Contains(request, "..") {
      ConfinedTreeAccepts(fs, env, s, request, open);
    }
  }

  /** fs' is fs with some directories added where there was nothing. */
  ghost predicate OnlyNewDirs(fs: FS, fs': FS) {
    && fs' == fs.(nodes := fs'.nodes)
    && (forall p :: p in fs.nodes ==> p in fs'.nodes && fs'.nodes[p] == fs.nodes[p])
    && (forall p :: p in fs'.nodes && p !in fs.nodes ==> fs'.nodes[p] == Dir(PRIVATE_DIR))
  }

  /** MkdirAll, if it succeeds, leaves a directory at its path, and makes nothing but directories. */
  lemma {:induction false} MkdirAllMakes(fs: FS, env: Env, elements: seq<string>)
    ensures var (fs', ok) := MkdirAll(fs, env, elements);
            && OnlyNewDirs(fs, fs')
            && (ok ==> var w := Lookup(fs', Abs(elements), true, env.kernelLinks); w.Found? && IsDirectory(fs', w.path))
    decreases |elements|
  {
    if !Lookup(fs, Abs(elements), true, env.kernelLinks).Found? && elements != [] {
      var (fs1, ok) := MkdirAll(fs, env, elements[..|elements| - 1]);
      MkdirAllMakes(fs, env, elements[..|elements| - 1]);
      var w := Lookup(fs1, Abs(elements), false, env.kernelLinks);
      if ok && w.Missing? {
        WalkFindsNew(fs1, [], Split(Abs(elements), '/'), false, env.kernelLinks, w.path, Dir(PRIVATE_DIR), true);
      }
    }
  }

  lemma WriteIs(fs: FS, env: Env, s: Session, request: string, flags: Flags, open: set<nat>)
    requires IsAbs(s.workingDir) && Confined(fs, Root(s), open)
    ensures var path := PathOf(s, request);
            var (parented, made) := MkdirAll(fs, env, DirElements(path));
            WriteResult(fs, env, s, request, flags) ==
            if Contains(request, "..") || !s.allowed(path, "write") then (fs, None)
            else if !made then (parented, None)
            else OpenWrite(parented, env, path, flags.creat, flags.trunc, flags.excl)
  {
    if !Contains(request, "..") {
      ConfinedTreeAccepts(fs, env, s, request, open);
    }
  }

  /** The directory in which the request's file is. */
  function ParentOf(s: Session, request: string): string {
    var elements := Root(s) + Proper(Split(request, '/'));
    Abs(if elements == [] then [] else elements[..|elements| - 1])
  }

  lemma ParentIs(s: Session, request: string)
    requires IsAbs(s.workingDir) && !Contains(request, "..")
    ensures Abs(DirElements(PathOf(s, request))) == ParentOf(s, request)
  {
    RootText(s);
    RequestWithoutUp(Root(s), request);
    ElementsOfAbs(Root(s) + Proper(Split(request, '/')));
  }

  /**
    A Filewrite that succeeds has its parent directory in place, hands out the file that its path leads to,
    emptied if it is new or was to be truncated, and leaves every other node and file as it was.
   */
  lemma FilewriteDoes(fs: FS, env: Env, s: Session, request: string, flags: Flags, open: set<nat>)
    requires IsAbs(s.workingDir) && Confined(fs, Root(s), open)
    requires WriteResult(fs, env, s, request, flags).1.Some?
    ensures var (fs', handle) := WriteResult(fs, env, s, request, flags);
            var i := handle.value;
            var w := Lookup(fs', PathOf(s, request), true, env.kernelLinks);
            && !Contains(request, "..") && s.allowed(PathOf(s, request), "write") && env.may(Open, PathOf(s, request))
            && w.Found? && w.path in fs'.nodes && fs'.nodes[w.path] == File(i) && i in fs'.inodes
            && (i in fs.inodes ==>
                  && !(flags.creat && flags.excl) && w.path in fs.nodes
                  && fs'.inodes == fs.inodes[i := if flags.trunc then fs.inodes[i].(content := []) else fs.inodes[i]])
            && (i !in fs.inodes ==>
                  && flags.creat && w.path !in fs.nodes
                  && fs'.inodes == fs.inodes[i := Inode([], Attr(0x1a4, 0, 0, 0, 0))])
            && (forall p :: p in fs.nodes ==> p in fs'.nodes && fs'.nodes[p] == fs.nodes[p])
            && (forall p :: p in fs'.nodes && p !in fs.nodes && p != w.path ==>
                  fs'.nodes[p] == Dir(Attr(0x1ed, 0, 0, 0, 0)))
  {
    var path := PathOf(s, request);
    WriteIs(fs, env, s, request, flags, open);
    MkdirAllMakes(fs, env, DirElements(path));
    OpenWriteDoes(MkdirAll(fs, env, DirElements(path)).0, env, path, flags);
  }

  lemma OpenWriteDoes(fs: FS, env: Env, path: string, flags: Flags)
    requires OpenWrite(fs, env, path, flags.creat, flags.trunc, flags.excl).1.Some?
    requires forall p :: p in fs.nodes && fs.nodes[p].File? ==> fs.nodes[p].inode in fs.inodes
    requires forall i :: i in fs.inodes ==> i < fs.unused
    ensures var (fs', handle) := OpenWrite(fs, env, path, flags.creat, flags.trunc, flags.excl);
            var i, w := handle.value, Lookup(fs', path, true, env.kernelLinks);
            && env.may(Open, path)
            && w.Found? && w.path in fs'.nodes && fs'.nodes[w.path] == File(i)
            && if i in fs.inodes
               then
                 && !(flags.creat && flags.excl) && fs'.nodes == fs.nodes
                 && fs'.inodes == fs.inodes[i := if flags.trunc then fs.inodes[i].(content := []) else fs.inodes[i]]
               else
                 && flags.creat && w.path !in fs.nodes && fs'.nodes == fs.nodes[w.path := File(i)]
                 && fs'.inodes == fs.inodes[i := Inode([], PRIVATE_FILE)]
  {
    var (fs', handle) := OpenWrite(fs, env, path, flags.creat, flags.trunc, flags.excl);
    var follow, parts := !(flags.creat && flags.excl), Split(path, '/');
    match Lookup(fs, path, follow, env.kernelLinks)
    case Found(p) =>
      WalkSameNodes(fs, fs', [], parts, true, env.kernelLinks);
    case Missing(p) =>
      var added := fs.(nodes := fs.nodes[p := File(fs.unused)]);
      WalkFindsNew(fs, [], parts, follow, env.kernelLinks, p, File(fs.unused), true);
      WalkSameNodes(added, fs', [], parts, true, env.kernelLinks);
  }

  /**
    Where the parent directory exists, a Filewrite succeeds if and only if its path does not go up, is allowed
    and permitted, and either leads to a file that need not be new, or to nothing and may be created.
   */
  lemma FilewriteSucceedsIff(fs: FS, env: Env, s: Session, request: string, flags: Flags, open: set<nat>)
    requires IsAbs(s.workingDir) && Confined(fs, Root(s), open)
    requires !Contains(request, "..") ==>
               var d := Lookup(fs, ParentOf(s, request), true, env.kernelLinks); d.Found? && IsDirectory(fs, d.path)
    ensures var path := PathOf(s, request);
            var exclusive := flags.creat && flags.excl;
            var w := Lookup(fs, path, !exclusive, env.kernelLinks);
            var (fs', handle) := WriteResult(fs, env, s, request, flags);
            && (handle.Some? <==>
                 && !Contains(request, "..") && s.allowed(path, "write") && env.may(Open, path)
                 && ((w.Found? && w.path in fs.nodes && fs.nodes[w.path].File? && !exclusive) ||
                     (w.Missing? && flags.creat)))
            && (handle.None? ==> fs' == fs)
  {
    WriteIs(fs, env, s, request, flags, open);
    if !Contains(request, "..") {
      ParentIs(s, request);
    }
  }
}
