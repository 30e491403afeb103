/** What accepted requests do inside root. */
module SftpEffects {
  import opened Prelude
  import opened Text
  import opened Paths
  import opened FileTree
  import opened Confinement
  import opened Sftp

  /** A lookup that ended at a missing name finds the node that is put there. */
  lemma {:induction false} WalkFindsNew(fs: FS, at: Path, rest: seq<string>, follow: bool, links: nat, p: Path,
      node: Node, later: bool)
    requires Walk(fs, at, rest, follow, links) == Missing(p)
    requires (follow ==> later) && (node.Link? ==> !later)
    ensures p !in fs.nodes && Walk(fs.(nodes := fs.nodes[p := node]), at, rest, later, links) == Found(p)
    decreases links, |rest|
  {
    if rest[0] == "" || rest[0] == "." {
      WalkFindsNew(fs, at, rest[1..], follow, links, p, node, later);
    } else if rest[0] == ".." {
      WalkFindsNew(fs, if at == [] then [] else at[..|at| - 1], rest[1..], follow, links, p, node, later);
    } else {
      var q := at + [rest[0]];
      if q in fs.nodes {
        match fs.nodes[q]
        case Dir(_) => WalkFindsNew(fs, q, rest[1..], follow, links, p, node, later);
        case Link(target) =>
          var from := if IsAbs(target) then [] else at;
          WalkFindsNew(fs, from, Split(target, '/') + rest[1..], follow, links - 1, p, node, later);
      }
    }
  }

  /** Contents do not matter to lookup. */
  lemma {:induction false} WalkSameNodes(fs: FS, fs': FS, at: Path, rest: seq<string>, follow: bool, links: nat)
    requires fs.nodes == fs'.nodes
    ensures Walk(fs, at, rest, follow, links) == Walk(fs', at, rest, follow, links)
    decreases links, |rest|
  {
    if rest != [] {
      if rest[0] == "" || rest[0] == "." {
        WalkSameNodes(fs, fs', at, rest[1..], follow, links);
      } else if rest[0] == ".." {
        WalkSameNodes(fs, fs', if at == [] then [] else at[..|at| - 1], rest[1..], follow, links);
      } else {
        var p := at + [rest[0]];
        if p in fs.nodes {
          match fs.nodes[p]
          case Dir(_) => WalkSameNodes(fs, fs', p, rest[1..], follow, links);
          case File(_) =>
          case Link(target) =>
            if links != 0 {
              var from := if IsAbs(target) then [] else at;
              WalkSameNodes(fs, fs', from, Split(target, '/') + rest[1..], follow, links - 1);
            }
        }
      }
    }
  }

  lemma OpenWriteThenOpenRead(fs: FS, env: Env, path: string, flags: Flags)
    ensures var (fs', handle) := OpenWrite(fs, env, path, flags.creat, flags.trunc, flags.excl);
            handle.Some? ==> OpenRead(fs', env, path) == handle
  {
    var (fs', handle) := OpenWrite(fs, env, path, flags.creat, flags.trunc, flags.excl);
    var parts := Split(path, '/');
    match Lookup(fs, path, !(flags.creat && flags.excl), env.kernelLinks)
    case Found(p) => WalkSameNodes(fs, fs', [], parts, true, env.kernelLinks);
    case Missing(p) =>
      if handle.Some? {
        var added := fs.(nodes := fs.nodes[p := File(fs.unused)]);
        WalkFindsNew(fs, [], parts, !(flags.creat && flags.excl), env.kernelLinks, p, File(fs.unused), true);
        WalkSameNodes(added, fs', [], parts, true, env.kernelLinks);
      }
    case Failed =>
  }

  /** In a confined tree, reading the path just written opens the very file that was written. */
  lemma WrittenFileIsReadBack(fs: FS, env: Env, s: Session, request: string, flags: Flags, open: set<nat>)
    requires IsAbs(s.workingDir) && Confined(fs, Root(s), open)
    requires WriteResult(fs, env, s, request, flags).1.Some?
    requires s.allowed(Abs(Root(s) + Proper(Split(request, '/'))), "read")
    ensures var (fs', handle) := WriteResult(fs, env, s, request, flags);
            ReadResult(fs', env, s, request) == handle
  {
    var (fs', handle) := WriteResult(fs, env, s, request, flags);
    WriteKeeps(fs, env, s, request, flags, open);
    ConfinedTreeAccepts(fs, env, s, request, open);
    ConfinedTreeAccepts(fs', env, s, request, WithHandle(open, handle));
    var path := Abs(Root(s) + Proper(Split(request, '/')));
    var fs1 := MkdirAll(fs, env, DirElements(path)).0;
    OpenWriteThenOpenRead(fs1, env, path, flags);
  }

  /** A successful Symlink leaves, at the target's name, a link to the request's path resolved under root. */
  lemma SymlinkHoldsResolvedPath(fs: FS, env: Env, s: Session, request: string, target: string, a: Attributes,
      open: set<nat>)
    requires IsAbs(s.workingDir) && Confined(fs, Root(s), open) && target != ""
    requires CmdResult(fs, env, s, "Symlink", request, target, a).1
    ensures var fs' := CmdResult(fs, env, s, "Symlink", request, target, a).0;
            var w := Lookup(fs', Abs(Root(s) + Proper(Split(target, '/'))), false, env.kernelLinks);
            && w.Found? && w.path !in fs.nodes
            && fs' == fs.(nodes := fs.nodes[w.path := Link(Abs(Root(s) + Proper(Split(request, '/'))))])
  {
    ConfinedTreeAccepts(fs, env, s, request, open);
    ConfinedTreeAccepts(fs, env, s, target, open);
    var text, path := Abs(Root(s) + Proper(Split(request, '/'))), Abs(Root(s) + Proper(Split(target, '/')));
    var p := Lookup(fs, path, false, env.kernelLinks).path;
    WalkFindsNew(fs, [], Split(path, '/'), false, env.kernelLinks, p, Link(text), false);
  }

  /** The move renames: below q is what was below p, below p is nothing, all else is as it was. */
  lemma MoveTreeMoves(nodes: map<Path, Node>, p: Path, q: Path, tail: Path, x: Path)
    requires !(p <= q)
    ensures var moved := MoveTree(nodes, p, q);
            && (q + tail in moved <==> p + tail in nodes)
            && (p + tail in nodes ==> moved[q + tail] == nodes[p + tail])
            && (p <= x && !(q <= x) ==> x !in moved)
            && (!(p <= x) && !(q <= x) ==> (x in moved <==> x in nodes) && (x in nodes ==> moved[x] == nodes[x]))
  {
    assert (q + tail)[|q|..] == tail;
    assert (p + tail)[|p|..] == tail;
  }

  /** A successful Rename to a free name moves everything at and below the source, and nothing else. */
  lemma RenameMovesWholeTree(fs: FS, env: Env, path: string, target: string, tail: Path, x: Path)
    requires Rename(fs, env, path, target).1
    requires Lookup(fs, target, false, env.kernelLinks).Missing?
    ensures var p, q := Lookup(fs, path, false, env.kernelLinks).path, Lookup(fs, target, false, env.kernelLinks).path;
            var moved := Rename(fs, env, path, target).0.nodes;
            && (q + tail in moved <==> p + tail in fs.nodes)
            && (p + tail in fs.nodes ==> moved[q + tail] == fs.nodes[p + tail])
            && (p <= x && !(q <= x) ==> x !in moved)
            && (!(p <= x) && !(q <= x) ==>
                  (x in moved <==> x in fs.nodes) && (x in fs.nodes ==> moved[x] == fs.nodes[x]))
  {
    var p, q := Lookup(fs, path, false, env.kernelLinks).path, Lookup(fs, target, false, env.kernelLinks).path;
    MoveTreeMoves(fs.nodes, p, q, tail, x);
  }

  /** The path that a request without ".." resolves to. */
  function PathOf(s: Session, request: string): string {
    Abs(Root(s) + Proper(Split(request, '/')))
  }

  lemma CmdWithoutTarget(fs: FS, env: Env, s: Session, command: string, request: string, a: Attributes, open: set<nat>)
    requires IsAbs(s.workingDir) && Confined(fs, Root(s), open)
    ensures CmdResult(fs, env, s, command, request, "", a) ==
            if !Contains(request, "..") && s.allowed(PathOf(s, request), ToLower(command))
            then ExecuteResult(fs, env, command, PathOf(s, request), "", a)
            else (fs, false)
  {
    if !Contains(request, "..") {
      ConfinedTreeAccepts(fs, env, s, request, open);
    }
  }

  /** Mkdir adds one directory where there was nothing; otherwise it fails and changes nothing. */
  lemma MkdirAddsOneDirectory(fs: FS, env: Env, s: Session, request: string, a: Attributes, open: set<nat>)
    requires IsAbs(s.workingDir) && Confined(fs, Root(s), open)
    ensures var (fs', ok) := CmdResult(fs, env, s, "Mkdir", request, "", a);
            var w := Lookup(fs, PathOf(s, request), false, env.kernelLinks);
            && (ok <==>
                 && !Contains(request, "..") && s.allowed(PathOf(s, request), ToLower("Mkdir"))
                 && w.Missing? && env.may(MakeDir, PathOf(s, request)))
            && fs' == if ok then fs.(nodes := fs.nodes[w.path := Dir(Attr(0x1ed, 0, 0, 0, 0))]) else fs
  {
    CmdWithoutTarget(fs, env, s, "Mkdir", request, a, open);
  }

  /** Remove and Rmdir take away one node, a directory only if it is empty; otherwise they change nothing. */
  lemma RemoveTakesOneNode(fs: FS, env: Env, s: Session, command: string, request: string, a: Attributes,
      open: set<nat>)
    requires IsAbs(s.workingDir) && Confined(fs, Root(s), open) && (command == "Remove" || command == "Rmdir")
    ensures var (fs', ok) := CmdResult(fs, env, s, command, request, "", a);
            var w := Lookup(fs, PathOf(s, request), false, env.kernelLinks);
            && (ok <==>
                 && !Contains(request, "..") && s.allowed(PathOf(s, request), ToLower(command))
                 && w.Found? && w.path in fs.nodes && w.path != [] && env.may(Delete, PathOf(s, request))
                 && (fs.nodes[w.path].Dir? ==> forall q :: q in fs.nodes ==> !(w.path < q)))
            && fs' == if ok then fs.(nodes := fs.nodes - {w.path}) else fs
  {
    CmdWithoutTarget(fs, env, s, command, request, a, open);
  }

  /** A successful Link gives one file or link a second name, at the target, and changes nothing else. */
  lemma LinkSharesNode(fs: FS, env: Env, s: Session, request: string, target: string, a: Attributes, open: set<nat>)
    requires IsAbs(s.workingDir) && Confined(fs, Root(s), open) && target != ""
    requires CmdResult(fs, env, s, "Link", request, target, a).1
    ensures var fs' := CmdResult(fs, env, s, "Link", request, target, a).0;
            var from := Lookup(fs, PathOf(s, request), false, env.kernelLinks);
            var to := Lookup(fs', PathOf(s, target), false, env.kernelLinks);
            && from.Found? && from.path in fs.nodes && !fs.nodes[from.path].Dir?
            && to.Found? && to.path !in fs.nodes
            && fs' == fs.(nodes := fs.nodes[to.path := fs.nodes[from.path]])
  {
    ConfinedTreeAccepts(fs, env, s, request, open);
    ConfinedTreeAccepts(fs, env, s, target, open);
    var q := Lookup(fs, PathOf(s, target), false, env.kernelLinks).path;
    var node := fs.nodes[Lookup(fs, PathOf(s, request), false, env.kernelLinks).path];
    WalkFindsNew(fs, [], Split(PathOf(s, target), '/'), false, env.kernelLinks, q, node, false);
  }

  /** A file with these of its attributes and of its size replaced. */
  function Updated(i: Inode, a: Attributes): Inode {
    Inode(
      if a.hasSize then Resize(i.content, a.size) else i.content,
      Attr(
        if a.hasMode then a.mode else i.attr.mode,
        if a.hasOwner then a.uid else i.attr.uid,
        if a.hasOwner then a.gid else i.attr.gid,
        if a.hasTimes then a.atime else i.attr.atime,
        if a.hasTimes then a.mtime else i.attr.mtime))
  }

  /** The path leads to the file of this inode. */
  predicate LeadsTo(fs: FS, env: Env, path: string, inode: nat) {
    var w := Lookup(fs, path, true, env.kernelLinks);
    w.Found? && w.path in fs.nodes && fs.nodes[w.path] == File(inode) && inode in fs.inodes
  }

  lemma LeadsOn(fs: FS, env: Env, path: string, inode: nat, updated: Inode)
    requires LeadsTo(fs, env, path, inode)
    ensures LeadsTo(fs.(inodes := fs.inodes[inode := updated]), env, path, inode)
  {
    WalkSameNodes(fs, fs.(inodes := fs.inodes[inode := updated]), [], Split(path, '/'), true, env.kernelLinks);
  }

  /** What is left of the changes asked for when the first one that is not permitted ends it. */
  function Permitted(env: Env, path: string, a: Attributes): Attributes {
    var mode := a.hasMode ==> env.may(Chmod, path);
    var owner := mode && (a.hasOwner ==> env.may(Chown, path));
    var size := owner && (a.hasSize ==> env.may(Truncate, path) && a.size <= MAX_SIZE);
    var times := size && (a.hasTimes ==> env.may(Chtimes, path));
    a.(hasMode := a.hasMode && mode, hasOwner := a.hasOwner && owner,
       hasSize := a.hasSize && size, hasTimes := a.hasTimes && times)
  }

  /**
    Setstat on a file makes the changes asked for in order, up to the first that is not permitted, and no
    other; it succeeds exactly when all are permitted.
   */
  lemma SetstatUpdatesFile(fs: FS, env: Env, path: string, a: Attributes, inode: nat)
    requires LeadsTo(fs, env, path, inode)
    ensures var (fs', ok) := SetstatResult(fs, env, path, a);
            && (ok <==>
                 && (a.hasMode ==> env.may(Chmod, path)) && (a.hasOwner ==> env.may(Chown, path))
                 && (a.hasSize ==> env.may(Truncate, path) && a.size <= 0x7fff_ffff_ffff_ffff)
                 && (a.hasTimes ==> env.may(Chtimes, path)))
            && fs' == fs.(inodes := fs.inodes[inode := Updated(fs.inodes[inode], Permitted(env, path, a))])
  {
    var none := Attributes(false, 0, false, 0, 0, false, 0, false, 0, 0);
    var b := Permitted(env, path, a);
    var i0 := fs.inodes[inode];
    var i1 := Updated(i0, none.(hasMode := b.hasMode, mode := b.mode));
    var i2 := Updated(i1, none.(hasOwner := b.hasOwner, uid := b.uid, gid := b.gid));
    var i3 := Updated(i2, none.(hasSize := b.hasSize, size := b.size));
    assert fs == fs.(inodes := fs.inodes[inode := i0]);
    LeadsOn(fs, env, path, inode, i1);
    LeadsOn(fs, env, path, inode, i2);
    LeadsOn(fs, env, path, inode, i3);
    assert fs.inodes[inode := i1][inode := i2] == fs.inodes[inode := i2];
    assert fs.inodes[inode := i2][inode := i3] == fs.inodes[inode := i3];
    var i4 := Updated(i3, none.(hasTimes := b.hasTimes, atime := b.atime, mtime := b.mtime));
    assert fs.inodes[inode := i3][inode := i4] == fs.inodes[inode := i4];
    assert i4 == Updated(i0, b);
  }
}
