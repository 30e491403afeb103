/** From a tree whose links at or below root stay at or below root, no system call reaches outside root. */
module Confinement {
  import opened Prelude
  import opened Text
  import opened Paths
  import opened FileTree

  /** A link target that names a place at or below root without going up. */
  ghost predicate TargetInside(root: Path, target: string) {
    IsAbs(target) && ".." !in Split(target, '/') && root <= Proper(Split(target, '/'))
  }

  ghost predicate LinksInside(fs: FS, root: Path) {
    forall p :: p in fs.nodes && root <= p && fs.nodes[p].Link? ==> TargetInside(root, fs.nodes[p].target)
  }

  /** Every directory strictly between "/" and root is a real directory. */
  ghost predicate AncestorsAreDirs(fs: FS, root: Path) {
    forall k :: 0 < k < |root| ==> root[..k] in fs.nodes && fs.nodes[root[..k]].Dir?
  }

  /** A file of this inode has a name outside root. */
  ghost predicate NamedOutside(fs: FS, root: Path, inode: nat) {
    exists p :: p in fs.nodes && !(root <= p) && fs.nodes[p] == File(inode)
  }

  ghost predicate InodesSeparate(fs: FS, root: Path, open: set<nat>) {
    && (forall p :: p in fs.nodes && fs.nodes[p].File? ==> fs.nodes[p].inode in fs.inodes)
    && (forall i :: i in fs.inodes || i in open ==> i < fs.unused)
    && (forall p :: p in fs.nodes && root <= p && fs.nodes[p].File? ==> !NamedOutside(fs, root, fs.nodes[p].inode))
    && (forall i :: i in open ==> !NamedOutside(fs, root, i))
  }

  /** The condition that every request keeps; `open` are the inodes of files handed out to the client. */
  ghost predicate Confined(fs: FS, root: Path, open: set<nat>) {
    LinksInside(fs, root) && AncestorsAreDirs(fs, root) && InodesSeparate(fs, root, open)
  }

  /** Outside root: the same nodes, and the same contents and attributes of every file. */
  ghost predicate SameOutside(fs: FS, fs': FS, root: Path) {
    forall p :: !(root <= p) ==>
      && (p in fs.nodes <==> p in fs'.nodes)
      && (p in fs.nodes ==>
            && fs'.nodes[p] == fs.nodes[p]
            && (fs.nodes[p].File? && fs.nodes[p].inode in fs.inodes ==>
                  fs.nodes[p].inode in fs'.inodes && fs'.inodes[fs.nodes[p].inode] == fs.inodes[fs.nodes[p].inode]))
  }

  /** What a system call may do, given that the tree was confined before it. */
  ghost predicate Keeps(fs: FS, fs': FS, root: Path, open: set<nat>) {
    Confined(fs', root, open) && SameOutside(fs, fs', root)
  }

  lemma {:induction false} ProperAppend(a: seq<string>, b: seq<string>)
    ensures Proper(a + b) == Proper(a) + Proper(b)
  {
    if a == [] {
      assert a + b == b;
    } else {
      assert (a + b)[1..] == a[1..] + b;
      ProperAppend(a[1..], b);
    }
  }

  /** Lookup that starts towards root ends at or below root, however many links it follows. */
  lemma {:induction false} WalkStaysInside(fs: FS, root: Path, at: Path, rest: seq<string>, follow: bool, links: nat)
    requires LinksInside(fs, root) && AncestorsAreDirs(fs, root)
    requires ".." !in rest && root <= at + Proper(rest)
    ensures match Walk(fs, at, rest, follow, links)
            case Found(p) => root <= p
            case Missing(p) => root <= p
            case Failed => true
    decreases links, |rest|
  {
    if rest == [] {
      assert at + Proper(rest) == at;
    } else if rest[0] == "" || rest[0] == "." {
      WalkStaysInside(fs, root, at, rest[1..], follow, links);
    } else {
      var p := at + [rest[0]];
      assert p + Proper(rest[1..]) == at + Proper(rest);
      if |rest| == 1 {
        assert rest[1..] == [] && p + [] == p;
      }
      assert |p| < |root| ==> p == root[..|p|];
      if p in fs.nodes {
        match fs.nodes[p]
        case Dir(_) => WalkStaysInside(fs, root, p, rest[1..], follow, links);
        case File(_) =>
        case Link(target) =>
          if !(|rest| == 1 && !follow) && links != 0 && target != "" {
            var rest' := Split(target, '/') + rest[1..];
            ProperAppend(Split(target, '/'), rest[1..]);
            assert [] + Proper(rest') == Proper(rest');
            WalkStaysInside(fs, root, [], rest', follow, links - 1);
          }
      }
    }
  }

  /** A resolved path: clean, absolute, at or below root. */
  ghost predicate Inside(root: Path, path: string) {
    exists elements :: Names(elements) && root <= elements && path == Abs(elements)
  }

  lemma LookupStaysInside(fs: FS, root: Path, path: string, follow: bool, links: nat)
    requires LinksInside(fs, root) && AncestorsAreDirs(fs, root) && Inside(root, path)
    ensures match Lookup(fs, path, follow, links)
            case Found(p) => root <= p
            case Missing(p) => root <= p
            case Failed => true
  {
    var elements :| Names(elements) && root <= elements && path == Abs(elements);
    PartsOfAbs(elements);
    assert [] + elements == elements;
    WalkStaysInside(fs, root, [], Split(path, '/'), follow, links);
  }

  lemma InsideIsTarget(root: Path, text: string)
    requires Inside(root, text)
    ensures TargetInside(root, text)
  {
    var elements :| Names(elements) && root <= elements && text == Abs(elements);
    PartsOfAbs(elements);
  }

  lemma MkdirKeeps(fs: FS, env: Env, path: string, root: Path, open: set<nat>)
    requires Confined(fs, root, open) && Inside(root, path)
    ensures Keeps(fs, Mkdir(fs, env, path).0, root, open)
  {
    LookupStaysInside(fs, root, path, false, env.kernelLinks);
  }

  lemma RemoveKeeps(fs: FS, env: Env, path: string, root: Path, open: set<nat>)
    requires Confined(fs, root, open) && Inside(root, path)
    ensures Keeps(fs, Remove(fs, env, path).0, root, open)
  {
    LookupStaysInside(fs, root, path, false, env.kernelLinks);
  }

  lemma SymlinkKeeps(fs: FS, env: Env, text: string, path: string, root: Path, open: set<nat>)
    requires Confined(fs, root, open) && Inside(root, path) && Inside(root, text)
    ensures Keeps(fs, Symlink(fs, env, text, path).0, root, open)
  {
    LookupStaysInside(fs, root, path, false, env.kernelLinks);
    InsideIsTarget(root, text);
  }

  lemma HardLinkKeeps(fs: FS, env: Env, path: string, target: string, root: Path, open: set<nat>)
    requires Confined(fs, root, open) && Inside(root, path) && Inside(root, target)
    ensures Keeps(fs, HardLinkTo(fs, env, path, target).0, root, open)
  {
    LookupStaysInside(fs, root, path, false, env.kernelLinks);
    LookupStaysInside(fs, root, target, false, env.kernelLinks);
  }

  /** A move between places at or below root maps inside to inside and leaves outside alone. */
  lemma MovedNode(nodes: map<Path, Node>, p: Path, q: Path, root: Path, x: Path)
    requires root <= p && root <= q
    ensures var moved := MoveTree(nodes, p, q);
            && (x in moved ==>
                  && Origin(p, q, x) in nodes && moved[x] == nodes[Origin(p, q, x)]
                  && (root <= x <==> root <= Origin(p, q, x)))
            && (!(root <= x) ==> Origin(p, q, x) == x && (x in moved <==> x in nodes))
  {
  }

  lemma MoveTreeConfined(fs: FS, p: Path, q: Path, root: Path, open: set<nat>)
    requires Confined(fs, root, open) && root <= p && root <= q
    ensures Confined(fs.(nodes := MoveTree(fs.nodes, p, q)), root, open)
  {
    var fs' := fs.(nodes := MoveTree(fs.nodes, p, q));
    forall x
      ensures x in fs'.nodes ==>
                && Origin(p, q, x) in fs.nodes && fs'.nodes[x] == fs.nodes[Origin(p, q, x)]
                && (root <= x <==> root <= Origin(p, q, x))
      ensures !(root <= x) ==> (x in fs'.nodes <==> x in fs.nodes)
    {
      MovedNode(fs.nodes, p, q, root, x);
    }
    forall k | 0 < k < |root|
      ensures root[..k] in fs'.nodes && fs'.nodes[root[..k]].Dir?
    {
      MovedNode(fs.nodes, p, q, root, root[..k]);
    }
    forall i | NamedOutside(fs', root, i)
      ensures NamedOutside(fs, root, i)
    {
      var x :| x in fs'.nodes && !(root <= x) && fs'.nodes[x] == File(i);
      MovedNode(fs.nodes, p, q, root, x);
    }
  }

  lemma MoveTreeKeeps(fs: FS, p: Path, q: Path, root: Path, open: set<nat>)
    requires Confined(fs, root, open) && root <= p && root <= q
    ensures Keeps(fs, fs.(nodes := MoveTree(fs.nodes, p, q)), root, open)
  {
    MoveTreeConfined(fs, p, q, root, open);
    forall x | !(root <= x)
      ensures x in MoveTree(fs.nodes, p, q) <==> x in fs.nodes
      ensures x in fs.nodes ==> MoveTree(fs.nodes, p, q)[x] == fs.nodes[x]
    {
      MovedNode(fs.nodes, p, q, root, x);
    }
  }

  lemma RenameKeeps(fs: FS, env: Env, path: string, target: string, root: Path, open: set<nat>)
    requires Confined(fs, root, open) && Inside(root, path) && Inside(root, target)
    ensures Keeps(fs, Rename(fs, env, path, target).0, root, open)
  {
    LookupStaysInside(fs, root, path, false, env.kernelLinks);
    LookupStaysInside(fs, root, target, false, env.kernelLinks);
    match (Lookup(fs, path, false, env.kernelLinks), Lookup(fs, target, false, env.kernelLinks))
    case (Found(p), Found(q)) => MoveTreeKeeps(fs, p, q, root, open);
    case (Found(p), Missing(q)) => MoveTreeKeeps(fs, p, q, root, open);
    case _ =>
  }

  lemma SetContentKeeps(fs: FS, inode: nat, content: seq<bv8>, root: Path, open: set<nat>)
    requires Confined(fs, root, open) && !NamedOutside(fs, root, inode)
    ensures Keeps(fs, SetContent(fs, inode, content), root, open)
  {
  }

  lemma OpenWriteKeeps(fs: FS, env: Env, path: string, creat: bool, trunc: bool, excl: bool, root: Path, open: set<nat>)
    requires Confined(fs, root, open) && Inside(root, path)
    ensures var (fs', handle) := OpenWrite(fs, env, path, creat, trunc, excl);
            Keeps(fs, fs', root, if handle.Some? then open + {handle.value} else open)
  {
    LookupStaysInside(fs, root, path, !(creat && excl), env.kernelLinks);
  }

  lemma OpenReadKeeps(fs: FS, env: Env, path: string, root: Path, open: set<nat>)
    requires Confined(fs, root, open) && Inside(root, path)
    ensures var handle := OpenRead(fs, env, path);
            handle.Some? ==> !NamedOutside(fs, root, handle.value) && handle.value in fs.inodes
  {
    LookupStaysInside(fs, root, path, true, env.kernelLinks);
  }

  lemma SetAttrKeeps(fs: FS, env: Env, call: Call, path: string, change: Attr -> Attr, root: Path, open: set<nat>)
    requires Confined(fs, root, open) && Inside(root, path)
    ensures Keeps(fs, SetAttr(fs, env, call, path, change).0, root, open)
  {
    LookupStaysInside(fs, root, path, true, env.kernelLinks);
  }

  lemma TruncateKeeps(fs: FS, env: Env, path: string, size: nat, root: Path, open: set<nat>)
    requires Confined(fs, root, open) && Inside(root, path)
    ensures Keeps(fs, TruncateFile(fs, env, path, size).0, root, open)
  {
    LookupStaysInside(fs, root, path, true, env.kernelLinks);
  }

  /** Each directory above root is found where it is. */
  lemma {:induction false} AncestorFound(fs: FS, root: Path, at: Path, rest: seq<string>, links: nat)
    requires AncestorsAreDirs(fs, root) && Names(rest) && at + rest < root
    ensures Walk(fs, at, rest, true, links) == Found(at + rest)
    decreases |rest|
  {
    if rest == [] {
      assert at + rest == at;
    } else {
      var p := at + [rest[0]];
      assert IsName(rest[0]);
      assert p + rest[1..] == at + rest;
      assert p == root[..|p|];
      AncestorFound(fs, root, p, rest[1..], links);
    }
  }

  lemma AncestorLookup(fs: FS, root: Path, elements: seq<string>, links: nat)
    requires AncestorsAreDirs(fs, root) && Names(elements) && elements < root
    ensures Lookup(fs, Abs(elements), true, links) == Found(elements) && IsDirectory(fs, elements)
  {
    SplitAbs(elements);
    var parts := Split(Abs(elements), '/');
    assert parts[1..] == if elements == [] then [""] else elements;
    assert Walk(fs, [], parts, true, links) == Walk(fs, [], parts[1..], true, links);
    if elements == [] {
      assert parts[1..][1..] == [];
    } else {
      assert [] + elements == elements;
      AncestorFound(fs, root, [], elements, links);
      assert elements == root[..|elements|];
    }
  }

  lemma SameOutsideTrans(fs: FS, fs1: FS, fs2: FS, root: Path)
    requires SameOutside(fs, fs1, root) && SameOutside(fs1, fs2, root)
    ensures SameOutside(fs, fs2, root)
  {
  }

  lemma {:induction false} MkdirAllKeeps(fs: FS, env: Env, elements: seq<string>, root: Path, open: set<nat>)
    requires Confined(fs, root, open) && Names(elements) && (root <= elements || elements < root)
    ensures Keeps(fs, MkdirAll(fs, env, elements).0, root, open)
    decreases |elements|
  {
    if elements < root {
      AncestorLookup(fs, root, elements, env.kernelLinks);
    } else if elements != [] && !Lookup(fs, Abs(elements), true, env.kernelLinks).Found? {
      var parent := elements[..|elements| - 1];
      MkdirAllKeeps(fs, env, parent, root, open);
      var (fs1, ok) := MkdirAll(fs, env, parent);
      if ok {
        assert Inside(root, Abs(elements));
        MkdirKeeps(fs1, env, Abs(elements), root, open);
        SameOutsideTrans(fs, fs1, Mkdir(fs1, env, Abs(elements)).0, root);
      }
    }
  }
}
