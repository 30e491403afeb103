/**
  The file system as the SFTP handlers see it: a map from real paths to nodes, contents by inode,
  path lookup that follows symbolic links, and the system calls the handlers make.
  Whether the caller may do something is an arbitrary function of the call and the path.
*/
module FileTree {
  import opened Prelude
  import opened Text
  import opened Paths

  /** A real path: the names from the root directory down. */
  type Path = seq<string>

  datatype Attr = Attr(mode: int, uid: int, gid: int, atime: int, mtime: int)
  datatype Inode = Inode(content: seq<bv8>, attr: Attr)
  datatype Node = Dir(attr: Attr) | File(inode: nat) | Link(target: string)

  /** inodes at or above `unused` are free. */
  datatype FS = FS(nodes: map<Path, Node>, inodes: map<nat, Inode>, unused: nat)

  datatype Call = Eval | Open | MakeDir | Delete | Move | MakeLink | HardLink | Chmod | Chown | Truncate | Chtimes

  /** The environment: what the caller may do, and how many links a lookup may follow. */
  datatype Env = Env(may: (Call, string) -> bool, kernelLinks: nat, evalLinks: nat)

  datatype Walked = Found(path: Path) | Missing(path: Path) | Failed

  /** Path lookup from directory `at`; the last link is followed only if `follow`. */
  function Walk(fs: FS, at: Path, rest: seq<string>, follow: bool, links: nat): Walked
    decreases links, |rest|
  {
    if rest == [] then Found(at)
    else if rest[0] == "" || rest[0] == "." then Walk(fs, at, rest[1..], follow, links)
    else if rest[0] == ".." then Walk(fs, if at == [] then [] else at[..|at| - 1], rest[1..], follow, links)
    else
      var p := at + [rest[0]];
      if p !in fs.nodes then (if |rest| == 1 then Missing(p) else Failed)
      else match fs.nodes[p]
        case Dir(_) => Walk(fs, p, rest[1..], follow, links)
        case File(_) => if |rest| == 1 then Found(p) else Failed
        case Link(target) =>
          if |rest| == 1 && !follow then Found(p)
          else if links == 0 || target == "" then Failed
          else Walk(fs, if IsAbs(target) then [] else at, Split(target, '/') + rest[1..], follow, links - 1)
  }

  function Lookup(fs: FS, path: string, follow: bool, links: nat): Walked {
    if path == "" then Failed else Walk(fs, [], Split(path, '/'), follow, links)
  }

  /** filepath.EvalSymlinks on an absolute path */
  function EvalSymlinks(fs: FS, env: Env, path: string): Option<string> {
    match Lookup(fs, path, true, env.evalLinks)
    case Found(p) => if env.may(Eval, path) then Some(Abs(p)) else None
    case _ => None
  }

  const PRIVATE_DIR := Attr(0x1ed, 0, 0, 0, 0)   // 0o755
  const PRIVATE_FILE := Attr(0x1a4, 0, 0, 0, 0)  // 0o644

  /** os.Mkdir(path, 0o755) */
  function Mkdir(fs: FS, env: Env, path: string): (FS, bool) {
    match Lookup(fs, path, false, env.kernelLinks)
    case Missing(p) =>
      if env.may(MakeDir, path) then (fs.(nodes := fs.nodes[p := Dir(PRIVATE_DIR)]), true) else (fs, false)
    case _ => (fs, false)
  }

  predicate IsDirectory(fs: FS, p: Path) {
    p == [] || (p in fs.nodes && fs.nodes[p].Dir?)
  }

  /** os.MkdirAll(Abs(elements), 0o755): parents first, stopping at the first that cannot be made. */
  function MkdirAll(fs: FS, env: Env, elements: seq<string>): (FS, bool)
    decreases |elements|
  {
    match Lookup(fs, Abs(elements), true, env.kernelLinks)
    case Found(p) => (fs, IsDirectory(fs, p))
    case _ =>
      if elements == [] then (fs, false)
      else
        var (fs1, ok) := MkdirAll(fs, env, elements[..|elements| - 1]);
        if !ok then (fs1, false) else Mkdir(fs1, env, Abs(elements))
  }

  /** os.Open(path) on a file */
  function OpenRead(fs: FS, env: Env, path: string): Option<nat> {
    match Lookup(fs, path, true, env.kernelLinks)
    case Found(p) => if p in fs.nodes && fs.nodes[p].File? && env.may(Open, path) then Some(fs.nodes[p].inode) else None
    case _ => None
  }

  function SetContent(fs: FS, inode: nat, content: seq<bv8>): FS {
    if inode in fs.inodes then fs.(inodes := fs.inodes[inode := fs.inodes[inode].(content := content)]) else fs
  }

  /** os.OpenFile(path, O_WRONLY plus the flags, 0o644) */
  function OpenWrite(fs: FS, env: Env, path: string, creat: bool, trunc: bool, excl: bool): (FS, Option<nat>) {
    match Lookup(fs, path, !(creat && excl), env.kernelLinks)
    case Found(p) =>
      if p in fs.nodes && fs.nodes[p].File? && !(creat && excl) && env.may(Open, path) then
        (if trunc then SetContent(fs, fs.nodes[p].inode, []) else fs, Some(fs.nodes[p].inode))
      else (fs, None)
    case Missing(p) =>
      if creat && env.may(Open, path) then
        (FS(fs.nodes[p := File(fs.unused)], fs.inodes[fs.unused := Inode([], PRIVATE_FILE)], fs.unused + 1),
         Some(fs.unused))
      else (fs, None)
    case Failed => (fs, None)
  }

  predicate HasChildren(fs: FS, p: Path) {
    exists q | q in fs.nodes :: p < q
  }

  /** os.Remove(path): unlink, or rmdir of an empty directory */
  function Remove(fs: FS, env: Env, path: string): (FS, bool) {
    match Lookup(fs, path, false, env.kernelLinks)
    case Found(p) =>
      if p in fs.nodes && p != [] && env.may(Delete, path) && (fs.nodes[p].Dir? ==> !HasChildren(fs, p))
      then (fs.(nodes := fs.nodes - {p}), true)
      else (fs, false)
    case _ => (fs, false)
  }

  /** Where the node that ends up at x, at or below q, was before p became q. */
  function Origin(p: Path, q: Path, x: Path): Path {
    if q <= x then p + x[|q|..] else x
  }

  /** The tree after what is at or below p has become what is at or below q. */
  function MoveTree(nodes: map<Path, Node>, p: Path, q: Path): map<Path, Node> {
    var candidates := nodes.Keys + set y | y in nodes && p <= y :: q + y[|p|..];
    map x | x in candidates && Origin(p, q, x) in nodes && (q <= x || !(p <= x)) :: nodes[Origin(p, q, x)]
  }

  /** The node a rename or a hard link must not replace. */
  predicate SameInode(a: Node, b: Node) {
    a.File? && b.File? && a.inode == b.inode
  }

  /** os.Rename(path, target), which refuses to replace a directory */
  function Rename(fs: FS, env: Env, path: string, target: string): (FS, bool) {
    match (Lookup(fs, path, false, env.kernelLinks), Lookup(fs, target, false, env.kernelLinks))
    case (Found(p), Found(q)) =>
      if p == [] || q == [] || p !in fs.nodes || q !in fs.nodes || !env.may(Move, path) then (fs, false)
      else if fs.nodes[q].Dir? then (fs, p == q && path != target)
      else if p == q || SameInode(fs.nodes[p], fs.nodes[q]) then (fs, true)
      else if fs.nodes[p].Dir? then (fs, false)
      else (fs.(nodes := MoveTree(fs.nodes, p, q)), true)
    case (Found(p), Missing(q)) =>
      if p == [] || p !in fs.nodes || p <= q || !env.may(Move, path) then (fs, false)
      else (fs.(nodes := MoveTree(fs.nodes, p, q)), true)
    case _ => (fs, false)
  }

  /** os.Symlink(text, path): a link at path whose target is text */
  function Symlink(fs: FS, env: Env, text: string, path: string): (FS, bool) {
    match Lookup(fs, path, false, env.kernelLinks)
    case Missing(p) =>
      if text != "" && env.may(MakeLink, path) then (fs.(nodes := fs.nodes[p := Link(text)]), true) else (fs, false)
    case _ => (fs, false)
  }

  /** os.Link(path, target): a second name, at target, for the file or link at path */
  function HardLinkTo(fs: FS, env: Env, path: string, target: string): (FS, bool) {
    match (Lookup(fs, path, false, env.kernelLinks), Lookup(fs, target, false, env.kernelLinks))
    case (Found(p), Missing(q)) =>
      if p in fs.nodes && !fs.nodes[p].Dir? && env.may(HardLink, target) then
        (fs.(nodes := fs.nodes[q := fs.nodes[p]]), true)
      else (fs, false)
    case _ => (fs, false)
  }

  /** The attributes of what path leads to, links followed, replaced by `attr` of them. */
  function SetAttr(fs: FS, env: Env, call: Call, path: string, change: Attr -> Attr): (FS, bool) {
    match Lookup(fs, path, true, env.kernelLinks)
    case Found(p) =>
      if p !in fs.nodes || !env.may(call, path) then (fs, false)
      else (match fs.nodes[p]
            case Dir(attr) => (fs.(nodes := fs.nodes[p := Dir(change(attr))]), true)
            case File(i) =>
              if i in fs.inodes
              then (fs.(inodes := fs.inodes[i := fs.inodes[i].(attr := change(fs.inodes[i].attr))]), true)
              else (fs, true)
            case Link(_) => (fs, false))
    case _ => (fs, false)
  }

  /** content cut, or filled up with zero bytes, to this size */
  function Resize(content: seq<bv8>, size: nat): seq<bv8> {
    if size <= |content| then content[..size] else content + seq(size - |content|, _ => 0)
  }

  /** A new size keeps the bytes up to it, and those beyond the old end are zero. */
  lemma ResizeIs(content: seq<bv8>, size: nat)
    ensures |Resize(content, size)| == size
    ensures forall i :: 0 <= i < size ==> Resize(content, size)[i] == if i < |content| then content[i] else 0
  {
  }

  /** The largest size that the conversion to int64 leaves as it is; larger ones become negative and are refused. */
  const MAX_SIZE: nat := 0x7fff_ffff_ffff_ffff

  /** os.Truncate(path, int64(size)) */
  function TruncateFile(fs: FS, env: Env, path: string, size: nat): (FS, bool) {
    match Lookup(fs, path, true, env.kernelLinks)
    case Found(p) =>
      if p in fs.nodes && fs.nodes[p].File? && fs.nodes[p].inode in fs.inodes && env.may(Truncate, path) &&
         size <= MAX_SIZE then
        (SetContent(fs, fs.nodes[p].inode, Resize(fs.inodes[fs.nodes[p].inode].content, size)), true)
      else (fs, false)
    case _ => (fs, false)
  }
}
