/** Loading host keys from files, and generating and saving those that do not exist. */
module HostKeys {
  import opened Prelude

  type Key = nat

  /**
    The world outside: files that exist but cannot be read, the key the n-th generation for a path yields
    (if any), directories that cannot be made, writes that fail and what they leave behind, and the
    encoding of keys.
   */
  datatype World = World(
    unreadable: string -> bool,
    draw: (string, nat) -> Option<Key>,
    noDirectory: string -> bool,
    badWrite: string -> Option<Option<string>>,
    marshal: Key -> string,
    parse: string -> Option<Key>)

  ghost predicate Faithful(w: World) {
    forall k: Key :: w.parse(w.marshal(k)) == Some(k)
  }

  /** The files, and how many keys have been generated. */
  datatype Disk = Disk(files: map<string, string>, drawn: nat)

  /** generateAndSaveKey */
  function Generate(w: World, d: Disk, path: string): (Disk, Option<Key>) {
    var d1 := d.(drawn := d.drawn + 1);
    match w.draw(path, d.drawn)
    case None => (d1, None)
    case Some(key) =>
      if w.noDirectory(path) then (d1, None)
      else match w.badWrite(path)
        case Some(Some(left)) => (d1.(files := d.files[path := left]), None)
        case Some(None) => (d1, None)
        case None => (d1.(files := d.files[path := w.marshal(key)]), Some(key))
  }

  /** loadOrGenerateKey */
  function LoadOrGenerate(w: World, d: Disk, path: string): (Disk, Option<Key>) {
    if w.unreadable(path) then (d, None)
    else if path in d.files then (d, w.parse(d.files[path]))
    else Generate(w, d, path)
  }

  /** The loop of LoadOrGenerateKeys: empty paths are skipped, the first failure ends it. */
  function LoadAll(w: World, d: Disk, paths: seq<string>): (Disk, Option<seq<Key>>)
    decreases |paths|
  {
    if paths == [] then (d, Some([]))
    else if paths[0] == "" then LoadAll(w, d, paths[1..])
    else
      var (d1, key) := LoadOrGenerate(w, d, paths[0]);
      if key.None? then (d1, None)
      else
        var (d2, keys) := LoadAll(w, d1, paths[1..]);
        (d2, if keys.None? then None else Some([key.value] + keys.value))
  }

  /** LoadOrGenerateKeys */
  function LoadKeys(w: World, d: Disk, paths: seq<string>): (Disk, Option<seq<Key>>) {
    var (d1, keys) := LoadAll(w, d, paths);
    if keys == Some([]) then
      (d1.(drawn := d1.drawn + 1), match w.draw("", d1.drawn) case Some(key) => Some([key]) case None => None)
    else (d1, keys)
  }

  function NonEmpty(paths: seq<string>): seq<string> {
    if paths == [] then [] else (if paths[0] == "" then [] else [paths[0]]) + NonEmpty(paths[1..])
  }

  /** Every file of a is in b, unchanged. */
  ghost predicate Extends(a: map<string, string>, b: map<string, string>) {
    forall p :: p in a ==> p in b && b[p] == a[p]
  }

  lemma {:induction false} LoadAllExtends(w: World, d: Disk, paths: seq<string>)
    ensures Extends(d.files, LoadAll(w, d, paths).0.files)
    decreases |paths|
  {
    if paths != [] {
      if paths[0] == "" {
        LoadAllExtends(w, d, paths[1..]);
      } else {
        LoadAllExtends(w, LoadOrGenerate(w, d, paths[0]).0, paths[1..]);
      }
    }
  }

  /** No call ever changes a file that exists. */
  lemma ExistingFilesStay(w: World, d: Disk, paths: seq<string>)
    ensures Extends(d.files, LoadKeys(w, d, paths).0.files)
  {
    LoadAllExtends(w, d, paths);
  }

  /** The file of this path holds this key. */
  predicate Stored(w: World, files: map<string, string>, path: string, key: Key) {
    path in files && w.parse(files[path]) == Some(key)
  }

  lemma LoadOrGenerateStores(w: World, d: Disk, path: string)
    requires Faithful(w)
    ensures var (d', key) := LoadOrGenerate(w, d, path); key.Some? ==> Stored(w, d'.files, path, key.value)
  {
  }

  lemma {:induction false} LoadAllStores(w: World, d: Disk, paths: seq<string>)
    requires Faithful(w)
    ensures var (d', keys) := LoadAll(w, d, paths);
            keys.Some? ==>
              && |keys.value| == |NonEmpty(paths)|
              && forall i :: 0 <= i < |keys.value| ==> Stored(w, d'.files, NonEmpty(paths)[i], keys.value[i])
    decreases |paths|
  {
    if paths != [] {
      if paths[0] == "" {
        LoadAllStores(w, d, paths[1..]);
        assert NonEmpty(paths) == NonEmpty(paths[1..]);
      } else {
        var (d1, key) := LoadOrGenerate(w, d, paths[0]);
        LoadOrGenerateStores(w, d, paths[0]);
        LoadAllStores(w, d1, paths[1..]);
        LoadAllExtends(w, d1, paths[1..]);
        var (d2, keys) := LoadAll(w, d1, paths[1..]);
        if key.Some? && keys.Some? {
          forall i | 0 <= i <= |keys.value|
            ensures Stored(w, d2.files, NonEmpty(paths)[i], ([key.value] + keys.value)[i])
          {
            if i > 0 {
              assert Stored(w, d2.files, NonEmpty(paths[1..])[i - 1], keys.value[i - 1]);
            }
          }
        }
      }
    }
  }

  /**
    A successful call returns one signer for each path that is not empty, in order, and each is the key its
    file now holds, so that repeated paths get equal signers; without such a path it returns exactly one.
   */
  lemma SignersAreStored(w: World, d: Disk, paths: seq<string>)
    requires Faithful(w) && LoadKeys(w, d, paths).1.Some?
    ensures var (d', keys) := LoadKeys(w, d, paths);
            if NonEmpty(paths) == [] then |keys.value| == 1 && d'.files == d.files
            else
              && |keys.value| == |NonEmpty(paths)|
              && (forall i :: 0 <= i < |keys.value| ==> Stored(w, d'.files, NonEmpty(paths)[i], keys.value[i]))
              && (forall i, j ::
                    0 <= i < |keys.value| && 0 <= j < |keys.value| && NonEmpty(paths)[i] == NonEmpty(paths)[j] ==>
                    keys.value[i] == keys.value[j])
  {
    LoadAllStores(w, d, paths);
    if NonEmpty(paths) == [] {
      AllEmpty(w, d, paths);
    }
  }

  lemma {:induction false} AllEmpty(w: World, d: Disk, paths: seq<string>)
    requires NonEmpty(paths) == []
    ensures LoadAll(w, d, paths) == (d, Some([]))
    decreases |paths|
  {
    if paths != [] {
      AllEmpty(w, d, paths[1..]);
    }
  }

  /** When every path's file holds a key, loading returns those keys and writes nothing. */
  lemma {:induction false} LoadStored(w: World, d: Disk, paths: seq<string>, keys: seq<Key>)
    requires |keys| == |NonEmpty(paths)|
    requires forall i :: 0 <= i < |keys| ==> Stored(w, d.files, NonEmpty(paths)[i], keys[i])
    requires forall p :: p in NonEmpty(paths) ==> !w.unreadable(p)
    ensures LoadAll(w, d, paths) == (d, Some(keys))
    decreases |paths|
  {
    if paths != [] {
      if paths[0] == "" {
        assert NonEmpty(paths) == NonEmpty(paths[1..]);
        LoadStored(w, d, paths[1..], keys);
      } else {
        assert NonEmpty(paths)[0] == paths[0] && NonEmpty(paths)[1..] == NonEmpty(paths[1..]);
        assert Stored(w, d.files, NonEmpty(paths)[0], keys[0]);
        forall i | 0 <= i < |keys| - 1
          ensures Stored(w, d.files, NonEmpty(paths[1..])[i], keys[1..][i])
        {
          assert Stored(w, d.files, NonEmpty(paths)[i + 1], keys[i + 1]);
        }
        LoadStored(w, d, paths[1..], keys[1..]);
        assert [keys[0]] + keys[1..] == keys;
      }
    }
  }

  /** Another world that reads keys the same way and can read these files. */
  ghost predicate CanRead(w: World, later: World, paths: seq<string>) {
    later.parse == w.parse && forall p :: p in NonEmpty(paths) ==> !later.unreadable(p)
  }

  /** A second call returns the same signers and writes nothing, whatever generation would yield by then. */
  lemma SecondCallIsTheSame(w: World, later: World, d: Disk, paths: seq<string>)
    requires Faithful(w) && CanRead(w, later, paths) && NonEmpty(paths) != []
    requires LoadKeys(w, d, paths).1.Some?
    ensures var (d', keys) := LoadKeys(w, d, paths);
            LoadKeys(later, d', paths) == (d', keys)
  {
    SignersAreStored(w, d, paths);
    var (d', keys) := LoadKeys(w, d, paths);
    LoadAllStores(w, d, paths);
    forall i | 0 <= i < |keys.value|
      ensures Stored(later, d'.files, NonEmpty(paths)[i], keys.value[i])
    {
      assert Stored(w, d'.files, NonEmpty(paths)[i], keys.value[i]);
    }
    LoadStored(later, d', paths, keys.value);
  }

  lemma {:induction false} LoadAllSplit(w: World, d: Disk, a: seq<string>, b: seq<string>)
    requires LoadAll(w, d, a).1.Some?
    ensures LoadAll(w, d, a + b) == Onto(LoadAll(w, d, a).1.value, LoadAll(w, LoadAll(w, d, a).0, b))
    decreases |a|
  {
    if a == [] {
      assert a + b == b;
      OntoNothing(LoadAll(w, d, b));
    } else {
      assert (a + b)[1..] == a[1..] + b;
      if a[0] == "" {
        LoadAllSplit(w, d, a[1..], b);
      } else {
        var d1 := LoadOrGenerate(w, d, a[0]).0;
        LoadAllSplit(w, d1, a[1..], b);
        var rest := LoadAll(w, LoadAll(w, d1, a[1..]).0, b).1;
        var key, keys := LoadOrGenerate(w, d, a[0]).1.value, LoadAll(w, d1, a[1..]).1.value;
        if rest.Some? {
          assert [key] + (keys + rest.value) == [key] + keys + rest.value;
        }
      }
    }
  }

  /**
    After a call that got through the paths `done` and then failed (or not), a retry over the whole list
    finds the keys of `done` as they were: it writes nothing for them, goes on from there, and if it
    succeeds, its signers begin with them.
   */
  lemma RetryReusesKeys(w: World, later: World, d: Disk, done: seq<string>, rest: seq<string>)
    requires Faithful(w) && CanRead(w, later, done) && LoadAll(w, d, done).1.Some?
    ensures var d' := LoadAll(w, d, done + rest).0;
            var keys := LoadAll(w, d, done).1.value;
            var retry := LoadKeys(later, d', done + rest);
            && LoadAll(later, d', done) == (d', Some(keys))
            && LoadAll(later, d', done + rest) == Onto(keys, LoadAll(later, d', rest))
            && (retry.1.Some? ==> keys <= retry.1.value)
  {
    LoadAllSplit(w, d, done, rest);
    LoadAllStores(w, d, done);
    var (d1, keys) := LoadAll(w, d, done);
    LoadAllExtends(w, d1, rest);
    var d' := LoadAll(w, d, done + rest).0;
    forall i | 0 <= i < |keys.value|
      ensures Stored(later, d'.files, NonEmpty(done)[i], keys.value[i])
    {
      assert Stored(w, d1.files, NonEmpty(done)[i], keys.value[i]);
    }
    LoadStored(later, d', done, keys.value);
    LoadAllSplit(later, d', done, rest);
  }

  /** The result of a loop that has `keys` already and comes to `rest` for what is left. */
  function Onto(keys: seq<Key>, rest: (Disk, Option<seq<Key>>)): (Disk, Option<seq<Key>>) {
    (rest.0, if rest.1.None? then None else Some(keys + rest.1.value))
  }

  lemma OntoNothing(rest: (Disk, Option<seq<Key>>))
    ensures Onto([], rest) == rest
  {
    if rest.1.Some? {
      assert [] + rest.1.value == rest.1.value;
    }
  }

  /** One round of the loop, for a path that is not empty and yields a key. */
  lemma OntoStep(w: World, d: Disk, paths: seq<string>, keys: seq<Key>)
    requires paths != [] && paths[0] != "" && LoadOrGenerate(w, d, paths[0]).1.Some?
    ensures var (d1, key) := LoadOrGenerate(w, d, paths[0]);
            Onto(keys, LoadAll(w, d, paths)) == Onto(keys + [key.value], LoadAll(w, d1, paths[1..]))
  {
    var (d1, key) := LoadOrGenerate(w, d, paths[0]);
    var rest := LoadAll(w, d1, paths[1..]).1;
    if rest.Some? {
      assert keys + ([key.value] + rest.value) == keys + [key.value] + rest.value;
    }
  }

  // ------------------------------------------------------------------- exactly when it succeeds, and what it writes

  /** One path on its own: read if the file is there, otherwise generated and saved, and how each step may fail. */
  lemma OnePath(w: World, d: Disk, path: string)
    requires path != ""
    ensures w.unreadable(path) ==> LoadAll(w, d, [path]) == (d, None)
    ensures !w.unreadable(path) && path in d.files ==>
              LoadAll(w, d, [path]) ==
              (d, match w.parse(d.files[path]) case Some(key) => Some([key]) case None => None)
    ensures !w.unreadable(path) && path !in d.files ==>
              var (d', keys) := LoadAll(w, d, [path]);
              && d'.drawn == d.drawn + 1
              && (keys.Some? <==> w.draw(path, d.drawn).Some? && !w.noDirectory(path) && w.badWrite(path).None?)
              && (keys.Some? ==>
                    && keys == Some([w.draw(path, d.drawn).value])
                    && d'.files == d.files[path := w.marshal(w.draw(path, d.drawn).value)])
              && (keys.None? ==>
                    if w.draw(path, d.drawn).Some? && !w.noDirectory(path) && w.badWrite(path).value.Some?
                    then d'.files == d.files[path := w.badWrite(path).value.value]
                    else d'.files == d.files)
  {
    assert [path][1..] == [];
    var key := LoadOrGenerate(w, d, path).1;
    if key.Some? {
      assert [key.value] + [] == [key.value];
    }
  }

  lemma {:induction false} FailureEnds(w: World, d: Disk, a: seq<string>, b: seq<string>)
    requires LoadAll(w, d, a).1.None?
    ensures LoadAll(w, d, a + b) == LoadAll(w, d, a)
    decreases |a|
  {
    assert (a + b)[1..] == a[1..] + b;
    if a[0] == "" {
      FailureEnds(w, d, a[1..], b);
    } else {
      var (d1, key) := LoadOrGenerate(w, d, a[0]);
      if key.Some? {
        FailureEnds(w, d1, a[1..], b);
      }
    }
  }

  lemma {:induction false} EmptyPathsSkipped(w: World, d: Disk, paths: seq<string>)
    ensures LoadAll(w, d, paths) == LoadAll(w, d, NonEmpty(paths)) && "" !in NonEmpty(paths)
    decreases |paths|
  {
    if paths != [] {
      if paths[0] == "" {
        EmptyPathsSkipped(w, d, paths[1..]);
        assert NonEmpty(paths) == NonEmpty(paths[1..]);
      } else {
        EmptyPathsSkipped(w, LoadOrGenerate(w, d, paths[0]).0, paths[1..]);
        EmptyPathsSkipped(w, d, paths[1..]);
        assert NonEmpty(paths)[1..] == NonEmpty(paths[1..]);
      }
    }
  }

  /** How many of the names are neither among the files nor repetitions. */
  function Fresh(files: map<string, string>, names: seq<string>): nat {
    if names == [] then 0
    else
      var front, last := names[..|names| - 1], names[|names| - 1];
      Fresh(files, front) + if last !in files && last !in front then 1 else 0
  }

  /** What is generated for a name that comes after the names `before`. */
  function DrawnFor(w: World, d: Disk, before: seq<string>, name: string): Option<Key> {
    w.draw(name, d.drawn + Fresh(d.files, before))
  }

  /** The name can be read, and its file parses, or it repeats a new one, or a key can be made and saved. */
  predicate NameWorks(w: World, d: Disk, before: seq<string>, name: string) {
    && !w.unreadable(name)
    && (name in d.files ==> w.parse(d.files[name]).Some?)
    && (name !in d.files && name !in before ==>
          DrawnFor(w, d, before, name).Some? && !w.noDirectory(name) && w.badWrite(name).None?)
  }

  ghost predicate AllWork(w: World, d: Disk, names: seq<string>) {
    forall i :: 0 <= i < |names| ==> NameWorks(w, d, names[..i], names[i])
  }

  /** The file of this name, if it is new, holds the key generated for it. */
  predicate Holds(w: World, d: Disk, before: seq<string>, name: string, files: map<string, string>) {
    name !in d.files && name !in before ==>
      && DrawnFor(w, d, before, name).Some? && name in files
      && files[name] == w.marshal(DrawnFor(w, d, before, name).value)
  }

  ghost predicate AllHold(w: World, d: Disk, names: seq<string>, files: map<string, string>) {
    forall i :: 0 <= i < |names| ==> Holds(w, d, names[..i], names[i], files)
  }

  /** Every name has a file now; those that had none hold what was generated for them, and no other file changed. */
  ghost predicate Saved(w: World, d: Disk, names: seq<string>, d': Disk) {
    Added(d, names, d') && AllHold(w, d, names, d'.files)
  }

  ghost predicate Added(d: Disk, names: seq<string>, d': Disk) {
    && d'.drawn == d.drawn + Fresh(d.files, names)
    && (forall p :: p in d'.files <==> p in d.files || p in names)
    && Extends(d.files, d'.files)
  }

  lemma OneMoreWorks(w: World, d: Disk, front: seq<string>, last: string)
    ensures AllWork(w, d, front + [last]) <==> AllWork(w, d, front) && NameWorks(w, d, front, last)
  {
    var names := front + [last];
    assert names[|front|] == last && names[..|front|] == front;
    assert forall i :: 0 <= i < |front| ==> names[i] == front[i] && names[..i] == front[..i];
  }

  lemma OneMoreHolds(w: World, d: Disk, front: seq<string>, last: string, files: map<string, string>)
    ensures AllHold(w, d, front + [last], files) <==> AllHold(w, d, front, files) && Holds(w, d, front, last, files)
  {
    var names := front + [last];
    assert names[|front|] == last && names[..|front|] == front;
    assert forall i :: 0 <= i < |front| ==> names[i] == front[i] && names[..i] == front[..i];
  }

  lemma FreshLast(files: map<string, string>, front: seq<string>, last: string)
    ensures Fresh(files, front + [last]) == Fresh(files, front) + if last !in files && last !in front then 1 else 0
  {
    assert (front + [last])[..|front|] == front;
  }

  /** In a world that reads what it writes, the loop succeeds if and only if every name works; then it is saved. */
  lemma {:induction false} LoadsIffAllWork(w: World, d: Disk, names: seq<string>)
    requires Faithful(w) && "" !in names
    ensures LoadAll(w, d, names).1.Some? <==> AllWork(w, d, names)
    ensures LoadAll(w, d, names).1.Some? ==> Saved(w, d, names, LoadAll(w, d, names).0)
    decreases |names|
  {
    if names != [] {
      var front, last := names[..|names| - 1], names[|names| - 1];
      assert names == front + [last] && forall n :: n in front ==> n in names;
      assert last in names;
      LoadsIffAllWork(w, d, front);
      OneMoreWorks(w, d, front, last);
      if LoadAll(w, d, front).1.Some? {
        var d1 := LoadAll(w, d, front).0;
        LoadAllSplit(w, d, front, [last]);
        LastOnDisk(w, d, front, last, d1);
        LastWorks(w, d, front, last, d1);
        if LoadAll(w, d1, [last]).1.Some? {
          LastSaved(w, d, front, last, d1);
        }
      } else {
        FailureEnds(w, d, front, [last]);
      }
    }
  }

  /** What front has left on the disk for one more name. */
  lemma LastOnDisk(w: World, d: Disk, front: seq<string>, last: string, d1: Disk)
    requires Faithful(w) && Saved(w, d, front, d1)
    ensures last in d1.files <==> last in d.files || last in front
    ensures last in d.files ==> d1.files[last] == d.files[last]
    ensures last !in d.files && last in front ==> w.parse(d1.files[last]).Some?
  {
    if last in front && last !in d.files {
      var i := FirstIndex(front, last);
      assert Holds(w, d, front[..i], front[i], d1.files);
    }
  }

  lemma OnePathWorksIff(w: World, d: Disk, path: string)
    requires path != ""
    ensures LoadAll(w, d, [path]).1.Some? <==>
            && !w.unreadable(path)
            && (if path in d.files then w.parse(d.files[path]).Some?
                else w.draw(path, d.drawn).Some? && !w.noDirectory(path) && w.badWrite(path).None?)
  {
    OnePath(w, d, path);
  }

  lemma LastWorks(w: World, d: Disk, front: seq<string>, last: string, d1: Disk)
    requires last != "" && d1.drawn == d.drawn + Fresh(d.files, front)
    requires last in d1.files <==> last in d.files || last in front
    requires last in d.files ==> d1.files[last] == d.files[last]
    requires last !in d.files && last in front ==> w.parse(d1.files[last]).Some?
    ensures LoadAll(w, d1, [last]).1.Some? <==> NameWorks(w, d, front, last)
  {
    OnePathWorksIff(w, d1, last);
  }

  /** The disk after one more path that worked. */
  lemma DiskAfterOne(w: World, d: Disk, path: string)
    requires path != "" && LoadAll(w, d, [path]).1.Some?
    ensures var d' := LoadAll(w, d, [path]).0;
            if path in d.files then d' == d
            else
              && w.draw(path, d.drawn).Some?
              && d' == Disk(d.files[path := w.marshal(w.draw(path, d.drawn).value)], d.drawn + 1)
  {
    OnePath(w, d, path);
  }

  lemma LastAdded(w: World, d: Disk, front: seq<string>, last: string, d1: Disk)
    requires last != "" && Added(d, front, d1) && LoadAll(w, d1, [last]).1.Some?
    ensures Added(d, front + [last], LoadAll(w, d1, [last]).0) && Extends(d1.files, LoadAll(w, d1, [last]).0.files)
    ensures Holds(w, d, front, last, LoadAll(w, d1, [last]).0.files)
  {
    DiskAfterOne(w, d1, last);
    FreshLast(d.files, front, last);
  }

  lemma LastSaved(w: World, d: Disk, front: seq<string>, last: string, d1: Disk)
    requires last != "" && Added(d, front, d1) && LoadAll(w, d1, [last]).1.Some?
    requires AllHold(w, d, front, d1.files)
    ensures Saved(w, d, front + [last], LoadAll(w, d1, [last]).0)
  {
    var d2 := LoadAll(w, d1, [last]).0;
    LastAdded(w, d, front, last, d1);
    StillHolds(w, d, front, d1.files, d2.files);
    OneMoreHolds(w, d, front, last, d2.files);
  }

  lemma StillHolds(w: World, d: Disk, names: seq<string>, files: map<string, string>, later: map<string, string>)
    requires AllHold(w, d, names, files) && Extends(files, later)
    ensures AllHold(w, d, names, later)
  {
  }

  lemma {:induction false} FirstIndex(names: seq<string>, name: string) returns (i: nat)
    requires name in names
    ensures i < |names| && names[i] == name && name !in names[..i]
  {
    var front, last := names[..|names| - 1], names[|names| - 1];
    assert names == front + [last];
    if name in front {
      i := FirstIndex(front, name);
      assert names[..i] == front[..i];
    } else {
      i := |names| - 1;
    }
  }

  /**
    LoadOrGenerateKeys succeeds if and only if every non-empty path works, or, if there is none, an ephemeral
    key can be generated; then the files are as they were but for the new ones, and the signers are the keys
    that the files hold.
   */
  lemma LoadKeysSucceedsIff(w: World, d: Disk, paths: seq<string>)
    requires Faithful(w)
    ensures var names := NonEmpty(paths);
            var (d', keys) := LoadKeys(w, d, paths);
            if names == []
            then d' == d.(drawn := d.drawn + 1) &&
                 keys == match w.draw("", d.drawn) case Some(key) => Some([key]) case None => None
            else
              && (keys.Some? <==> AllWork(w, d, names))
              && (keys.Some? ==>
                    && Saved(w, d, names, d') && |keys.value| == |names|
                    && forall i :: 0 <= i < |names| ==>
                         names[i] in d'.files && w.parse(d'.files[names[i]]) == Some(keys.value[i]))
  {
    var names := NonEmpty(paths);
    EmptyPathsSkipped(w, d, paths);
    LoadsIffAllWork(w, d, names);
    LoadAllStores(w, d, paths);
    if LoadKeys(w, d, paths).1.Some? && names != [] {
      SignersAreStored(w, d, paths);
      var (d', keys) := LoadKeys(w, d, paths);
      forall i | 0 <= i < |names|
        ensures names[i] in d'.files && w.parse(d'.files[names[i]]) == Some(keys.value[i])
      {
        assert Stored(w, d'.files, names[i], keys.value[i]);
      }
    }
  }

  class HostKeyManager {
    const paths: seq<string>
    var disk: Disk

    constructor (paths: seq<string>, disk: Disk)
      ensures this.paths == paths && this.disk == disk
    {
      this.paths, this.disk := paths, disk;
    }

    method LoadOrGenerateKeys(w: World) returns (signers: Option<seq<Key>>)
      modifies this`disk
      ensures (disk, signers) == LoadKeys(w, old(disk), paths)
      ensures Extends(old(disk).files, disk.files)
      ensures Faithful(w) && signers.Some? && NonEmpty(paths) != [] ==> |signers.value| == |NonEmpty(paths)|
    {
      ExistingFilesStay(w, disk, paths);
      if Faithful(w) && LoadKeys(w, disk, paths).1.Some? {
        SignersAreStored(w, disk, paths);
      }
      var keys := [];
      assert paths[0..] == paths;
      OntoNothing(LoadAll(w, disk, paths));
      for i := 0 to |paths|
        invariant Onto(keys, LoadAll(w, disk, paths[i..])) == LoadAll(w, old(disk), paths)
      {
        assert paths[i..][1..] == paths[i + 1..];
        if paths[i] == "" {
          continue;
        }
        var (d, key) := LoadOrGenerate(w, disk, paths[i]);
        if key.Some? { OntoStep(w, disk, paths[i..], keys); }
        disk := d;
        if key.None? {
          return None;
        }
        keys := keys + [key.value];
      }
      assert paths[|paths|..] == [] && keys + [] == keys;
      assert LoadAll(w, old(disk), paths) == (disk, Some(keys));
      if |keys| == 0 {
        var key := w.draw("", disk.drawn);
        disk := disk.(drawn := disk.drawn + 1);
        if key.None? {
          return None;
        }
        keys := [key.value];
      }
      signers := Some(keys);
    }
  }
}
