/** filepath.Clean and filepath.Join on Unix, by their documented rules, and containment under a root. */
module Paths {
  import opened Text

  /** One path element, given the elements kept so far. */
  function Push(rooted: bool, kept: seq<string>, element: string): seq<string> {
    if element == "" || element == "." then kept
    else if element != ".." then kept + [element]
    else if kept != [] && kept[|kept| - 1] != ".." then kept[..|kept| - 1]
    else if rooted then kept
    else kept + [element]
  }

  function PushAll(rooted: bool, kept: seq<string>, elements: seq<string>): seq<string>
    decreases |elements|
  {
    if elements == [] then kept else PushAll(rooted, Push(rooted, kept, elements[0]), elements[1..])
  }

  predicate IsAbs(path: string) {
    path != "" && path[0] == '/'
  }

  /** filepath.Clean */
  function Clean(path: string): string {
    var elements := PushAll(IsAbs(path), [], Split(path, '/'));
    if IsAbs(path) then Abs(elements) else if elements == [] then "." else Join(elements, '/')
  }

  /** filepath.Join(a, b) */
  function JoinPath(a: string, b: string): string {
    if a != "" then Clean(a + "/" + b) else if b != "" then Clean(b) else ""
  }

  /** An element that Clean keeps as it is: a name. */
  predicate IsName(element: string) {
    element != "" && element != "." && element != ".." && '/' !in element
  }

  predicate Names(elements: seq<string>) {
    forall e :: e in elements ==> IsName(e)
  }

  /** The absolute path with these elements. */
  function Abs(elements: seq<string>): string {
    "/" + Join(elements, '/')
  }

  /** The elements of a clean absolute path. */
  function Elements(path: string): seq<string> {
    PushAll(true, [], Split(path, '/'))
  }

  lemma {:induction false} PushAllAppend(rooted: bool, kept: seq<string>, a: seq<string>, b: seq<string>)
    ensures PushAll(rooted, kept, a + b) == PushAll(rooted, PushAll(rooted, kept, a), b)
    decreases |a|
  {
    if a == [] {
      assert a + b == b;
    } else {
      assert (a + b)[1..] == a[1..] + b;
      PushAllAppend(rooted, Push(rooted, kept, a[0]), a[1..], b);
    }
  }

  /** ".." takes away the name before it, goes nowhere at the root, and stays where there is nothing to take away. */
  lemma UpElement(rooted: bool, kept: seq<string>, name: string, rest: seq<string>)
    requires IsName(name)
    ensures PushAll(rooted, kept, [name, ".."] + rest) == PushAll(rooted, kept, rest)
    ensures PushAll(true, [], [".."] + rest) == PushAll(true, [], rest)
    ensures PushAll(false, [], [".."] + rest) == PushAll(false, [".."], rest)
  {
    assert ([name, ".."] + rest)[1..] == [".."] + rest;
    assert ([".."] + rest)[1..] == rest;
    assert (kept + [name])[..|kept|] == kept;
    assert [] + [".."] == [".."];
  }

  /** From the root, what is kept is names only. */
  lemma {:induction false} PushAllNames(kept: seq<string>, elements: seq<string>)
    requires Names(kept) && forall e :: e in elements ==> '/' !in e
    ensures Names(PushAll(true, kept, elements))
    decreases |elements|
  {
    if elements != [] {
      PushAllNames(Push(true, kept, elements[0]), elements[1..]);
    }
  }

  /** The elements that are neither empty nor ".". */
  function Proper(elements: seq<string>): seq<string> {
    if elements == [] then []
    else if elements[0] == "" || elements[0] == "." then Proper(elements[1..])
    else [elements[0]] + Proper(elements[1..])
  }

  /** Without "..", Clean only drops empty elements and ".". */
  lemma {:induction false} PushAllWithoutUp(rooted: bool, kept: seq<string>, elements: seq<string>)
    requires ".." !in elements
    ensures PushAll(rooted, kept, elements) == kept + Proper(elements)
    decreases |elements|
  {
    if elements != [] {
      PushAllWithoutUp(rooted, Push(rooted, kept, elements[0]), elements[1..]);
    }
  }

  lemma {:induction false} ProperNames(elements: seq<string>)
    requires Names(elements)
    ensures Proper(elements) == elements
  {
    if elements != [] {
      assert IsName(elements[0]);
      ProperNames(elements[1..]);
      assert [elements[0]] + elements[1..] == elements;
    }
  }

  lemma SplitAbs(elements: seq<string>)
    requires Names(elements)
    ensures Split(Abs(elements), '/') == [""] + (if elements == [] then [""] else elements)
  {
    SplitAppend("", Join(elements, '/'), '/');
    assert "" + ['/'] + Join(elements, '/') == Abs(elements);
    if elements != [] {
      SplitJoin(elements, '/');
    }
  }

  /** The parts of a clean absolute path: its elements, and nothing that goes up. */
  lemma PartsOfAbs(elements: seq<string>)
    requires Names(elements)
    ensures ".." !in Split(Abs(elements), '/') && Proper(Split(Abs(elements), '/')) == elements
  {
    SplitAbs(elements);
    var parts := Split(Abs(elements), '/');
    if elements == [] {
      assert parts[1..] == [""] && parts[1..][1..] == [];
      assert Proper(parts) == Proper(parts[1..]) == Proper(parts[1..][1..]);
    } else {
      assert parts[1..] == elements;
      ProperNames(elements);
    }
  }

  /** Elements reads back what Abs wrote. */
  lemma ElementsOfAbs(elements: seq<string>)
    requires Names(elements)
    ensures Elements(Abs(elements)) == elements
  {
    PartsOfAbs(elements);
    PushAllWithoutUp(true, [], Split(Abs(elements), '/'));
  }

  /** Clean makes an absolute path the rendering of a list of names, and leaves such a path alone. */
  lemma CleanAbs(path: string)
    requires IsAbs(path)
    ensures Clean(path) == Abs(Elements(path)) && Names(Elements(path))
    ensures Clean(Clean(path)) == Clean(path)
  {
    forall e | e in Split(path, '/')
      ensures '/' !in e
    {
      PartsWithoutSeparator(path, '/', e);
    }
    PushAllNames([], Split(path, '/'));
    ElementsOfAbs(Elements(path));
  }

  /** The test of resolvePath: equal to root, or starts with root and a separator. */
  predicate WithinText(root: string, path: string) {
    path == root || root + "/" <= path
  }

  /** For a clean absolute root other than "/", the string test is containment of element lists. */
  lemma WithinTextIffPrefix(root: seq<string>, path: seq<string>)
    requires Names(root) && Names(path) && root != []
    ensures WithinText(Abs(root), Abs(path)) <==> root <= path
  {
    if root <= path {
      var rest := path[|root|..];
      assert path == root + rest;
      if rest != [] {
        JoinAppend(root, rest, '/');
        assert Abs(path) == Abs(root) + "/" + Join(rest, '/');
      } else {
        assert path == root;
      }
    }
    SplitAbs(root);
    SplitAbs(path);
    if Abs(path) == Abs(root) {
      ElementsOfAbs(root);
      ElementsOfAbs(path);
    } else if Abs(root) + "/" <= Abs(path) {
      var rest := Abs(path)[|Abs(root)| + 1..];
      assert Abs(path) == Abs(root) + ['/'] + rest;
      SplitAppend(Abs(root), rest, '/');
      assert [""] + root + Split(rest, '/') == Split(Abs(path), '/');
      var parts := [""] + root + Split(rest, '/');
      assert parts[1] == root[0] && IsName(root[0]);
      assert path != [] && ([""] + path)[1..] == path;
      assert parts[1..] == root + Split(rest, '/');
    }
  }

  /** Clean(Join(root, request)), as resolvePath computes it. */
  function Resolved(root: string, request: string): string {
    Clean(JoinPath(root, request))
  }

  lemma ResolvedElements(root: seq<string>, request: string)
    requires Names(root)
    ensures Resolved(Abs(root), request) == Abs(PushAll(true, root, Split(request, '/')))
    ensures Names(PushAll(true, root, Split(request, '/')))
  {
    var path := Abs(root) + "/" + request;
    CleanAbs(path);
    assert Resolved(Abs(root), request) == Clean(path);
    SplitAppend(Abs(root), request, '/');
    assert path == Abs(root) + ['/'] + request;
    PushAllAppend(true, [], Split(Abs(root), '/'), Split(request, '/'));
    ElementsOfAbs(root);
  }

  /** A request without ".." resolves to root's elements followed by its own, and never leaves root. */
  lemma RequestWithoutUp(root: seq<string>, request: string)
    requires Names(root) && !Contains(request, "..")
    ensures Resolved(Abs(root), request) == Abs(root + Proper(Split(request, '/')))
    ensures Names(root + Proper(Split(request, '/')))
    ensures root != [] ==> WithinText(Abs(root), Resolved(Abs(root), request))
  {
    if ".." in Split(request, '/') {
      PartOccurs(request, '/', "..");
    }
    PushAllWithoutUp(true, root, Split(request, '/'));
    ResolvedElements(root, request);
    if root != [] {
      WithinTextIffPrefix(root, root + Proper(Split(request, '/')));
    }
  }
}
