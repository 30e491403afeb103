/** The parts of Go's strings package that the other modules use, with a one-character separator. */
module Text {

  /** strings.Split(s, sep) */
  function Split(s: string, sep: char): (parts: seq<string>)
    ensures |parts| >= 1
  {
    if s == "" then [""]
    else
      var rest := Split(s[1..], sep);
      if s[0] == sep then [""] + rest else [[s[0]] + rest[0]] + rest[1..]
  }

  /** strings.Join(parts, sep) */
  function Join(parts: seq<string>, sep: char): string {
    if parts == [] then ""
    else if |parts| == 1 then parts[0]
    else parts[0] + [sep] + Join(parts[1..], sep)
  }

  /** strings.Contains(s, sub) */
  predicate Contains(s: string, sub: string) {
    exists i | 0 <= i <= |s| :: sub <= s[i..]
  }

  /** unicode.IsSpace */
  predicate IsSpace(c: char) {
    || '\t' <= c <= '\r' || c == ' ' || c == '\U{85}' || c == '\U{A0}' || c == '\U{1680}'
    || '\U{2000}' <= c <= '\U{200A}' || c == '\U{2028}' || c == '\U{2029}' || c == '\U{202F}'
    || c == '\U{205F}' || c == '\U{3000}'
  }

  /** These are the 25 characters with the property White_Space. */
  lemma SpaceIs(c: char)
    ensures IsSpace(c) <==>
            c as int in [0x9, 0xA, 0xB, 0xC, 0xD, 0x20, 0x85, 0xA0, 0x1680, 0x2000, 0x2001, 0x2002, 0x2003, 0x2004,
                         0x2005, 0x2006, 0x2007, 0x2008, 0x2009, 0x200A, 0x2028, 0x2029, 0x202F, 0x205F, 0x3000]
  {
  }

  function TrimLeft(s: string): string {
    if s != "" && IsSpace(s[0]) then TrimLeft(s[1..]) else s
  }

  function TrimRight(s: string): string {
    if s != "" && IsSpace(s[|s| - 1]) then TrimRight(s[..|s| - 1]) else s
  }

  /** strings.TrimSpace */
  function TrimSpace(s: string): string {
    TrimRight(TrimLeft(s))
  }

  /** There is nothing for TrimSpace to remove. */
  predicate IsTrimmed(s: string) {
    s == "" || (!IsSpace(s[0]) && !IsSpace(s[|s| - 1]))
  }

  /** The first of strings.Fields(s), for a string that does not start with a space. */
  function FirstField(s: string): string {
    if s == "" || IsSpace(s[0]) then "" else [s[0]] + FirstField(s[1..])
  }

  /** strings.Index(s, c), or the length of s */
  function IndexOf(s: string, c: char): (i: nat)
    ensures i <= |s| && c !in s[..i] && (i < |s| ==> s[i] == c)
  {
    if s == "" || s[0] == c then 0 else 1 + IndexOf(s[1..], c)
  }

  /** strings.ToLower, for the letters A to Z */
  function ToLower(s: string): string {
    seq(|s|, i requires 0 <= i < |s| => if 'A' <= s[i] <= 'Z' then s[i] + 32 as char else s[i])
  }

  /** strings.ToUpper, for the letters a to z */
  function ToUpper(s: string): string {
    seq(|s|, i requires 0 <= i < |s| => if 'a' <= s[i] <= 'z' then s[i] - 32 as char else s[i])
  }

  lemma {:induction false} JoinSplit(s: string, sep: char)
    ensures Join(Split(s, sep), sep) == s
  {
    if s != "" {
      JoinSplit(s[1..], sep);
      var rest := Split(s[1..], sep);
      var parts := Split(s, sep);
      if s[0] == sep {
        assert parts[1..] == rest;
      } else if |rest| > 1 {
        assert parts[1..] == rest[1..];
      }
    }
  }

  lemma {:induction false} SplitWithout(s: string, sep: char)
    requires sep !in s
    ensures Split(s, sep) == [s]
  {
    if s != "" {
      SplitWithout(s[1..], sep);
      assert [s[0]] + s[1..] == s;
    }
  }

  /** Prepending one character to a string, seen in its parts. */
  function Prepend(c: char, parts: seq<string>, sep: char): (r: seq<string>)
    requires parts != []
    ensures r != []
  {
    if c == sep then [""] + parts else [[c] + parts[0]] + parts[1..]
  }

  lemma SplitPrepend(c: char, s: string, sep: char)
    ensures Split([c] + s, sep) == Prepend(c, Split(s, sep), sep)
  {
    assert ([c] + s)[1..] == s;
  }

  lemma PrependAppend(c: char, head: seq<string>, tail: seq<string>, sep: char)
    requires head != []
    ensures Prepend(c, head + tail, sep) == Prepend(c, head, sep) + tail
  {
    assert (head + tail)[1..] == head[1..] + tail;
  }

  lemma {:induction false} SplitAppend(x: string, y: string, sep: char)
    ensures Split(x + [sep] + y, sep) == Split(x, sep) + Split(y, sep)
  {
    if x == "" {
      assert x + [sep] + y == [sep] + y;
      SplitPrepend(sep, y, sep);
    } else {
      SplitAppend(x[1..], y, sep);
      assert x + [sep] + y == [x[0]] + (x[1..] + [sep] + y);
      SplitPrepend(x[0], x[1..] + [sep] + y, sep);
      assert x == [x[0]] + x[1..];
      SplitPrepend(x[0], x[1..], sep);
      PrependAppend(x[0], Split(x[1..], sep), Split(y, sep), sep);
    }
  }

  lemma {:induction false} SplitJoin(parts: seq<string>, sep: char)
    requires parts != [] && forall p :: p in parts ==> sep !in p
    ensures Split(Join(parts, sep), sep) == parts
  {
    SplitWithout(parts[0], sep);
    if |parts| > 1 {
      SplitJoin(parts[1..], sep);
      SplitAppend(parts[0], Join(parts[1..], sep), sep);
      assert [parts[0]] + parts[1..] == parts;
    }
  }

  lemma {:induction false} JoinAppend(a: seq<string>, b: seq<string>, sep: char)
    requires a != [] && b != []
    ensures Join(a + b, sep) == Join(a, sep) + [sep] + Join(b, sep)
  {
    if |a| == 1 {
      assert (a + b)[1..] == b;
    } else {
      JoinAppend(a[1..], b, sep);
      assert (a + b)[1..] == a[1..] + b;
      assert (a + b)[0] == a[0];
      var tail := Join(a[1..], sep);
      assert a[0] + [sep] + (tail + [sep] + Join(b, sep)) == a[0] + [sep] + tail + [sep] + Join(b, sep);
    }
  }

  lemma {:induction false} PartsWithoutSeparator(s: string, sep: char, p: string)
    requires p in Split(s, sep)
    ensures sep !in p
  {
    if s != "" {
      var rest := Split(s[1..], sep);
      if s[0] == sep {
        if p != "" { PartsWithoutSeparator(s[1..], sep, p); }
      } else {
        PartsWithoutSeparator(s[1..], sep, rest[0]);
        if p != [s[0]] + rest[0] { PartsWithoutSeparator(s[1..], sep, p); }
      }
    }
  }

  /** Every part occurs in the string. */
  lemma {:induction false} PartOccurs(s: string, sep: char, p: string)
    requires p in Split(s, sep)
    ensures Contains(s, p)
  {
    var i := PartAt(s, sep, p);
  }

  lemma {:induction false} PartAt(s: string, sep: char, p: string) returns (i: nat)
    requires p in Split(s, sep)
    ensures i <= |s| && p <= s[i..]
    ensures p == Split(s, sep)[0] ==> i == 0
  {
    if s == "" {
      return 0;
    }
    var rest := Split(s[1..], sep);
    var j := PartAt(s[1..], sep, rest[0]);
    if p == Split(s, sep)[0] {
      i := 0;
    } else {
      assert p in rest;
      j := PartAt(s[1..], sep, p);
      i := j + 1;
    }
  }

  lemma {:induction false} IndexOfFirst(a: string, b: string, c: char)
    requires c !in a
    ensures IndexOf(a + [c] + b, c) == |a|
  {
    if a != "" {
      assert (a + [c] + b)[1..] == a[1..] + [c] + b;
      IndexOfFirst(a[1..], b, c);
    }
  }

  predicate AllSpace(s: string) {
    forall c :: c in s ==> IsSpace(c)
  }

  lemma {:induction false} TrimLeftIs(s: string) returns (left: string)
    ensures s == left + TrimLeft(s) && AllSpace(left) && (TrimLeft(s) == "" || !IsSpace(TrimLeft(s)[0]))
  {
    left := "";
    if s != "" && IsSpace(s[0]) {
      left := TrimLeftIs(s[1..]);
      left := [s[0]] + left;
    }
  }

  lemma {:induction false} TrimRightIs(s: string) returns (right: string)
    ensures s == TrimRight(s) + right && AllSpace(right)
    ensures TrimRight(s) == "" || !IsSpace(TrimRight(s)[|TrimRight(s)| - 1])
  {
    right := "";
    if s != "" && IsSpace(s[|s| - 1]) {
      right := TrimRightIs(s[..|s| - 1]);
      right := right + [s[|s| - 1]];
    }
  }

  /** Trimming takes the space off both ends, and nothing else. */
  lemma TrimSpaceIs(s: string) returns (left: string, right: string)
    ensures s == left + TrimSpace(s) + right && AllSpace(left) && AllSpace(right) && IsTrimmed(TrimSpace(s))
  {
    left := TrimLeftIs(s);
    right := TrimRightIs(TrimLeft(s));
    assert TrimSpace(s) != "" ==> TrimSpace(s)[0] == TrimLeft(s)[0];
  }

  lemma TrimIsTrimmed(s: string)
    ensures IsTrimmed(TrimSpace(s))
  {
    var left, right := TrimSpaceIs(s);
  }

  const LOWER := "abcdefghijklmnopqrstuvwxyz"
  const UPPER := "ABCDEFGHIJKLMNOPQRSTUVWXYZ"

  /** Folding the case exchanges the letters and leaves every other character. */
  lemma CaseIs(s: string, i: nat, k: nat)
    requires i < |s| && k < 26
    ensures |ToLower(s)| == |s| == |ToUpper(s)|
    ensures LOWER[k] == 'a' + k as char && UPPER[k] == 'A' + k as char
    ensures s[i] == UPPER[k] ==> ToLower(s)[i] == LOWER[k]
    ensures s[i] == LOWER[k] ==> ToUpper(s)[i] == UPPER[k]
    ensures !('A' <= s[i] <= 'Z') ==> ToLower(s)[i] == s[i]
    ensures !('a' <= s[i] <= 'z') ==> ToUpper(s)[i] == s[i]
  {
  }
}
