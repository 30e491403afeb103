/**
  The regular expression for key types, \b(ssh-rsa|ssh-dss|ecdsa-sha2-\w+|ssh-ed25519)\b, by what it
  matches; and what ParseAuthorizedKeyOptions makes of a line, in its terms.
 */
module KeyTypes {
  import opened Prelude
  import opened Text
  import opened AuthorizedKeys
  import opened OptionsRoundTrip

  /** A letter, a digit or an underscore. */
  predicate WordChar(c: char) {
    c == '_' || '0' <= c <= '9' || 'A' <= c <= 'Z' || 'a' <= c <= 'z'
  }

  /** The text between the word boundaries of the expression. */
  predicate IsKeyType(t: string) {
    || t == "ssh-rsa" || t == "ssh-dss" || t == "ssh-ed25519"
    || (|t| > 11 && t[..11] == "ecdsa-sha2-" && forall k :: 11 <= k < |t| ==> WordChar(t[k]))
  }

  /** A word begins or ends at position i. */
  predicate WordBoundary(s: string, i: nat)
    requires i <= |s|
  {
    if i > 0 && WordChar(s[i - 1]) then i == |s| || !WordChar(s[i]) else i < |s| && WordChar(s[i])
  }

  /** The expression matches s[i..j]. */
  predicate MatchesAt(s: string, i: nat, j: nat)
    requires i <= j <= |s|
  {
    IsKeyType(s[i..j]) && WordBoundary(s, i) && WordBoundary(s, j)
  }

  /** Some match begins at i. */
  predicate MatchBegins(s: string, i: nat)
    requires i <= |s|
  {
    exists j: nat :: i <= j <= |s| && MatchesAt(s, i, j)
  }

  lemma SameBoundary(s: string, i: nat)
    requires i <= |s|
    ensures WordBoundary(s, i) == Boundary(s, i)
  {
  }

  lemma PrefixIsSlice(s: string, i: nat, name: string)
    requires i <= |s|
    ensures name <= s[i..] <==> i + |name| <= |s| && s[i..i + |name|] == name
  {
    if i + |name| <= |s| {
      assert s[i..][..|name|] == s[i..i + |name|];
    }
  }

  lemma NameMatches(s: string, i: nat, name: string)
    requires i <= |s| && (name == "ssh-rsa" || name == "ssh-dss" || name == "ssh-ed25519")
    requires Boundary(s, i) && TypeAt(s, i, name)
    ensures MatchBegins(s, i)
  {
    PrefixIsSlice(s, i, name);
    SameBoundary(s, i);
    SameBoundary(s, i + |name|);
    assert MatchesAt(s, i, i + |name|);
  }

  lemma NameTyped(s: string, i: nat, j: nat)
    requires i <= j <= |s| && (s[i..j] == "ssh-rsa" || s[i..j] == "ssh-dss" || s[i..j] == "ssh-ed25519")
    requires Boundary(s, i) && Boundary(s, j)
    ensures KeyTypeAt(s, i)
  {
    PrefixIsSlice(s, i, s[i..j]);
    assert TypeAt(s, i, s[i..j]);
  }

  /** Where the word that has begun before position j ends. */
  lemma {:induction false} WordEnd(s: string, j: nat) returns (end: nat)
    requires 0 < j <= |s| && WordChar(s[j - 1])
    ensures j <= end <= |s| && WordBoundary(s, end) && forall k :: j <= k < end ==> WordChar(s[k])
    decreases |s| - j
  {
    if j < |s| && WordChar(s[j]) {
      end := WordEnd(s, j + 1);
    } else {
      end := j;
    }
  }

  lemma EcdsaMatches(s: string, i: nat)
    requires i <= |s| && Boundary(s, i) && ECDSA <= s[i..] && i + |ECDSA| < |s| && IsWord(s[i + |ECDSA|])
    ensures MatchBegins(s, i)
  {
    PrefixIsSlice(s, i, ECDSA);
    var end := WordEnd(s, i + 12);
    var t := s[i..end];
    assert t[..11] == s[i..i + 11] == "ecdsa-sha2-";
    assert forall k :: 11 <= k < |t| ==> t[k] == s[i + k];
    SameBoundary(s, i);
    assert MatchesAt(s, i, end);
  }

  lemma EcdsaTyped(s: string, i: nat, j: nat)
    requires i <= j <= |s| && j - i > 11 && s[i..j][..11] == "ecdsa-sha2-" && WordChar(s[i..j][11])
    requires Boundary(s, i)
    ensures KeyTypeAt(s, i)
  {
    assert s[i..j][..11] == s[i..i + 11];
    PrefixIsSlice(s, i, ECDSA);
    assert s[i + 11] == s[i..j][11];
  }

  /** The search for a key type looks for what the expression matches. */
  lemma KeyTypeIsMatch(s: string, i: nat)
    requires i <= |s|
    ensures KeyTypeAt(s, i) <==> MatchBegins(s, i)
  {
    if KeyTypeAt(s, i) {
      if TypeAt(s, i, "ssh-rsa") {
        NameMatches(s, i, "ssh-rsa");
      } else if TypeAt(s, i, "ssh-dss") {
        NameMatches(s, i, "ssh-dss");
      } else if TypeAt(s, i, "ssh-ed25519") {
        NameMatches(s, i, "ssh-ed25519");
      } else {
        EcdsaMatches(s, i);
      }
    }
    if MatchBegins(s, i) {
      var j: nat :| i <= j <= |s| && MatchesAt(s, i, j);
      SameBoundary(s, i);
      SameBoundary(s, j);
      if s[i..j] == "ssh-rsa" || s[i..j] == "ssh-dss" || s[i..j] == "ssh-ed25519" {
        NameTyped(s, i, j);
      } else {
        EcdsaTyped(s, i, j);
      }
    }
  }

  /** The search finds position i exactly when a match begins there and none before. */
  lemma SearchFindsMatch(s: string)
    ensures match FindKeyType(s, 0)
            case Some(i) => i <= |s| && MatchBegins(s, i) && forall j :: 0 <= j < i ==> !MatchBegins(s, j)
            case None => forall j :: 0 <= j <= |s| ==> !MatchBegins(s, j)
  {
    FindsLeftmost(s, 0);
    forall j | 0 <= j <= |s|
      ensures MatchBegins(s, j) <==> KeyTypeAt(s, j)
    {
      KeyTypeIsMatch(s, j);
    }
  }

  /** A text in which the expression matches nowhere. */
  ghost predicate NoKeyTypeIn(s: string) {
    forall j :: 0 <= j <= |s| ==> !MatchBegins(s, j)
  }

  lemma NoneFound(s: string)
    ensures NoKeyTypeIn(s) <==> FindKeyType(s, 0).None?
  {
    SearchFindsMatch(s);
  }

  /** A key type, then a space: the expression matches at the beginning. */
  lemma TypeThenSpace(t: string, blob: string)
    requires IsKeyType(t)
    ensures MatchBegins(t + " " + blob, 0)
  {
    var key := t + " " + blob;
    assert key[0..|t|] == t && key[|t|] == ' ';
    assert WordChar(t[0]) && WordChar(t[|t| - 1]);
    assert MatchesAt(key, 0, |t|);
  }

  /**
    For each key type that the expression names, any printable options without one, in front of the type
    and the rest of a key, are read back with exactly that key.
   */
  lemma OptionsAndKeyAreRead(items: seq<Item>, t: string, blob: string)
    requires items != [] && forall item :: item in items ==> Printable(item)
    requires NoKeyTypeIn(PrintList(items))
    requires t == "ssh-rsa" || t == "ssh-dss" || t == "ssh-ed25519" ||
             (|t| > 11 && t[..11] == "ecdsa-sha2-" && forall k :: 11 <= k < |t| ==> WordChar(t[k]))
    requires blob != "" && IsTrimmed(blob)
    ensures ParseLine(PrintList(items) + " " + (t + " " + blob)) ==
            Parsed(t + " " + blob, MeaningAll(NO_OPTIONS, items))
  {
    var key := t + " " + blob;
    TypeThenSpace(t, blob);
    KeyTypeIsMatch(key, 0);
    NoneFound(PrintList(items));
    TypeIsTrimmed(t, blob);
    LineRoundTrip(items, key);
  }

  lemma TypeIsTrimmed(t: string, blob: string)
    requires IsKeyType(t) && blob != "" && IsTrimmed(blob)
    ensures IsTrimmed(t + " " + blob) && t + " " + blob != ""
  {
    var key := t + " " + blob;
    assert key[0] == t[0] && key[|key| - 1] == blob[|blob| - 1];
  }

  /** The first of the fields of a line that begins with no space. */
  predicate IsFirstField(line: string, first: string) {
    && first <= line && (forall c :: c in first ==> !IsSpace(c))
    && (first == line || IsSpace(line[|first|]))
  }

  lemma {:induction false} FirstFieldIs(line: string, first: string)
    requires IsFirstField(line, first)
    ensures FirstField(line) == first
  {
    if first != "" {
      assert line[0] == first[0] && first[0] in first;
      forall c | c in first[1..]
        ensures !IsSpace(c)
      {
        assert c in first;
      }
      assert first == line ==> first[1..] == line[1..];
      FirstFieldIs(line[1..], first[1..]);
      assert first == [first[0]] + first[1..];
    }
  }

  /**
    ParseAuthorizedKeyOptions on a line that is not cut: nothing for an empty line, a comment, or a line of
    several fields without a key type; the whole line for a single field, or a first field with a key type.
   */
  lemma LineIsWhole(text: string, line: string, first: string)
    requires line == TrimSpace(text) && IsFirstField(line, first)
    ensures line == "" || line[0] == '#' ==> ParseLine(text) == Rejected
    ensures line != "" && line[0] != '#' && (first == line || !NoKeyTypeIn(first)) ==>
              ParseLine(text) == Parsed(line, NO_OPTIONS)
    ensures line != "" && line[0] != '#' && first != line && NoKeyTypeIn(first) && NoKeyTypeIn(line) ==>
              ParseLine(text) == Rejected
  {
    FirstFieldIs(line, first);
    NoneFound(first);
    NoneFound(line);
  }

  /** On any other line: what is before the first key type is options, and the rest is the key. */
  lemma LineIsCut(text: string, line: string, first: string, i: nat)
    requires line == TrimSpace(text) && IsFirstField(line, first)
    requires line != "" && line[0] != '#' && first != line && NoKeyTypeIn(first)
    requires i <= |line| && MatchBegins(line, i) && forall j :: 0 <= j < i ==> !MatchBegins(line, j)
    ensures ParseLine(text) == Parsed(line[i..], OptionsOf(TrimSpace(line[..i])))
  {
    FirstFieldIs(line, first);
    NoneFound(first);
    TrimIsTrimmed(text);
    FirstMatchIsFound(line, i);
    FoundNotSpace(line, i);
    RestTrimmed(line, i);
  }

  lemma FirstMatchIsFound(s: string, i: nat)
    requires i <= |s| && MatchBegins(s, i) && forall j :: 0 <= j < i ==> !MatchBegins(s, j)
    ensures FindKeyType(s, 0) == Some(i)
  {
    SearchFindsMatch(s);
  }
}
