/** The options language of authorized_keys, as sshd(8) describes it and the handlers read it. */
module AuthorizedKeys {
  import opened Prelude
  import opened Text

  datatype Options = Options(
    command: string,
    environment: map<string, string>,
    from: seq<string>,
    noPortForwarding: bool,
    noPTY: bool,
    noUserRC: bool,
    noX11Forwarding: bool,
    noAgentForwarding: bool,
    pty: bool,
    restrictAuth: seq<string>)

  const NO_OPTIONS := Options("", map[], [], false, false, false, false, false, false, [])

  /** parseCommaSeparated from the middle: what is left, whether inside quotes, and the piece so far. */
  function Pieces(s: string, inQuotes: bool, current: string): seq<string>
    decreases |s|
  {
    if s == "" then (if current != "" then [current] else [])
    else if s[0] == '"' then Pieces(s[1..], !inQuotes, current + [s[0]])
    else if s[0] == ',' && !inQuotes then [current] + Pieces(s[1..], inQuotes, "")
    else Pieces(s[1..], inQuotes, current + [s[0]])
  }

  /** extractKeyValue, for an option that has an equals sign */
  function KeyValue(opt: string): (string, string)
    requires '=' in opt
  {
    var i := IndexOf(opt, '=');
    assert i < |opt|;
    var key, value := TrimSpace(opt[..i]), TrimSpace(opt[i + 1..]);
    if |value| >= 2 && value[0] == '"' && value[|value| - 1] == '"' then (key, value[1..|value| - 1]) else (key, value)
  }

  /** parseEnvironmentOption */
  function WithEnvironment(o: Options, value: string): Options {
    var i := IndexOf(value, '=');
    if i < |value| then o.(environment := o.environment[value[..i] := value[i + 1..]]) else o
  }

  function TrimAll(parts: seq<string>): seq<string> {
    if parts == [] then [] else [TrimSpace(parts[0])] + TrimAll(parts[1..])
  }

  /** parseKeyValueOption; keys that are not known are ignored */
  function WithKeyValue(o: Options, opt: string): Options
    requires '=' in opt
  {
    var (key, value) := KeyValue(opt);
    match key
    case "command" => o.(command := value)
    case "environment" => WithEnvironment(o, value)
    case "from" => o.(from := o.from + TrimAll(Split(value, ',')))
    case _ => o
  }

  /** parseFlagOption; flags that are not known are ignored */
  function WithFlag(o: Options, opt: string): Options {
    match opt
    case "no-port-forwarding" => o.(noPortForwarding := true)
    case "no-pty" => o.(noPTY := true)
    case "no-user-rc" => o.(noUserRC := true)
    case "no-X11-forwarding" => o.(noX11Forwarding := true)
    case "no-agent-forwarding" => o.(noAgentForwarding := true)
    case "pty" => o.(pty := true)
    case _ => o
  }

  /** parseOption */
  function WithOption(o: Options, opt: string): Options {
    if '=' in opt then WithKeyValue(o, opt) else WithFlag(o, opt)
  }

  /** The pieces of an options list, applied in order. */
  function WithPieces(o: Options, pieces: seq<string>): Options
    decreases |pieces|
  {
    if pieces == [] then o
    else
      var opt := TrimSpace(pieces[0]);
      WithPieces(if opt == "" then o else WithOption(o, opt), pieces[1..])
  }

  /** parseOptionsList */
  function OptionsOf(text: string): Options {
    WithPieces(NO_OPTIONS, Pieces(text, false, ""))
  }

  /** A word character of a regular expression. */
  predicate IsWord(c: char) {
    'a' <= c <= 'z' || 'A' <= c <= 'Z' || '0' <= c <= '9' || c == '_'
  }

  /** \b matches at position i. */
  predicate Boundary(s: string, i: nat)
    requires i <= |s|
  {
    (i > 0 && IsWord(s[i - 1])) != (i < |s| && IsWord(s[i]))
  }

  const ECDSA := "ecdsa-sha2-"

  predicate TypeAt(s: string, i: nat, name: string)
    requires i <= |s|
  {
    name <= s[i..] && Boundary(s, i + |name|)
  }

  /** authorizedKeyTypePattern matches at position i. */
  predicate KeyTypeAt(s: string, i: nat)
    requires i <= |s|
  {
    Boundary(s, i) &&
    (TypeAt(s, i, "ssh-rsa") || TypeAt(s, i, "ssh-dss") || TypeAt(s, i, "ssh-ed25519") ||
     (ECDSA <= s[i..] && i + |ECDSA| < |s| && IsWord(s[i + |ECDSA|])))
  }

  /** The position of the leftmost match at or after i. */
  function FindKeyType(s: string, i: nat): (found: Option<nat>)
    requires i <= |s|
    ensures found.Some? ==> i <= found.value <= |s|
    decreases |s| - i
  {
    if KeyTypeAt(s, i) then Some(i) else if i == |s| then None else FindKeyType(s, i + 1)
  }

  lemma {:induction false} FindsLeftmost(s: string, i: nat)
    requires i <= |s|
    ensures match FindKeyType(s, i)
            case Some(k) => KeyTypeAt(s, k) && forall j :: i <= j < k ==> !KeyTypeAt(s, j)
            case None => forall j :: i <= j <= |s| ==> !KeyTypeAt(s, j)
    decreases |s| - i
  {
    if !KeyTypeAt(s, i) && i < |s| {
      FindsLeftmost(s, i + 1);
    }
  }

  /** A line cut where its options end. */
  datatype Cut = Unusable | Bare(key: string) | Optioned(text: string, key: string)

  function CutTrimmed(line: string): Cut {
    if line == "" || line[0] == '#' then Unusable
    else
      var first := FirstField(line);
      if first == line || FindKeyType(first, 0).Some? then Bare(line)
      else match FindKeyType(line, 0)
        case None => Unusable
        case Some(start) => Optioned(TrimSpace(line[..start]), TrimSpace(line[start..]))
  }

  function CutLine(text: string): Cut {
    CutTrimmed(TrimSpace(text))
  }

  datatype Parsed = Rejected | Parsed(key: string, options: Options)

  /** ParseAuthorizedKeyOptions */
  function ParseLine(text: string): Parsed {
    match CutLine(text)
    case Unusable => Rejected
    case Bare(key) => Parsed(key, NO_OPTIONS)
    case Optioned(options, key) => Parsed(key, OptionsOf(options))
  }

  // ------------------------------------------------------------------- splitting at commas

  /** Whether a quoted string is open after s, when it was (or was not) open before. */
  function Open(s: string, inQuotes: bool): bool {
    if s == "" then inQuotes else Open(s[1..], if s[0] == '"' then !inQuotes else inQuotes)
  }

  /** s has no comma outside quotes. */
  predicate NoBareComma(s: string, inQuotes: bool) {
    s != "" ==>
      (s[0] == ',' ==> inQuotes) && NoBareComma(s[1..], if s[0] == '"' then !inQuotes else inQuotes)
  }

  /** s ends with a comma outside quotes. */
  predicate EndsBare(s: string, inQuotes: bool) {
    s != "" && s[|s| - 1] == ',' && !Open(s[..|s| - 1], inQuotes)
  }

  lemma {:induction false} OpenAppend(a: string, b: string, inQuotes: bool)
    ensures Open(a + b, inQuotes) == Open(b, Open(a, inQuotes))
  {
    if a == "" {
      assert a + b == b;
    } else {
      assert (a + b)[1..] == a[1..] + b;
      OpenAppend(a[1..], b, if a[0] == '"' then !inQuotes else inQuotes);
    }
  }

  lemma {:induction false} NoBareCommaAppend(a: string, b: string, inQuotes: bool)
    ensures NoBareComma(a + b, inQuotes) <==> NoBareComma(a, inQuotes) && NoBareComma(b, Open(a, inQuotes))
  {
    if a == "" {
      assert a + b == b;
    } else {
      assert (a + b)[1..] == a[1..] + b;
      NoBareCommaAppend(a[1..], b, if a[0] == '"' then !inQuotes else inQuotes);
    }
  }

  /** s without one trailing comma outside quotes. */
  function Kept(s: string, inQuotes: bool): string {
    if EndsBare(s, inQuotes) then s[..|s| - 1] else s
  }

  lemma KeptTail(s: string, inQuotes: bool)
    requires |s| > 1
    ensures Kept(s, inQuotes) == [s[0]] + Kept(s[1..], if s[0] == '"' then !inQuotes else inQuotes)
  {
    assert s[..|s| - 1][1..] == s[1..][..|s| - 2];
  }

  /** Joining the pieces with commas gives the text back, but for one trailing comma outside quotes. */
  lemma {:induction false} JoinPieces(s: string, inQuotes: bool, current: string)
    ensures Join(Pieces(s, inQuotes, current), ',') == current + Kept(s, inQuotes)
    ensures Pieces(s, inQuotes, current) == [] <==> s == "" && current == ""
    decreases |s|
  {
    if s != "" {
      var rest := s[1..];
      if rest != "" {
        KeptTail(s, inQuotes);
      } else {
        assert s == [s[0]] && s[..|s| - 1] == "";
      }
      if s[0] == ',' && !inQuotes {
        JoinPieces(rest, inQuotes, "");
        assert ([current] + Pieces(rest, inQuotes, ""))[1..] == Pieces(rest, inQuotes, "");
      } else {
        JoinPieces(rest, if s[0] == '"' then !inQuotes else inQuotes, current + [s[0]]);
      }
    }
  }

  /** No piece has a comma outside quotes, and every piece but the last has its quotes closed. */
  ghost predicate WellSplit(pieces: seq<string>) {
    && (forall i :: 0 <= i < |pieces| ==> NoBareComma(pieces[i], false))
    && (forall i :: 0 <= i < |pieces| - 1 ==> !Open(pieces[i], false))
  }

  lemma {:induction false} PiecesWellSplit(s: string, inQuotes: bool, current: string)
    requires NoBareComma(current, false) && inQuotes == Open(current, false)
    ensures WellSplit(Pieces(s, inQuotes, current))
    decreases |s|
  {
    if s != "" {
      NoBareCommaAppend(current, [s[0]], false);
      OpenAppend(current, [s[0]], false);
      if s[0] == ',' && !inQuotes {
        PiecesWellSplit(s[1..], inQuotes, "");
      } else {
        PiecesWellSplit(s[1..], if s[0] == '"' then !inQuotes else inQuotes, current + [s[0]]);
      }
    }
  }

  /** A piece is taken whole: up to the comma after it, or to the end. */
  lemma {:induction false} TakePiece(p: string, rest: string, inQuotes: bool, current: string)
    requires NoBareComma(p, inQuotes)
    ensures Pieces(p + rest, inQuotes, current) == Pieces(rest, Open(p, inQuotes), current + p)
    decreases |p|
  {
    if p == "" {
      assert p + rest == rest && current + p == current;
    } else {
      assert (p + rest)[1..] == p[1..] + rest;
      assert current + [p[0]] + p[1..] == current + p;
      TakePiece(p[1..], rest, if p[0] == '"' then !inQuotes else inQuotes, current + [p[0]]);
    }
  }

  /** Splitting undoes joining, for every well-split list whose last piece is not empty. */
  lemma {:induction false} PiecesOfJoin(pieces: seq<string>)
    requires pieces != [] && WellSplit(pieces) && pieces[|pieces| - 1] != ""
    ensures Pieces(Join(pieces, ','), false, "") == pieces
    decreases |pieces|
  {
    var p := pieces[0];
    if |pieces| == 1 {
      TakePiece(p, "", false, "");
      assert p + "" == p && "" + p == p;
    } else {
      var rest := Join(pieces[1..], ',');
      TakePiece(p, [','] + rest, false, "");
      assert p + ([','] + rest) == p + [','] + rest;
      assert ([','] + rest)[1..] == rest && "" + p == p;
      PiecesOfJoin(pieces[1..]);
    }
  }
}
