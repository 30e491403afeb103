/** Printing options before a key and reading the line back. */
module OptionsRoundTrip {
  import opened Prelude
  import opened Text
  import opened AuthorizedKeys

  datatype Item =
    | Command(value: string)
    | Environment(name: string, value: string)
    | From(hosts: seq<string>)
    | NoPortForwarding
    | NoPTY
    | NoUserRC
    | NoX11Forwarding
    | NoAgentForwarding
    | PTY

  function Quoted(key: string, value: string): string {
    key + "=\"" + value + "\""
  }

  function Print(item: Item): string {
    match item
    case Command(value) => Quoted("command", value)
    case Environment(name, value) => Quoted("environment", name + "=" + value)
    case From(hosts) => Quoted("from", Join(hosts, ','))
    case NoPortForwarding => "no-port-forwarding"
    case NoPTY => "no-pty"
    case NoUserRC => "no-user-rc"
    case NoX11Forwarding => "no-X11-forwarding"
    case NoAgentForwarding => "no-agent-forwarding"
    case PTY => "pty"
  }

  /** The text between the quotes. */
  function Inner(item: Item): string {
    match item
    case Command(value) => value
    case Environment(name, value) => name + "=" + value
    case From(hosts) => Join(hosts, ',')
    case _ => ""
  }

  /** What the options file format can express for this item. */
  predicate Printable(item: Item) {
    && '"' !in Inner(item)
    && (item.Environment? ==> '=' !in item.name)
    && (item.From? ==> item.hosts != [] && forall h :: h in item.hosts ==> ',' !in h && IsTrimmed(h))
  }

  /** What the item says. */
  function Meaning(o: Options, item: Item): Options {
    match item
    case Command(value) => o.(command := value)
    case Environment(name, value) => o.(environment := o.environment[name := value])
    case From(hosts) => o.(from := o.from + hosts)
    case NoPortForwarding => o.(noPortForwarding := true)
    case NoPTY => o.(noPTY := true)
    case NoUserRC => o.(noUserRC := true)
    case NoX11Forwarding => o.(noX11Forwarding := true)
    case NoAgentForwarding => o.(noAgentForwarding := true)
    case PTY => o.(pty := true)
  }

  function MeaningAll(o: Options, items: seq<Item>): Options
    decreases |items|
  {
    if items == [] then o else MeaningAll(Meaning(o, items[0]), items[1..])
  }

  function PrintAll(items: seq<Item>): seq<string> {
    if items == [] then [] else [Print(items[0])] + PrintAll(items[1..])
  }

  function PrintList(items: seq<Item>): string {
    Join(PrintAll(items), ',')
  }

  // ------------------------------------------------------------------- one option

  lemma {:induction false} WithoutQuotes(s: string, inQuotes: bool)
    requires '"' !in s
    ensures Open(s, inQuotes) == inQuotes
    ensures NoBareComma(s, inQuotes) <==> inQuotes || ',' !in s
  {
    if s != "" {
      WithoutQuotes(s[1..], inQuotes);
      assert s == [s[0]] + s[1..];
    }
  }

  lemma QuotedPiece(key: string, value: string)
    requires '"' !in key && ',' !in key && '"' !in value
    ensures NoBareComma(Quoted(key, value), false) && !Open(Quoted(key, value), false)
  {
    var head, tail := key + "=", value + "\"";
    assert Quoted(key, value) == head + ("\"" + tail);
    WithoutQuotes(head, false);
    WithoutQuotes(value, true);
    OpenAppend(head, "\"" + tail, false);
    OpenAppend(value, "\"", true);
    NoBareCommaAppend(head, "\"" + tail, false);
    NoBareCommaAppend(value, "\"", true);
    assert ("\"" + tail)[1..] == tail;
    assert "\""[1..] == "";
  }

  lemma TrimTrimmed(s: string)
    requires IsTrimmed(s)
    ensures TrimSpace(s) == s
  {
  }

  /** extractKeyValue takes a quoted option apart. */
  lemma KeyValueOfQuoted(key: string, value: string)
    requires '=' !in key && IsTrimmed(key)
    ensures '=' in Quoted(key, value) && KeyValue(Quoted(key, value)) == (key, value)
  {
    var opt := Quoted(key, value);
    var quoted := "\"" + value + "\"";
    assert opt == key + ['='] + quoted;
    assert opt[|key|] == '=';
    IndexOfFirst(key, quoted, '=');
    assert opt[..|key|] == key && opt[|key| + 1..] == quoted;
    TrimTrimmed(key);
    TrimTrimmed(quoted);
    assert quoted[1..|quoted| - 1] == value;
  }

  lemma {:induction false} TrimAllTrimmed(hosts: seq<string>)
    requires forall h :: h in hosts ==> IsTrimmed(h)
    ensures TrimAll(hosts) == hosts
  {
    if hosts != [] {
      TrimTrimmed(hosts[0]);
      TrimAllTrimmed(hosts[1..]);
      assert [hosts[0]] + hosts[1..] == hosts;
    }
  }

  /** A piece that survives splitting, trimming and the test for comments. */
  ghost predicate IsPiece(text: string) {
    && NoBareComma(text, false) && !Open(text, false)
    && text != "" && IsTrimmed(text) && text[0] != '#'
  }

  lemma QuotedIsPiece(key: string, value: string)
    requires key != "" && IsTrimmed(key) && key[0] != '#' && '"' !in key && ',' !in key && '"' !in value
    ensures IsPiece(Quoted(key, value))
  {
    QuotedPiece(key, value);
    assert Quoted(key, value)[0] == key[0];
  }

  predicate IsFlag(item: Item) {
    !item.Command? && !item.Environment? && !item.From?
  }

  /** The characters of flags. */
  predicate IsPlain(c: char) {
    'a' <= c <= 'z' || 'A' <= c <= 'Z' || '0' <= c <= '9' || c == '-'
  }

  lemma PlainIsPiece(text: string)
    requires text != "" && forall i :: 0 <= i < |text| ==> IsPlain(text[i])
    ensures IsPiece(text) && '=' !in text
  {
    WithoutQuotes(text, false);
  }

  lemma FlagIsPiece(item: Item)
    requires IsFlag(item)
    ensures IsPiece(Print(item)) && '=' !in Print(item)
  {
    var text := Print(item);
    PlainIsPiece(text);
  }

  /** A printed item is one piece of a list. */
  lemma PrintedPiece(item: Item)
    requires Printable(item)
    ensures IsPiece(Print(item))
  {
    match item
    case Command(value) => QuotedIsPiece("command", value);
    case Environment(name, value) => QuotedIsPiece("environment", name + "=" + value);
    case From(hosts) => QuotedIsPiece("from", Join(hosts, ','));
    case _ => FlagIsPiece(item);
  }

  lemma EnvironmentMeaning(o: Options, name: string, value: string)
    requires '=' !in name
    ensures WithEnvironment(o, name + "=" + value) == o.(environment := o.environment[name := value])
  {
    var text := name + ['='] + value;
    assert text == name + "=" + value;
    IndexOfFirst(name, value, '=');
    assert text[..|name|] == name && text[|name| + 1..] == value;
  }

  lemma FromMeaning(o: Options, hosts: seq<string>)
    requires Printable(From(hosts))
    ensures WithOption(o, Quoted("from", Join(hosts, ','))) == Meaning(o, From(hosts))
  {
    KeyValueOfQuoted("from", Join(hosts, ','));
    SplitJoin(hosts, ',');
    TrimAllTrimmed(hosts);
  }

  lemma FlagMeaning(o: Options, item: Item)
    requires IsFlag(item)
    ensures WithFlag(o, Print(item)) == Meaning(o, item)
  {
  }

  /** Reading a printed item does what the item says. */
  lemma PrintedMeaning(o: Options, item: Item)
    requires Printable(item)
    ensures WithOption(o, Print(item)) == Meaning(o, item)
  {
    match item
    case Command(value) => KeyValueOfQuoted("command", value);
    case Environment(name, value) =>
      KeyValueOfQuoted("environment", name + "=" + value);
      EnvironmentMeaning(o, name, value);
    case From(hosts) => FromMeaning(o, hosts);
    case _ =>
      FlagIsPiece(item);
      FlagMeaning(o, item);
  }

  // ------------------------------------------------------------------- a list of options

  lemma {:induction false} PrintAllAt(items: seq<Item>, i: nat)
    requires i < |items|
    ensures |PrintAll(items)| == |items| && PrintAll(items)[i] == Print(items[i])
  {
    if i > 0 {
      PrintAllAt(items[1..], i - 1);
    } else if |items| > 1 {
      PrintAllAt(items[1..], 0);
    }
  }

  lemma {:induction false} PiecesMeaning(o: Options, items: seq<Item>)
    requires forall item :: item in items ==> Printable(item)
    ensures WithPieces(o, PrintAll(items)) == MeaningAll(o, items)
    decreases |items|
  {
    if items != [] {
      PrintedPiece(items[0]);
      TrimTrimmed(Print(items[0]));
      PrintedMeaning(o, items[0]);
      assert PrintAll(items)[1..] == PrintAll(items[1..]);
      PiecesMeaning(Meaning(o, items[0]), items[1..]);
    }
  }

  /** Reading a printed list, in any order and with repetitions, does what its items say in turn. */
  lemma ListRoundTrip(items: seq<Item>)
    requires items != [] && forall item :: item in items ==> Printable(item)
    ensures OptionsOf(PrintList(items)) == MeaningAll(NO_OPTIONS, items)
  {
    var pieces := PrintAll(items);
    PrintAllAt(items, 0);
    forall i | 0 <= i < |items|
      ensures NoBareComma(pieces[i], false) && !Open(pieces[i], false) && pieces[i] != ""
    {
      PrintAllAt(items, i);
      PrintedPiece(items[i]);
    }
    PiecesOfJoin(pieces);
    PiecesMeaning(NO_OPTIONS, items);
  }

  // ------------------------------------------------------------------- a whole line

  /** Where the characters of a match end: nothing of a key type reaches over a space. */
  lemma KeyTypeBeforeCut(a: string, c: char, b: string, i: nat)
    requires i < |a| && IsSpace(c)
    ensures KeyTypeAt(a + [c] + b, i) <==> KeyTypeAt(a, i)
  {
    var s := a + [c] + b;
    assert s[|a|] == c && !IsWord(c) && c != '-';
    assert Boundary(s, i) == Boundary(a, i);
    NameBeforeCut(a, c, b, i, "ssh-rsa");
    NameBeforeCut(a, c, b, i, "ssh-dss");
    NameBeforeCut(a, c, b, i, "ssh-ed25519");
    PrefixBeforeCut(a, c, b, i, ECDSA);
  }

  lemma PrefixBeforeCut(a: string, c: char, b: string, i: nat, name: string)
    requires i <= |a| && c !in name
    ensures name <= (a + [c] + b)[i..] <==> name <= a[i..]
  {
    var s := a + [c] + b;
    assert s[i..][|a| - i] == c;
    if |name| <= |a| - i {
      assert s[i..][..|name|] == a[i..][..|name|];
    }
    if name <= a[i..] {
      assert s[i..][..|name|] == a[i..][..|name|];
    }
  }

  lemma NameBeforeCut(a: string, c: char, b: string, i: nat, name: string)
    requires i <= |a| && c !in name && !IsWord(c)
    ensures TypeAt(a + [c] + b, i, name) <==> TypeAt(a, i, name)
  {
    PrefixBeforeCut(a, c, b, i, name);
  }

  lemma KeyTypeAfterCut(a: string, c: char, key: string, k: nat)
    requires IsSpace(c) && k <= |key|
    ensures KeyTypeAt(a + [c] + key, |a| + 1 + k) <==> KeyTypeAt(key, k)
  {
    var s, i := a + [c] + key, |a| + 1 + k;
    assert s[i..] == key[k..];
    BoundaryAfterCut(a, c, key, k);
    NameAfterCut(a, c, key, k, "ssh-rsa");
    NameAfterCut(a, c, key, k, "ssh-dss");
    NameAfterCut(a, c, key, k, "ssh-ed25519");
    assert i + |ECDSA| < |s| ==> s[i + |ECDSA|] == key[k + |ECDSA|];
  }

  lemma BoundaryAfterCut(a: string, c: char, key: string, k: nat)
    requires !IsWord(c) && k <= |key|
    ensures Boundary(a + [c] + key, |a| + 1 + k) == Boundary(key, k)
  {
  }

  lemma NameAfterCut(a: string, c: char, key: string, k: nat, name: string)
    requires !IsWord(c) && k <= |key|
    ensures TypeAt(a + [c] + key, |a| + 1 + k, name) <==> TypeAt(key, k, name)
  {
    assert (a + [c] + key)[|a| + 1 + k..] == key[k..];
    if name <= key[k..] {
      BoundaryAfterCut(a, c, key, k + |name|);
    }
  }

  lemma NoKeyTypeAtSpace(s: string, i: nat)
    requires i <= |s| && (i == |s| || IsSpace(s[i]))
    ensures !KeyTypeAt(s, i)
  {
  }

  lemma {:induction false} FirstFieldCut(a: string, c: char, b: string)
    requires IsSpace(c)
    ensures FirstField(a + [c] + b) == FirstField(a)
  {
    if a != "" && !IsSpace(a[0]) {
      assert (a + [c] + b)[1..] == a[1..] + [c] + b;
      FirstFieldCut(a[1..], c, b);
    }
  }

  /** The first field is followed by a space, or is everything. */
  lemma {:induction false} FirstFieldSplits(s: string)
    ensures FirstField(s) <= s
    ensures FirstField(s) != s ==> IsSpace(s[|FirstField(s)|])
  {
    if s != "" && !IsSpace(s[0]) {
      FirstFieldSplits(s[1..]);
      assert s == [s[0]] + s[1..];
    }
  }

  lemma {:induction false} JoinEnds(pieces: seq<string>)
    requires pieces != [] && forall i :: 0 <= i < |pieces| ==> pieces[i] != "" && IsTrimmed(pieces[i])
    ensures var text := Join(pieces, ','); text != "" && IsTrimmed(text) && text[0] == pieces[0][0]
  {
    if |pieces| > 1 {
      JoinEnds(pieces[1..]);
    }
  }

  lemma PrintListEnds(items: seq<Item>)
    requires items != [] && forall item :: item in items ==> Printable(item)
    ensures var text := PrintList(items); text != "" && IsTrimmed(text) && text[0] != '#'
  {
    var pieces := PrintAll(items);
    PrintAllAt(items, 0);
    forall i | 0 <= i < |items|
      ensures IsPiece(pieces[i])
    {
      PrintAllAt(items, i);
      PrintedPiece(items[i]);
    }
    JoinEnds(pieces);
  }

  /** The first field of a line with options names a key type only if the options text does. */
  lemma FirstFieldKeyType(text: string, key: string)
    requires text != "" && FindKeyType(text, 0).None?
    ensures FindKeyType(FirstField(text + " " + key), 0).None?
  {
    assert text + " " + key == text + [' '] + key;
    FirstFieldCut(text, ' ', key);
    FirstFieldSplits(text);
    var first := FirstField(text);
    FindsLeftmost(text, 0);
    FindsLeftmost(first, 0);
    if first != text {
      var c, rest := text[|first|], text[|first| + 1..];
      assert text == first + [c] + rest;
      forall i | 0 <= i < |first|
        ensures !KeyTypeAt(first, i)
      {
        KeyTypeBeforeCut(first, c, rest, i);
      }
      NoKeyTypeAtSpace(first, |first|);
    }
  }

  lemma TrimOneSpace(text: string)
    requires IsTrimmed(text) && text != ""
    ensures TrimSpace(text + " ") == text
  {
    var s := text + " ";
    assert s[0] == text[0] && TrimLeft(s) == s;
    assert s[..|s| - 1] == text && TrimRight(s) == TrimRight(text);
  }

  lemma FoundAt(s: string, k: nat)
    requires k <= |s| && KeyTypeAt(s, k) && forall j :: 0 <= j < k ==> !KeyTypeAt(s, j)
    ensures FindKeyType(s, 0) == Some(k)
  {
    FindsLeftmost(s, 0);
  }

  /** No key type begins before position n. */
  ghost predicate NoKeyTypeBelow(s: string, n: nat)
    requires n <= |s|
  {
    forall i :: 0 <= i < n ==> !KeyTypeAt(s, i)
  }

  lemma NoneBelow(s: string)
    requires FindKeyType(s, 0).None?
    ensures NoKeyTypeBelow(s, |s|)
  {
    FindsLeftmost(s, 0);
  }

  lemma FoundBelow(s: string, k: nat)
    requires FindKeyType(s, 0) == Some(k)
    ensures k <= |s| && KeyTypeAt(s, k) && NoKeyTypeBelow(s, k)
  {
    FoundFrom(s, 0, k);
  }

  lemma {:induction false} FoundFrom(s: string, i: nat, k: nat)
    requires i <= |s| && FindKeyType(s, i) == Some(k) && NoKeyTypeBelow(s, i)
    ensures k <= |s| && KeyTypeAt(s, k) && NoKeyTypeBelow(s, k)
    decreases |s| - i
  {
    if !KeyTypeAt(s, i) {
      FoundFrom(s, i + 1, k);
    }
  }

  lemma NoKeyTypeBefore(text: string, key: string, k: nat, i: nat)
    requires NoKeyTypeBelow(text, |text|) && k <= |key| && NoKeyTypeBelow(key, k) && i < |text| + 1 + k
    ensures !KeyTypeAt(text + [' '] + key, i)
  {
    if i < |text| {
      KeyTypeBeforeCut(text, ' ', key, i);
    } else if i == |text| {
      NoKeyTypeAtSpace(text + [' '] + key, i);
    } else {
      KeyTypeAfterCut(text, ' ', key, i - |text| - 1);
    }
  }

  /** Where the options end: at the first key type of the key, when the options text has none. */
  lemma KeyFound(text: string, key: string, k: nat)
    requires FindKeyType(text, 0).None? && FindKeyType(key, 0) == Some(k) && k <= |key|
    ensures FindKeyType(text + [' '] + key, 0) == Some(|text| + 1 + k)
  {
    NoneBelow(text);
    FoundBelow(key, k);
    NoneBeforeKey(text, key, k);
    KeyTypeAfterCut(text, ' ', key, k);
    FoundAt(text + [' '] + key, |text| + 1 + k);
  }

  lemma NoneBeforeKey(text: string, key: string, k: nat)
    requires NoKeyTypeBelow(text, |text|) && k <= |key| && NoKeyTypeBelow(key, k)
    ensures NoKeyTypeBelow(text + [' '] + key, |text| + 1 + k)
  {
    forall i | 0 <= i < |text| + 1 + k
      ensures !KeyTypeAt(text + [' '] + key, i)
    {
      NoKeyTypeBefore(text, key, k, i);
    }
  }

  lemma CutAt(line: string, start: nat)
    requires line != "" && line[0] != '#' && FirstField(line) != line
    requires FindKeyType(FirstField(line), 0).None? && FindKeyType(line, 0) == Some(start)
    ensures start <= |line| && CutTrimmed(line) == Optioned(TrimSpace(line[..start]), TrimSpace(line[start..]))
  {
  }

  lemma FirstFieldShort(text: string, key: string)
    ensures FirstField(text + [' '] + key) != text + [' '] + key
  {
    FirstFieldCut(text, ' ', key);
    FirstFieldSplits(text);
  }

  /** The options end, and the key begins, at the first key type behind options text that has none. */
  lemma LineSplitsAt(text: string, key: string, k: nat)
    requires text != "" && IsTrimmed(text) && text[0] != '#' && FindKeyType(text, 0).None?
    requires key != "" && IsTrimmed(key) && FindKeyType(key, 0) == Some(k) && k < |key|
    ensures CutLine(text + " " + key) == Optioned(TrimSpace(text + " " + key[..k]), key[k..])
  {
    assert text + [' '] + key == text + " " + key;
    TrimmedLine(text, key);
    FirstFieldShort(text, key);
    FirstFieldKeyType(text, key);
    KeyFound(text, key, k);
    FoundNotSpace(key, k);
    CutAt(text + [' '] + key, |text| + 1 + k);
    Halves(text, key, k);
    RestTrimmed(key, k);
  }

  lemma Halves(text: string, key: string, k: nat)
    requires k <= |key|
    ensures var line := text + [' '] + key;
            line[|text| + 1 + k..] == key[k..] && line[..|text| + 1 + k] == text + " " + key[..k]
  {
  }

  lemma TrimmedLine(text: string, key: string)
    requires text != "" && IsTrimmed(text) && key != "" && IsTrimmed(key)
    ensures var line := text + [' '] + key; line[0] == text[0] && IsTrimmed(line) && TrimSpace(line) == line
  {
    var line := text + [' '] + key;
    assert line[|line| - 1] == key[|key| - 1];
    TrimTrimmed(line);
  }

  lemma FoundNotSpace(s: string, k: nat)
    requires FindKeyType(s, 0) == Some(k)
    ensures k < |s| && !IsSpace(s[k])
  {
    FindsLeftmost(s, 0);
    NotSpace(s, k);
  }

  lemma NotSpace(s: string, k: nat)
    requires k <= |s| && KeyTypeAt(s, k)
    ensures k < |s| && !IsSpace(s[k])
  {
    if k == |s| || IsSpace(s[k]) { NoKeyTypeAtSpace(s, k); }
  }

  /** How a key type begins. */
  lemma KeyTypeBegins(s: string, i: nat)
    requires i <= |s| && KeyTypeAt(s, i)
    ensures i + 1 < |s| && ((s[i] == 's' && s[i + 1] == 's') || (s[i] == 'e' && s[i + 1] == 'c'))
  {
    assert forall name: string :: |name| >= 2 && name <= s[i..] ==> s[i] == name[0] && s[i + 1] == name[1];
  }

  lemma RestTrimmed(line: string, k: nat)
    requires IsTrimmed(line) && k < |line| && !IsSpace(line[k])
    ensures TrimSpace(line[k..]) == line[k..]
  {
    TrimTrimmed(line[k..]);
  }

  /** Options text without a key type of its own is told from a key that begins with one. */
  lemma LineSplits(text: string, key: string)
    requires text != "" && IsTrimmed(text) && text[0] != '#' && FindKeyType(text, 0).None?
    requires key != "" && IsTrimmed(key) && KeyTypeAt(key, 0)
    ensures CutLine(text + " " + key) == Optioned(text, key)
  {
    FoundAt(key, 0);
    FoundNotSpace(key, 0);
    LineSplitsAt(text, key, 0);
    assert key[..0] == "" && key[0..] == key && text + " " + "" == text + " ";
    TrimOneSpace(text);
  }

  /** What is cut off as the key is the rest of the line, and begins with a key type. */
  lemma CutKey(line: string)
    requires IsTrimmed(line)
    ensures match CutTrimmed(line)
            case Optioned(_, key) =>
              var found := FindKeyType(line, 0);
              found.Some? && KeyTypeAt(line, found.value) && found.value < |line| && key == line[found.value..]
            case Bare(key) => key == line
            case Unusable => true
  {
    FindsLeftmost(line, 0);
    var found := FindKeyType(line, 0);
    if found.Some? {
      FoundNotSpace(line, found.value);
      RestTrimmed(line, found.value);
    }
  }

  /**
    The key behind options text is read as it was only if it begins with a key type, and the options text
    has none: a key type in the options is taken for the key, and so is one further on in the key.
   */
  lemma KeyTypeElsewhereMisleads(text: string, key: string, o: Options)
    requires text != "" && IsTrimmed(text) && key != "" && IsTrimmed(key)
    requires FindKeyType(text, 0).Some? || !KeyTypeAt(key, 0)
    ensures ParseLine(text + " " + key) != Parsed(key, o)
  {
    assert text + " " + key == text + [' '] + key;
    TrimmedLine(text, key);
    KeyCutWhole(text, key);
  }

  /** Only a key that begins with a key type, behind option text without one, is cut off as it is. */
  lemma KeyCutWhole(text: string, key: string)
    requires IsTrimmed(text + [' '] + key)
    ensures var cut := CutTrimmed(text + [' '] + key);
            && (cut.Bare? ==> cut.key != key)
            && (cut.Optioned? && cut.key == key ==> KeyTypeAt(key, 0) && FindKeyType(text, 0).None?)
  {
    var line := text + [' '] + key;
    CutKey(line);
    if CutTrimmed(line).Optioned? && CutTrimmed(line).key == key {
      assert FindKeyType(line, 0) == Some(|text| + 1);
      FoundBehind(text, key);
    }
  }

  lemma FoundBehind(text: string, key: string)
    requires FindKeyType(text + [' '] + key, 0) == Some(|text| + 1)
    ensures KeyTypeAt(key, 0) && FindKeyType(text, 0).None?
  {
    FoundBelow(text + [' '] + key, |text| + 1);
    FewerBelow(text + [' '] + key, |text|, |text| + 1);
    NoneInText(text, key);
    KeyBehind(text, key);
  }

  lemma FewerBelow(s: string, m: nat, n: nat)
    requires m <= n <= |s| && NoKeyTypeBelow(s, n)
    ensures NoKeyTypeBelow(s, m)
  {
  }

  lemma KeyBehind(text: string, key: string)
    requires KeyTypeAt(text + [' '] + key, |text| + 1)
    ensures KeyTypeAt(key, 0)
  {
    KeyTypeAfterCut(text, ' ', key, 0);
  }

  lemma NoneInText(text: string, key: string)
    requires NoKeyTypeBelow(text + [' '] + key, |text|)
    ensures FindKeyType(text, 0).None?
  {
    FindsLeftmost(text, 0);
    var found := FindKeyType(text, 0);
    if found.Some? && found.value < |text| {
      KeyTypeBeforeCut(text, ' ', key, found.value);
    }
    NoKeyTypeAtSpace(text, |text|);
  }

  /**
    A printed options list in front of a key is read back, options and key, exactly when the key begins
    with a key type and the options text holds none.
   */
  lemma LineRoundTrip(items: seq<Item>, key: string)
    requires items != [] && forall item :: item in items ==> Printable(item)
    requires key != "" && IsTrimmed(key)
    ensures ParseLine(PrintList(items) + " " + key) == Parsed(key, MeaningAll(NO_OPTIONS, items))
            <==> FindKeyType(PrintList(items), 0).None? && KeyTypeAt(key, 0)
  {
    var text := PrintList(items);
    PrintListEnds(items);
    if FindKeyType(text, 0).None? && KeyTypeAt(key, 0) {
      LineSplits(text, key);
      ListRoundTrip(items);
    } else {
      KeyTypeElsewhereMisleads(text, key, MeaningAll(NO_OPTIONS, items));
    }
  }

  /** The first field is the whole key, or holds a key type; and the key does not look like a comment. */
  predicate ReadsBare(key: string)
    requires key != ""
  {
    key[0] != '#' && (FirstField(key) == key || FindKeyType(FirstField(key), 0).Some?)
  }

  /** A key type at the beginning is one of the first field. */
  lemma FirstFieldBegins(key: string)
    requires KeyTypeAt(key, 0)
    ensures KeyTypeAt(FirstField(key), 0) && FindKeyType(FirstField(key), 0) == Some(0)
  {
    FirstFieldSplits(key);
    KeyTypeBegins(key, 0);
    var first := FirstField(key);
    if first != key {
      var rest := key[|first| + 1..];
      assert key == first + [key[|first|]] + rest;
      KeyTypeBeforeCut(first, key[|first|], rest, 0);
    }
    FoundAt(first, 0);
  }

  /** A line that is just a key is read as that key without options exactly when it reads bare. */
  lemma BareKey(key: string)
    requires key != "" && IsTrimmed(key)
    ensures ParseLine(key) == Parsed(key, NO_OPTIONS) <==> ReadsBare(key)
    ensures KeyTypeAt(key, 0) ==> ReadsBare(key)
  {
    TrimTrimmed(key);
    CutKey(key);
    if KeyTypeAt(key, 0) {
      FirstFieldBegins(key);
    }
  }

  // ------------------------------------------------------------------- lines that are not read back

  const SK := "sk-" + ("ssh-ed25519" + "@openssh.com ")

  /** The type of a FIDO key holds the type of another kind of key. */
  lemma KeyTypeInsideSk(blob: string)
    ensures FindKeyType(SK + blob, 0) == Some(3)
  {
    var key := SK + blob;
    var rest := "@openssh.com " + blob;
    assert key == "sk-" + ("ssh-ed25519" + rest);
    assert key[3..] == "ssh-ed25519" + rest;
    assert key[2] == '-' && key[14] == rest[0] == '@';
    forall i | 0 <= i < 3
      ensures !KeyTypeAt(key, i)
    {
      NoKeyTypeHere(key, i);
    }
    FoundAt(key, 3);
  }

  lemma NoKeyTypeHere(s: string, i: nat)
    requires i <= |s|
    requires i + 1 < |s| ==> (s[i] == 's' ==> s[i + 1] != 's') && (s[i] == 'e' ==> s[i + 1] != 'c')
    ensures !KeyTypeAt(s, i)
  {
    if KeyTypeAt(s, i) { KeyTypeBegins(s, i); }
  }

  lemma NoKeyTypeInNoPTY()
    ensures FindKeyType("no-pty", 0).None?
  {
    FindsLeftmost("no-pty", 0);
    forall i | 0 <= i <= 6
      ensures !KeyTypeAt("no-pty", i)
    {
      NoKeyTypeHere("no-pty", i);
    }
  }

  /** A text of one piece that is no flag says nothing. */
  lemma OnePieceIgnored(text: string)
    requires text != "" && IsTrimmed(text) && '"' !in text && ',' !in text && '=' !in text
    requires WithFlag(NO_OPTIONS, text) == NO_OPTIONS
    ensures OptionsOf(text) == NO_OPTIONS
  {
    WithoutQuotes(text, false);
    TakePiece(text, "", false, "");
    assert text + "" == text && "" + text == text;
    var pieces := Pieces(text, false, "");
    assert pieces == [text] && pieces[1..] == [];
    TrimTrimmed(text);
    assert WithPieces(NO_OPTIONS, pieces) == WithPieces(NO_OPTIONS, []);
  }

  lemma UnknownFlag()
    ensures OptionsOf(TrimSpace("no-pty" + " " + "sk-")) == NO_OPTIONS
  {
    var options := "no-pty" + " " + "sk-";
    TrimTrimmed(options);
    assert |options| == 10 && options[3] == 'p' && "no-user-rc"[3] == 'u';
    OnePieceIgnored(options);
  }

  lemma SkKey(blob: string) returns (key: string)
    requires blob != "" && IsTrimmed(blob)
    ensures key == SK + blob && IsTrimmed(key) && FindKeyType(key, 0) == Some(3) && |key| > 3 && key[..3] == "sk-"
  {
    key := SK + blob;
    assert key[0] == 's' && key[|key| - 1] == blob[|blob| - 1];
    KeyTypeInsideSk(blob);
  }

  /** Options text in front of a FIDO key runs on into the key's type. */
  lemma SkKeyRead(text: string, blob: string)
    requires text != "" && IsTrimmed(text) && text[0] != '#' && FindKeyType(text, 0).None?
    requires blob != "" && IsTrimmed(blob)
    ensures ParseLine(text + " " + (SK + blob)) == Parsed((SK + blob)[3..], OptionsOf(TrimSpace(text + " " + "sk-")))
  {
    var key := SkKey(blob);
    LineSplitsAt(text, key, 3);
  }

  lemma PrintedNoPTY()
    ensures PrintList([NoPTY]) == "no-pty"
  {
    PrintAllAt([NoPTY], 0);
    assert PrintAll([NoPTY]) == ["no-pty"];
  }

  /** A restriction in front of a FIDO key is lost: the line is read as the end of its key, without options. */
  lemma SkKeyLosesRestriction(blob: string)
    requires blob != "" && IsTrimmed(blob)
    ensures ParseLine(PrintList([NoPTY]) + " " + (SK + blob)) == Parsed((SK + blob)[3..], NO_OPTIONS)
  {
    PrintedNoPTY();
    NoKeyTypeInNoPTY();
    SkKeyRead("no-pty", blob);
    UnknownFlag();
  }

  /** A command that names a key type hides the key behind it. */
  lemma CommandHidesKey(key: string, o: Options)
    requires key != "" && IsTrimmed(key)
    ensures ParseLine(PrintList([Command("ssh-rsa")]) + " " + key) != Parsed(key, o)
  {
    PrintAllAt([Command("ssh-rsa")], 0);
    var text := Quoted("command", "ssh-rsa");
    assert PrintAll([Command("ssh-rsa")]) == [text];
    KeyTypeInCommand();
    KeyTypeElsewhereMisleads(text, key, o);
  }

  lemma KeyTypeInCommand()
    ensures var text := Quoted("command", "ssh-rsa"); IsTrimmed(text) && FindKeyType(text, 0).Some?
  {
    var text := Quoted("command", "ssh-rsa");
    assert text == "command=\"" + ("ssh-rsa" + "\"");
    assert text[9..] == "ssh-rsa" + "\"";
    assert text[8] == '"' && text[9] == 's' && text[15] == 'a' && text[16] == '"';
    KeyTypeIsFound(text, 9);
  }

  lemma KeyTypeIsFound(s: string, i: nat)
    requires i <= |s| && KeyTypeAt(s, i)
    ensures FindKeyType(s, 0).Some?
  {
    FindsLeftmost(s, 0);
  }

  // ------------------------------------------------------------------- an options record

  function EnvironmentItems(o: Options, names: seq<string>): seq<Item>
    requires forall n :: n in names ==> n in o.environment
  {
    if names == [] then [] else [Environment(names[0], o.environment[names[0]])] + EnvironmentItems(o, names[1..])
  }

  function Only(said: bool, item: Item): seq<Item> {
    if said then [item] else []
  }

  function FirstFlags(o: Options): seq<Item> {
    Only(o.noPortForwarding, NoPortForwarding) + Only(o.noPTY, NoPTY) + Only(o.noUserRC, NoUserRC)
  }

  function LastFlags(o: Options): seq<Item> {
    Only(o.noX11Forwarding, NoX11Forwarding) + Only(o.noAgentForwarding, NoAgentForwarding) + Only(o.pty, PTY)
  }

  function FlagItems(o: Options): seq<Item> {
    FirstFlags(o) + LastFlags(o)
  }

  function LeadingItems(o: Options, names: seq<string>): seq<Item>
    requires forall n :: n in names ==> n in o.environment
  {
    Only(o.command != "", Command(o.command)) + EnvironmentItems(o, names)
  }

  /** The items of a record, its environment variables in the order of `names`. */
  function ItemsOf(o: Options, names: seq<string>): seq<Item>
    requires forall n :: n in names ==> n in o.environment
  {
    LeadingItems(o, names) + Only(o.from != [], From(o.from)) + FlagItems(o)
  }

  lemma {:induction false} MeaningAppend(o: Options, a: seq<Item>, b: seq<Item>)
    ensures MeaningAll(o, a + b) == MeaningAll(MeaningAll(o, a), b)
    decreases |a|
  {
    if a == [] {
      assert a + b == b;
    } else {
      assert (a + b)[1..] == a[1..] + b;
      MeaningAppend(Meaning(o, a[0]), a[1..], b);
    }
  }

  lemma {:induction false} EnvironmentAll(base: Options, o: Options, names: seq<string>)
    requires forall n :: n in names ==> n in o.environment
    ensures var r := MeaningAll(base, EnvironmentItems(o, names));
            && r == base.(environment := r.environment)
            && (forall n :: n in r.environment <==> n in base.environment || n in names)
            && (forall n :: n in r.environment ==>
                  r.environment[n] == if n in names then o.environment[n] else base.environment[n])
    decreases |names|
  {
    if names != [] {
      var next := Meaning(base, Environment(names[0], o.environment[names[0]]));
      assert EnvironmentItems(o, names)[1..] == EnvironmentItems(o, names[1..]);
      EnvironmentAll(next, o, names[1..]);
      assert names == [names[0]] + names[1..];
    }
  }

  lemma OnlyAll(base: Options, said: bool, item: Item)
    ensures MeaningAll(base, Only(said, item)) == if said then Meaning(base, item) else base
  {
    assert [item][1..] == [];
  }

  lemma ThenOnly(base: Options, items: seq<Item>, said: bool, item: Item)
    ensures MeaningAll(base, items + Only(said, item)) ==
            if said then Meaning(MeaningAll(base, items), item) else MeaningAll(base, items)
  {
    MeaningAppend(base, items, Only(said, item));
    OnlyAll(MeaningAll(base, items), said, item);
  }

  lemma FirstFlagsAll(base: Options, o: Options)
    ensures MeaningAll(base, FirstFlags(o)) ==
            base.(noPortForwarding := base.noPortForwarding || o.noPortForwarding,
                  noPTY := base.noPTY || o.noPTY,
                  noUserRC := base.noUserRC || o.noUserRC)
  {
    var one := Only(o.noPortForwarding, NoPortForwarding);
    OnlyAll(base, o.noPortForwarding, NoPortForwarding);
    ThenOnly(base, one, o.noPTY, NoPTY);
    ThenOnly(base, one + Only(o.noPTY, NoPTY), o.noUserRC, NoUserRC);
  }

  lemma LastFlagsAll(base: Options, o: Options)
    ensures MeaningAll(base, LastFlags(o)) ==
            base.(noX11Forwarding := base.noX11Forwarding || o.noX11Forwarding,
                  noAgentForwarding := base.noAgentForwarding || o.noAgentForwarding,
                  pty := base.pty || o.pty)
  {
    var one := Only(o.noX11Forwarding, NoX11Forwarding);
    OnlyAll(base, o.noX11Forwarding, NoX11Forwarding);
    ThenOnly(base, one, o.noAgentForwarding, NoAgentForwarding);
    ThenOnly(base, one + Only(o.noAgentForwarding, NoAgentForwarding), o.pty, PTY);
  }

  lemma FlagsAll(base: Options, o: Options)
    ensures MeaningAll(base, FlagItems(o)) ==
            base.(noPortForwarding := base.noPortForwarding || o.noPortForwarding,
                  noPTY := base.noPTY || o.noPTY,
                  noUserRC := base.noUserRC || o.noUserRC,
                  noX11Forwarding := base.noX11Forwarding || o.noX11Forwarding,
                  noAgentForwarding := base.noAgentForwarding || o.noAgentForwarding,
                  pty := base.pty || o.pty)
  {
    FirstFlagsAll(base, o);
    LastFlagsAll(MeaningAll(base, FirstFlags(o)), o);
    MeaningAppend(base, FirstFlags(o), LastFlags(o));
  }

  lemma CommandAndEnvironment(o: Options, names: seq<string>)
    requires forall n :: n in names <==> n in o.environment
    ensures MeaningAll(NO_OPTIONS, LeadingItems(o, names)) ==
            NO_OPTIONS.(command := o.command, environment := o.environment)
  {
    var afterCommand := NO_OPTIONS.(command := o.command);
    MeaningAppend(NO_OPTIONS, Only(o.command != "", Command(o.command)), EnvironmentItems(o, names));
    OnlyAll(NO_OPTIONS, o.command != "", Command(o.command));
    EnvironmentAll(afterCommand, o, names);
    assert MeaningAll(afterCommand, EnvironmentItems(o, names)).environment == o.environment;
  }

  /** The items of a record say what the record says. */
  lemma ItemsMeanRecord(o: Options, names: seq<string>)
    requires o.restrictAuth == [] && forall n :: n in names <==> n in o.environment
    ensures MeaningAll(NO_OPTIONS, ItemsOf(o, names)) == o
  {
    CommandAndEnvironment(o, names);
    JoinMeanings(o, LeadingItems(o, names));
  }

  lemma JoinMeanings(o: Options, leading: seq<Item>)
    requires o.restrictAuth == []
    requires MeaningAll(NO_OPTIONS, leading) == NO_OPTIONS.(command := o.command, environment := o.environment)
    ensures MeaningAll(NO_OPTIONS, leading + Only(o.from != [], From(o.from)) + FlagItems(o)) == o
  {
    ThenOnly(NO_OPTIONS, leading, o.from != [], From(o.from));
    var base := NO_OPTIONS.(command := o.command, environment := o.environment, from := o.from);
    assert [] + o.from == o.from;
    FlagsAll(base, o);
    MeaningAppend(NO_OPTIONS, leading + Only(o.from != [], From(o.from)), FlagItems(o));
  }

  /** The values the file format can carry. */
  predicate Expressible(o: Options) {
    && '"' !in o.command && o.restrictAuth == []
    && (forall n :: n in o.environment ==> '=' !in n && '"' !in n && '"' !in o.environment[n])
    && (forall h :: h in o.from ==> '"' !in h && ',' !in h && IsTrimmed(h))
  }

  lemma {:induction false} JoinWithoutQuote(parts: seq<string>)
    requires forall p :: p in parts ==> '"' !in p
    ensures '"' !in Join(parts, ',')
  {
    if |parts| > 1 {
      JoinWithoutQuote(parts[1..]);
    }
  }

  lemma {:induction false} EnvironmentPrintable(o: Options, names: seq<string>)
    requires Expressible(o) && forall n :: n in names ==> n in o.environment
    ensures forall item :: item in EnvironmentItems(o, names) ==> Printable(item)
    decreases |names|
  {
    if names != [] {
      EnvironmentPrintable(o, names[1..]);
      assert names[0] in names;
    }
  }

  lemma ThenFlag(items: seq<Item>, said: bool, item: Item)
    requires IsFlag(item) && forall x :: x in items ==> IsFlag(x)
    ensures forall x :: x in items + Only(said, item) ==> IsFlag(x)
  {
  }

  lemma FlagsPrintable(o: Options)
    ensures forall item :: item in FlagItems(o) ==> Printable(item)
  {
    ThenFlag(Only(o.noPortForwarding, NoPortForwarding), o.noPTY, NoPTY);
    ThenFlag(Only(o.noPortForwarding, NoPortForwarding) + Only(o.noPTY, NoPTY), o.noUserRC, NoUserRC);
    ThenFlag(Only(o.noX11Forwarding, NoX11Forwarding), o.noAgentForwarding, NoAgentForwarding);
    ThenFlag(Only(o.noX11Forwarding, NoX11Forwarding) + Only(o.noAgentForwarding, NoAgentForwarding), o.pty, PTY);
    forall item | item in FlagItems(o)
      ensures IsFlag(item)
    {
      assert item in FirstFlags(o) || item in LastFlags(o);
    }
  }

  lemma ItemsPrintable(o: Options, names: seq<string>)
    requires Expressible(o) && forall n :: n in names ==> n in o.environment
    ensures forall item :: item in ItemsOf(o, names) ==> Printable(item)
  {
    EnvironmentPrintable(o, names);
    JoinWithoutQuote(o.from);
    FlagsPrintable(o);
    forall item | item in ItemsOf(o, names)
      ensures item in FlagItems(o) || item in EnvironmentItems(o, names) || item == Command(o.command) ||
              (o.from != [] && item == From(o.from))
    {
    }
  }

  /** A record printed before a key; a record with nothing to say is not printed at all. */
  function PrintLine(o: Options, names: seq<string>, key: string): string
    requires forall n :: n in names ==> n in o.environment
  {
    var items := ItemsOf(o, names);
    if items == [] then key else PrintList(items) + " " + key
  }

  /**
    Reading a printed record gives back record and key, in whatever order its environment variables were
    printed, exactly when the key begins with a key type and no value puts one into the options text; of a
    record with nothing to say, exactly when the key alone reads bare.
   */
  lemma RecordRoundTrip(o: Options, names: seq<string>, key: string)
    requires Expressible(o) && forall n :: n in names <==> n in o.environment
    requires key != "" && IsTrimmed(key)
    ensures ParseLine(PrintLine(o, names, key)) == Parsed(key, o) <==>
            if ItemsOf(o, names) == [] then ReadsBare(key)
            else FindKeyType(PrintList(ItemsOf(o, names)), 0).None? && KeyTypeAt(key, 0)
  {
    ItemsMeanRecord(o, names);
    ItemsPrintable(o, names);
    if ItemsOf(o, names) == [] {
      BareKey(key);
    } else {
      LineRoundTrip(ItemsOf(o, names), key);
    }
  }
}
