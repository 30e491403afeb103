/**
  The search of the authorized_keys files for the key a client offers, and what it leaves in the
  connection's context.
 */
module KeyScan {
  import opened Prelude
  import opened Text
  import opened AuthorizedKeys
  import opened OptionsRoundTrip
  import opened Access

  /**
    The libraries: the host of an address and whether it is an IP address, the two tests of a pattern
    against it, and the wire format of the key that a key text holds.
   */
  datatype Library = Library(
    host: string -> string,
    isIP: string -> bool,
    inNetwork: (string, string) -> bool,
    sameIP: (string, string) -> bool,
    parseKey: string -> Option<string>)

  predicate PatternAllows(lib: Library, pattern: string, host: string) {
    var p := TrimSpace(pattern);
    (Contains(p, "/") && lib.inNetwork(p, host)) || lib.sameIP(p, host) || host == p
  }

  /** validateSourceAddress */
  predicate SourceAllowed(lib: Library, address: string, patterns: seq<string>) {
    var host := lib.host(address);
    lib.isIP(host) && exists i | 0 <= i < |patterns| :: PatternAllows(lib, patterns[i], host)
  }

  /** The client and the key it offers. */
  datatype Offer = Offer(user: string, key: string, address: string)

  /** The options of a line that parses and carries the offered key. */
  function Matched(lib: Library, offer: Offer, line: string): Option<Options> {
    var text := TrimSpace(line);
    if text == "" || text[0] == '#' then None
    else match ParseLine(text)
      case Rejected => None
      case Parsed(key, options) => if lib.parseKey(key) == Some(offer.key) then Some(options) else None
  }

  predicate FromAllows(lib: Library, offer: Offer, options: Options) {
    options.from == [] || SourceAllowed(lib, offer.address, options.from)
  }

  /** The options of a line that lets the client in. */
  function Accepted(lib: Library, offer: Offer, line: string): Option<Options> {
    match Matched(lib, offer, line)
    case Some(options) => if FromAllows(lib, offer, options) then Some(options) else None
    case None => None
  }

  /** Whether a scan of the lines accepts, and the options that it leaves in the context. */
  function Scan(lib: Library, offer: Offer, lines: seq<string>, context: Option<Options>): (bool, Option<Options>)
    decreases |lines|
  {
    if lines == [] then (false, context)
    else if Accepted(lib, offer, lines[0]).Some? then (true, Accepted(lib, offer, lines[0]))
    else
      Scan(lib, offer, lines[1..],
           if Matched(lib, offer, lines[0]).Some? then Matched(lib, offer, lines[0]) else context)
  }

  /** The lines of the files in order; a file that cannot be opened has none. */
  function AllLines(files: seq<Option<seq<string>>>): seq<string> {
    if files == [] then []
    else (match files[0] case Some(lines) => lines case None => []) + AllLines(files[1..])
  }

  /** The context holds the options of the last line that carried the key, or what it held before. */
  lemma {:induction false} ScanAppend(lib: Library, offer: Offer, a: seq<string>, b: seq<string>,
      context: Option<Options>)
    ensures Scan(lib, offer, a + b, context) ==
            if Scan(lib, offer, a, context).0 then Scan(lib, offer, a, context)
            else Scan(lib, offer, b, Scan(lib, offer, a, context).1)
    decreases |a|
  {
    if a == [] {
      assert a + b == b;
    } else {
      assert (a + b)[1..] == a[1..] + b;
      if Accepted(lib, offer, a[0]).None? {
        ScanAppend(lib, offer, a[1..], b,
                   if Matched(lib, offer, a[0]).Some? then Matched(lib, offer, a[0]) else context);
      }
    }
  }

  /** Line k is the first that lets the client in. */
  ghost predicate FirstAccepted(lib: Library, offer: Offer, lines: seq<string>, k: nat) {
    && k < |lines| && Accepted(lib, offer, lines[k]).Some?
    && forall j :: 0 <= j < k ==> Accepted(lib, offer, lines[j]).None?
  }

  /**
    A scan accepts exactly when some line lets the client in; then the options it leaves are those of the
    first such line, whatever was in the context and whatever lines with the same key were refused before.
   */
  lemma {:induction false} ScanFindsFirst(lib: Library, offer: Offer, lines: seq<string>, context: Option<Options>)
    ensures Scan(lib, offer, lines, context).0 <==> exists k: nat :: FirstAccepted(lib, offer, lines, k)
    ensures forall k: nat :: FirstAccepted(lib, offer, lines, k) ==>
              Scan(lib, offer, lines, context).1 == Accepted(lib, offer, lines[k])
    decreases |lines|
  {
    if lines != [] {
      if Accepted(lib, offer, lines[0]).Some? {
        assert FirstAccepted(lib, offer, lines, 0);
      } else {
        var rest := lines[1..];
        var next := if Matched(lib, offer, lines[0]).Some? then Matched(lib, offer, lines[0]) else context;
        ScanFindsFirst(lib, offer, rest, next);
        forall k: nat | FirstAccepted(lib, offer, rest, k)
          ensures FirstAccepted(lib, offer, lines, k + 1)
        {
        }
        forall k: nat | FirstAccepted(lib, offer, lines, k)
          ensures k > 0 && FirstAccepted(lib, offer, rest, k - 1)
        {
          assert forall j :: 0 <= j < k - 1 ==> rest[j] == lines[j + 1];
        }
      }
    }
  }

  /** A scan that refuses leaves the options of the last line that carried the key, if any did. */
  lemma {:induction false} RefusedScanLeavesLastMatch(lib: Library, offer: Offer, lines: seq<string>,
      context: Option<Options>)
    requires !Scan(lib, offer, lines, context).0
    ensures var left := Scan(lib, offer, lines, context).1;
            || (left == context && forall i :: 0 <= i < |lines| ==> Matched(lib, offer, lines[i]).None?)
            || (exists k :: 0 <= k < |lines| && left.Some? && left == Matched(lib, offer, lines[k]) &&
                  forall i :: k < i < |lines| ==> Matched(lib, offer, lines[i]).None?)
    decreases |lines|
  {
    if lines != [] {
      var rest := lines[1..];
      var m := Matched(lib, offer, lines[0]);
      var next := if m.Some? then m else context;
      RefusedScanLeavesLastMatch(lib, offer, rest, next);
      var left := Scan(lib, offer, rest, next).1;
      if left == next && forall i :: 0 <= i < |rest| ==> Matched(lib, offer, rest[i]).None? {
        assert forall i :: 0 < i < |lines| ==> lines[i] == rest[i - 1];
        if m.Some? {
          assert left == Matched(lib, offer, lines[0]);
        }
      } else {
        var k :| 0 <= k < |rest| && left.Some? && left == Matched(lib, offer, rest[k]) &&
          forall i :: k < i < |rest| ==> Matched(lib, offer, rest[i]).None?;
        assert lines[k + 1] == rest[k];
        assert forall i :: k + 1 < i < |lines| ==> lines[i] == rest[i - 1];
      }
    }
  }

  /**
    Any line of printed options and the client's key, refused for its from list, leaves its options in the
    context, whatever that held.
   */
  lemma RefusedLineLeavesOptions(lib: Library, offer: Offer, items: seq<Item>, key: string, context: Option<Options>)
    requires items != [] && forall item :: item in items ==> Printable(item)
    requires key != "" && IsTrimmed(key) && KeyTypeAt(key, 0) && FindKeyType(PrintList(items), 0).None?
    requires lib.parseKey(key) == Some(offer.key)
    requires !FromAllows(lib, offer, MeaningAll(NO_OPTIONS, items))
    ensures Scan(lib, offer, [PrintList(items) + " " + key], context) == (false, Some(MeaningAll(NO_OPTIONS, items)))
  {
    var line := PrintList(items) + " " + key;
    LineRoundTrip(items, key);
    TrimmedStays(line);
    assert Matched(lib, offer, line) == Some(MeaningAll(NO_OPTIONS, items));
    assert [line][1..] == [];
  }

  lemma TrimmedStays(line: string)
    requires line != "" && ParseLine(line).Parsed?
    ensures TrimSpace(line) != "" && TrimSpace(line)[0] != '#' && ParseLine(TrimSpace(line)) == ParseLine(line)
  {
    TrimTwice(line);
  }

  /** A scan that refuses leaves an empty context empty if and only if no line carries the key. */
  lemma RefusedScanLeavesNothingIff(lib: Library, offer: Offer, lines: seq<string>)
    requires !Scan(lib, offer, lines, None).0
    ensures Scan(lib, offer, lines, None).1 == None <==>
            forall i :: 0 <= i < |lines| ==> Matched(lib, offer, lines[i]).None?
  {
    RefusedScanLeavesLastMatch(lib, offer, lines, None);
  }

  // ------------------------------------------------------------------- a line that lets the client in, spelled out

  /** The line is no comment, parses to these options and a key, and the key is the one offered. */
  ghost predicate Carries(lib: Library, offer: Offer, line: string, options: Options) {
    var text := TrimSpace(line);
    && text != "" && text[0] != '#'
    && exists key :: ParseLine(text) == Parsed(key, options) && lib.parseKey(key) == Some(offer.key)
  }

  /** There is no from list, or the client's host is an IP address that some entry names or covers. */
  ghost predicate FromAdmits(lib: Library, offer: Offer, options: Options) {
    || options.from == []
    || (var host := lib.host(offer.address);
        lib.isIP(host) &&
        exists entry :: entry in options.from &&
          (var pattern := TrimSpace(entry);
           || (Contains(pattern, "/") && lib.inNetwork(pattern, host))
           || lib.sameIP(pattern, host)
           || pattern == host))
  }

  ghost predicate LetsIn(lib: Library, offer: Offer, line: string, options: Options) {
    Carries(lib, offer, line, options) && FromAdmits(lib, offer, options)
  }

  lemma CarriesIff(lib: Library, offer: Offer, line: string, options: Options)
    ensures Matched(lib, offer, line) == Some(options) <==> Carries(lib, offer, line, options)
  {
  }

  lemma FromAdmitsIff(lib: Library, offer: Offer, options: Options)
    ensures FromAllows(lib, offer, options) <==> FromAdmits(lib, offer, options)
  {
    var host := lib.host(offer.address);
    if lib.isIP(host) && SourceAllowed(lib, offer.address, options.from) {
      var i :| 0 <= i < |options.from| && PatternAllows(lib, options.from[i], host);
      assert options.from[i] in options.from;
    }
  }

  lemma LetsInIff(lib: Library, offer: Offer, line: string, options: Options)
    ensures Accepted(lib, offer, line) == Some(options) <==> LetsIn(lib, offer, line, options)
  {
    CarriesIff(lib, offer, line, options);
    FromAdmitsIff(lib, offer, options);
  }

  /** Line k is the first that lets the client in, with these options. */
  ghost predicate FirstLetsIn(lib: Library, offer: Offer, lines: seq<string>, k: nat, options: Options) {
    && k < |lines| && LetsIn(lib, offer, lines[k], options)
    && forall j, o :: 0 <= j < k ==> !LetsIn(lib, offer, lines[j], o)
  }

  lemma FirstLetsInIff(lib: Library, offer: Offer, lines: seq<string>, k: nat, options: Options)
    ensures FirstLetsIn(lib, offer, lines, k, options) <==>
            FirstAccepted(lib, offer, lines, k) && Accepted(lib, offer, lines[k]) == Some(options)
  {
    forall j, o | 0 <= j < |lines|
      ensures Accepted(lib, offer, lines[j]) == Some(o) <==> LetsIn(lib, offer, lines[j], o)
    {
      LetsInIff(lib, offer, lines[j], o);
    }
    forall j | 0 <= j < |lines| && Accepted(lib, offer, lines[j]).Some?
      ensures LetsIn(lib, offer, lines[j], Accepted(lib, offer, lines[j]).value)
    {
      LetsInIff(lib, offer, lines[j], Accepted(lib, offer, lines[j]).value);
    }
  }

  /** A scan, in terms of what lets the client in. */
  lemma ScanIs(lib: Library, offer: Offer, lines: seq<string>, context: Option<Options>)
    ensures Scan(lib, offer, lines, context).0 <==> exists k: nat, options :: FirstLetsIn(lib, offer, lines, k, options)
    ensures forall k: nat, options :: FirstLetsIn(lib, offer, lines, k, options) ==>
              Scan(lib, offer, lines, context).1 == Some(options)
  {
    ScanFindsFirst(lib, offer, lines, context);
    forall k: nat, options
      ensures FirstLetsIn(lib, offer, lines, k, options) <==>
              FirstAccepted(lib, offer, lines, k) && Accepted(lib, offer, lines[k]) == Some(options)
    {
      FirstLetsInIff(lib, offer, lines, k, options);
    }
    if Scan(lib, offer, lines, context).0 {
      var k: nat :| FirstAccepted(lib, offer, lines, k);
      assert FirstLetsIn(lib, offer, lines, k, Accepted(lib, offer, lines[k]).value);
    }
  }

  /** The lines of several files are those of each in turn; a file that cannot be opened has none. */
  lemma {:induction false} AllLinesInTurn(a: seq<Option<seq<string>>>, b: seq<Option<seq<string>>>)
    ensures AllLines(a + b) == AllLines(a) + AllLines(b)
    ensures forall lines :: AllLines([Some(lines)]) == lines
    ensures AllLines([None]) == []
    decreases |a|
  {
    if a == [] {
      assert a + b == b;
    } else {
      assert (a + b)[1..] == a[1..] + b;
      AllLinesInTurn(a[1..], b);
    }
  }

  /** validateRootForcedCommand, on the options the context holds */
  predicate ForcedCommandOk(p: Policy, user: string, context: Option<Options>) {
    user != "root" || p.permitRootLogin != "forced-commands-only" || (context.Some? && context.value.command != "")
  }

  /** The connection's context, as far as authentication writes it. */
  class Context {
    var options: Option<Options>

    constructor ()
      ensures options == None
    {
      options := None;
    }
  }

  /** validateKeyOptions */
  method ValidateKeyOptions(lib: Library, offer: Offer, ctx: Context, options: Options) returns (ok: bool)
    modifies ctx
    ensures ctx.options == Some(options)
    ensures ok <==> FromAllows(lib, offer, options)
  {
    ctx.options := Some(options);
    if |options.from| > 0 && !SourceAllowed(lib, offer.address, options.from) {
      return false;
    }
    ok := true;
  }

  /** processAuthorizedKeyLine, for a trimmed line that is neither empty nor a comment */
  method ProcessLine(lib: Library, offer: Offer, ctx: Context, line: string) returns (ok: bool)
    requires line != "" && line[0] != '#' && TrimSpace(line) == line
    modifies ctx
    ensures ok <==> Accepted(lib, offer, line).Some?
    ensures ctx.options ==
            if Matched(lib, offer, line).Some? then Matched(lib, offer, line) else old(ctx.options)
  {
    var parsed := ParseLine(line);
    if parsed.Rejected? {
      return false;
    }
    var key := lib.parseKey(parsed.key);
    if key.None? || key.value != offer.key {
      return false;
    }
    ok := ValidateKeyOptions(lib, offer, ctx, parsed.options);
  }

  /** scanAuthorizedKeysFile; lines are those the scanner delivers */
  method ScanFile(lib: Library, offer: Offer, ctx: Context, lines: seq<string>) returns (ok: bool)
    modifies ctx
    ensures (ok, ctx.options) == Scan(lib, offer, lines, old(ctx.options))
  {
    for i := 0 to |lines|
      invariant Scan(lib, offer, lines[i..], ctx.options) == Scan(lib, offer, lines, old(ctx.options))
    {
      assert lines[i..][1..] == lines[i + 1..];
      var line := TrimSpace(lines[i]);
      TrimTwice(lines[i]);
      if line == "" || line[0] == '#' {
        continue;
      }
      var accepted := ProcessLine(lib, offer, ctx, line);
      if accepted {
        return true;
      }
    }
    ok := false;
  }

  /** validatePublicKey, for a user that exists; files are the configured ones, None where one cannot be opened */
  method ValidatePublicKey(lib: Library, offer: Offer, ctx: Context, files: seq<Option<seq<string>>>) returns (ok: bool)
    modifies ctx
    ensures (ok, ctx.options) == Scan(lib, offer, AllLines(files), old(ctx.options))
    ensures ok <==> exists k: nat, options :: FirstLetsIn(lib, offer, AllLines(files), k, options)
    ensures forall k: nat, options :: FirstLetsIn(lib, offer, AllLines(files), k, options) ==>
              ctx.options == Some(options)
    ensures ok <==> exists k: nat :: FirstAccepted(lib, offer, AllLines(files), k)
    ensures forall k: nat :: FirstAccepted(lib, offer, AllLines(files), k) ==>
              ctx.options == Accepted(lib, offer, AllLines(files)[k])
  {
    ScanFindsFirst(lib, offer, AllLines(files), ctx.options);
    ScanIs(lib, offer, AllLines(files), ctx.options);
    for i := 0 to |files|
      invariant Scan(lib, offer, AllLines(files[i..]), ctx.options) ==
        Scan(lib, offer, AllLines(files), old(ctx.options))
    {
      assert files[i..][1..] == files[i + 1..];
      match files[i]
      case None =>
        assert [] + AllLines(files[i + 1..]) == AllLines(files[i + 1..]);
      case Some(lines) =>
        ScanAppend(lib, offer, lines, AllLines(files[i + 1..]), ctx.options);
        var accepted := ScanFile(lib, offer, ctx, lines);
        if accepted {
          return true;
        }
    }
    ok := false;
  }

  /**
    The public key handler. enabled is PubkeyAuthentication, certificate whether the certificate branch
    accepted, known whether the user exists.
   */
  method HandlePublicKey(lib: Library, p: Policy, offer: Offer, groups: Option<seq<string>>, enabled: bool,
                         certificate: bool, known: bool, ctx: Context, files: seq<Option<seq<string>>>)
      returns (ok: bool)
    modifies ctx
    ensures ok ==> enabled && Authorized(p, offer.user, offer.address, groups, "publickey")
    ensures ok ==>
              && enabled && UserAdmitted(p, offer.user, offer.address) && GroupsAdmitted(p, groups)
              && RootAdmitted(p, offer.user, "publickey")
    ensures !certificate && known ==>
              (ok <==>
               && enabled && UserAdmitted(p, offer.user, offer.address) && GroupsAdmitted(p, groups)
               && RootAdmitted(p, offer.user, "publickey")
               && exists k: nat, options ::
                    FirstLetsIn(lib, offer, AllLines(files), k, options) &&
                    (offer.user == "root" && p.permitRootLogin == "forced-commands-only" ==> options.command != ""))
    ensures certificate ==>
              (ok <==>
               && enabled && UserAdmitted(p, offer.user, offer.address) && GroupsAdmitted(p, groups)
               && RootAdmitted(p, offer.user, "publickey"))
    ensures !certificate && !known ==> !ok
    ensures !certificate && known ==>
              (ok <==>
               && enabled && Authorized(p, offer.user, offer.address, groups, "publickey")
               && exists k: nat ::
                    FirstAccepted(lib, offer, AllLines(files), k) &&
                    ForcedCommandOk(p, offer.user, Accepted(lib, offer, AllLines(files)[k])))
    ensures ok && !certificate ==>
              forall k: nat :: FirstAccepted(lib, offer, AllLines(files), k) ==>
                ctx.options == Accepted(lib, offer, AllLines(files)[k])
    ensures ok && !certificate && offer.user == "root" ==>
              && p.permitRootLogin != "no"
              && (p.permitRootLogin == "forced-commands-only" ==> ctx.options.Some? && ctx.options.value.command != "")
  {
    AuthorizedIff(p, offer.user, offer.address, groups, "publickey");
    LetsInOrNot(lib, offer, AllLines(files));
    if !enabled {
      return false;
    }
    if !Authorized(p, offer.user, offer.address, groups, "publickey") {
      return false;
    }
    if certificate {
      return true;
    }
    if !known {
      return false;
    }
    ok := ValidatePublicKey(lib, offer, ctx, files);
    if ok && !ForcedCommandOk(p, offer.user, ctx.options) {
      return false;
    }
  }

  lemma LetsInOrNot(lib: Library, offer: Offer, lines: seq<string>)
    ensures forall k: nat, options :: FirstLetsIn(lib, offer, lines, k, options) <==>
              FirstAccepted(lib, offer, lines, k) && Accepted(lib, offer, lines[k]) == Some(options)
    ensures forall k: nat :: FirstAccepted(lib, offer, lines, k) ==>
              FirstLetsIn(lib, offer, lines, k, Accepted(lib, offer, lines[k]).value)
  {
    forall k: nat, options
      ensures FirstLetsIn(lib, offer, lines, k, options) <==>
              FirstAccepted(lib, offer, lines, k) && Accepted(lib, offer, lines[k]) == Some(options)
    {
      FirstLetsInIff(lib, offer, lines, k, options);
    }
  }

  lemma {:induction false} TrimLeftStart(s: string)
    ensures var t := TrimLeft(s); t == "" || !IsSpace(t[0])
  {
    if s != "" && IsSpace(s[0]) {
      TrimLeftStart(s[1..]);
    }
  }

  lemma {:induction false} TrimRightEnds(s: string)
    requires s == "" || !IsSpace(s[0])
    ensures var t := TrimRight(s); IsTrimmed(t) && TrimRight(t) == t
  {
    if s != "" && IsSpace(s[|s| - 1]) {
      TrimRightEnds(s[..|s| - 1]);
    }
  }

  /** Trimming is done after once. */
  lemma TrimTwice(s: string)
    ensures TrimSpace(TrimSpace(s)) == TrimSpace(s)
  {
    TrimLeftStart(s);
    TrimRightEnds(TrimLeft(s));
  }
}
