/** The directives of sshd_config whose values are checked or folded, and what parsing a file makes of them. */
module Config {
  import opened Decimal
  import opened Prelude
  import opened Text

  const DEFAULT_HOST_KEYS: seq<string> :=
    ["/etc/ssh/ssh_host_rsa_key", "/etc/ssh/ssh_host_ecdsa_key", "/etc/ssh/ssh_host_ed25519_key"]

  /** parseHostKeyDirective: the default triple gives way to the first key that follows it. */
  function AddHostKey(keys: seq<string>, key: string): seq<string> {
    (if keys == DEFAULT_HOST_KEYS then [] else keys) + [key]
  }

  function AddHostKeys(keys: seq<string>, added: seq<string>): seq<string>
    decreases |added|
  {
    if added == [] then keys else AddHostKeys(AddHostKey(keys, added[0]), added[1..])
  }

  /** The list without every leading default triple that something follows. */
  function WithoutLeadingDefaults(keys: seq<string>): seq<string>
    decreases |keys|
  {
    if DEFAULT_HOST_KEYS < keys then WithoutLeadingDefaults(keys[3..]) else keys
  }

  lemma {:induction false} StripThenAdd(keys: seq<string>, key: string)
    requires keys != []
    ensures WithoutLeadingDefaults(keys + [key]) == AddHostKey(WithoutLeadingDefaults(keys), key)
    decreases |keys|
  {
    assert |keys| >= 3 ==> (keys + [key])[..3] == keys[..3];
    assert |keys| >= 3 ==> (keys + [key])[3..] == keys[3..] + [key];
    if DEFAULT_HOST_KEYS < keys {
      StripThenAdd(keys[3..], key);
    }
  }

  lemma {:induction false} AddHostKeysStrips(before: seq<string>, added: seq<string>)
    requires before != []
    ensures AddHostKeys(WithoutLeadingDefaults(before), added) == WithoutLeadingDefaults(before + added)
    decreases |added|
  {
    if added == [] {
      assert before + [] == before;
    } else {
      StripThenAdd(before, added[0]);
      AddHostKeysStrips(before + [added[0]], added[1..]);
      assert before + [added[0]] + added[1..] == before + added;
    }
  }

  /**
    From the defaults, a non-empty list of HostKey directives is stored without its leading default triples
    that something follows; so it is stored as it is exactly when the triple is not a proper beginning of it.
   */
  lemma HostKeysStored(added: seq<string>)
    requires added != []
    ensures AddHostKeys(DEFAULT_HOST_KEYS, added) == WithoutLeadingDefaults(added)
    ensures AddHostKeys(DEFAULT_HOST_KEYS, added) == added <==> !(DEFAULT_HOST_KEYS < added)
  {
    AddHostKeysStrips(DEFAULT_HOST_KEYS, added);
    assert DEFAULT_HOST_KEYS < DEFAULT_HOST_KEYS + added;
    assert (DEFAULT_HOST_KEYS + added)[3..] == added;
    StripShortens(added);
  }

  /** HostKey directives that name the default triple and then another key store only that key. */
  lemma DefaultTripleIsLost(key: string)
    ensures AddHostKeys(DEFAULT_HOST_KEYS, DEFAULT_HOST_KEYS + [key]) == [key] != DEFAULT_HOST_KEYS + [key]
  {
    var added := DEFAULT_HOST_KEYS + [key];
    HostKeysStored(added);
    assert DEFAULT_HOST_KEYS < added && added[3..] == [key];
    assert WithoutLeadingDefaults(added) == WithoutLeadingDefaults([key]);
  }

  lemma {:induction false} StripShortens(keys: seq<string>)
    ensures |WithoutLeadingDefaults(keys)| <= |keys|
    ensures DEFAULT_HOST_KEYS < keys ==> |WithoutLeadingDefaults(keys)| < |keys|
    decreases |keys|
  {
    if DEFAULT_HOST_KEYS < keys {
      StripShortens(keys[3..]);
    }
  }

  predicate IsRootLoginValue(v: string) {
    v == "yes" || v == "no" || v == "prohibit-password" || v == "forced-commands-only"
  }

  /** isValidLogLevel */
  predicate IsLogLevel(l: string) {
    || l == "QUIET" || l == "FATAL" || l == "ERROR" || l == "INFO" || l == "VERBOSE"
    || l == "DEBUG" || l == "DEBUG1" || l == "DEBUG2" || l == "DEBUG3"
  }

  /** isValidSyslogFacility */
  predicate IsSyslogFacility(f: string) {
    || f == "DAEMON" || f == "USER" || f == "AUTH" || f == "LOCAL0" || f == "LOCAL1" || f == "LOCAL2"
    || f == "LOCAL3" || f == "LOCAL4" || f == "LOCAL5" || f == "LOCAL6" || f == "LOCAL7" || f == "AUTHPRIV"
  }

  /** setLogLevel of the logging package accepts. */
  predicate SetLogLevelAccepts(level: string) {
    var l := ToUpper(level);
    || l == "QUIET" || l == "FATAL" || l == "ERROR" || l == "INFO" || l == "VERBOSE"
    || l == "DEBUG" || l == "DEBUG1" || l == "DEBUG2" || l == "DEBUG3"
  }

  /** mapSyslogFacility of the logging package accepts. */
  predicate SyslogAccepts(facility: string) {
    var f := ToUpper(facility);
    || f == "DAEMON" || f == "USER" || f == "AUTH" || f == "AUTHPRIV" || f == "LOCAL0" || f == "LOCAL1"
    || f == "LOCAL2" || f == "LOCAL3" || f == "LOCAL4" || f == "LOCAL5" || f == "LOCAL6" || f == "LOCAL7"
  }

  /** The parser accepts exactly the levels and facilities that the logging package accepts. */
  lemma ParserAndLoggerAgree(text: string)
    ensures IsLogLevel(ToUpper(text)) <==> SetLogLevelAccepts(text)
    ensures IsSyslogFacility(ToUpper(text)) <==> SyslogAccepts(text)
  {
  }

  /** A line after tokenising: nothing to do, a directive in lower case with its arguments, or not tokenisable. */
  datatype Line = Blank | Directive(name: string, args: seq<string>) | Malformed

  /** What a line adds to the HostKey list: one path or nothing. */
  function HostKeyArgument(line: Line): seq<string> {
    if line.Directive? && line.name == "hostkey" && |line.args| == 1 then line.args else []
  }

  /** The HostKey directives among the lines. */
  function HostKeyArguments(lines: seq<Line>): seq<string> {
    if lines == [] then [] else HostKeyArgument(lines[0]) + HostKeyArguments(lines[1..])
  }

  /** A directive is accepted: the right number of arguments, and a legal value. */
  predicate DirectiveAccepted(name: string, args: seq<string>, otherOk: bool) {
    match name
    case "port" => |args| == 1 && Atoi(args[0]).Some? && 1 <= Atoi(args[0]).value <= 65535
    case "hostkey" => |args| == 1
    case "permitrootlogin" => |args| == 1 && IsRootLoginValue(ToLower(args[0]))
    case "x11displayoffset" => |args| == 1 && Atoi(args[0]).Some? && Atoi(args[0]).value >= 0
    case "loglevel" => |args| == 1 && IsLogLevel(ToUpper(args[0]))
    case "syslogfacility" => |args| == 1 && IsSyslogFacility(ToUpper(args[0]))
    case _ => otherOk
  }

  predicate LineAccepted(line: Line, otherOk: seq<string> -> bool) {
    match line
    case Blank => true
    case Malformed => false
    case Directive(name, args) => DirectiveAccepted(name, args, otherOk([name] + args))
  }

  /** The argument of the last of these lines that is this directive with one argument. */
  function LastValue(lines: seq<Line>, name: string): Option<string> {
    if lines == [] then None
    else
      var last := lines[|lines| - 1];
      if last.Directive? && last.name == name && |last.args| == 1 then Some(last.args[0])
      else LastValue(lines[..|lines| - 1], name)
  }

  /** The number that an argument is, or what there was without one. */
  function Number(arg: Option<string>, otherwise: int): int {
    match arg
    case None => otherwise
    case Some(text) => match Atoi(text) case Some(n) => n case None => otherwise
  }

  function Folded(arg: Option<string>, fold: string -> string, otherwise: string): string {
    match arg
    case None => otherwise
    case Some(text) => fold(text)
  }

  /** The values of the scalar fields. */
  datatype Scalars = Scalars(
    port: int, permitRootLogin: string, x11DisplayOffset: int, logLevel: string, syslogFacility: string)

  /** What the lines make of them: each field has the value of its last directive, if it has one. */
  function ScalarsAfter(lines: seq<Line>, before: Scalars): Scalars {
    Scalars(
      Number(LastValue(lines, "port"), before.port),
      Folded(LastValue(lines, "permitrootlogin"), ToLower, before.permitRootLogin),
      Number(LastValue(lines, "x11displayoffset"), before.x11DisplayOffset),
      Folded(LastValue(lines, "loglevel"), ToUpper, before.logLevel),
      Folded(LastValue(lines, "syslogfacility"), ToUpper, before.syslogFacility))
  }

  lemma OneMoreLine(lines: seq<Line>, line: Line, name: string)
    ensures LastValue(lines + [line], name) ==
            if line.Directive? && line.name == name && |line.args| == 1 then Some(line.args[0])
            else LastValue(lines, name)
  {
    assert (lines + [line])[..|lines|] == lines;
  }

  /** The effect of one directive that was accepted. */
  function ScalarsWith(before: Scalars, name: string, args: seq<string>): Scalars {
    if |args| != 1 then before
    else
      match name
      case "port" => before.(port := Number(Some(args[0]), before.port))
      case "permitrootlogin" => before.(permitRootLogin := ToLower(args[0]))
      case "x11displayoffset" => before.(x11DisplayOffset := Number(Some(args[0]), before.x11DisplayOffset))
      case "loglevel" => before.(logLevel := ToUpper(args[0]))
      case "syslogfacility" => before.(syslogFacility := ToUpper(args[0]))
      case _ => before
  }

  function ScalarsWithLine(before: Scalars, line: Line): Scalars {
    if line.Directive? then ScalarsWith(before, line.name, line.args) else before
  }

  lemma ScalarsInTurn(lines: seq<Line>, line: Line, before: Scalars)
    requires line.Directive? ==> DirectiveAccepted(line.name, line.args, true)
    ensures ScalarsAfter(lines + [line], before) == ScalarsWithLine(ScalarsAfter(lines, before), line)
  {
    OneMoreLine(lines, line, "port");
    OneMoreLine(lines, line, "permitrootlogin");
    OneMoreLine(lines, line, "x11displayoffset");
    OneMoreLine(lines, line, "loglevel");
    OneMoreLine(lines, line, "syslogfacility");
  }

  class Config {
    var port: int
    var hostKey: seq<string>
    var permitRootLogin: string
    var x11DisplayOffset: int
    var logLevel: string
    var syslogFacility: string

    /** createDefaultConfig */
    constructor ()
      ensures WellFormed() && hostKey == DEFAULT_HOST_KEYS
      ensures Fields() == Scalars(22, "prohibit-password", 10, "INFO", "AUTH")
    {
      port, hostKey, permitRootLogin, x11DisplayOffset := 22, DEFAULT_HOST_KEYS, "prohibit-password", 10;
      logLevel, syslogFacility := "INFO", "AUTH";
      UpperAlready("INFO");
      UpperAlready("AUTH");
    }

    function Fields(): Scalars
      reads this
    {
      Scalars(port, permitRootLogin, x11DisplayOffset, logLevel, syslogFacility)
    }

    predicate WellFormed()
      reads this
    {
      && 1 <= port <= 65535 && IsRootLoginValue(permitRootLogin) && x11DisplayOffset >= 0
      && IsLogLevel(logLevel) && ToUpper(logLevel) == logLevel
      && IsSyslogFacility(syslogFacility) && ToUpper(syslogFacility) == syslogFacility
    }

    /** Every field is as it was. */
    twostate predicate Same()
      reads this
    {
      port == old(port) && hostKey == old(hostKey) && permitRootLogin == old(permitRootLogin) &&
      x11DisplayOffset == old(x11DisplayOffset) && logLevel == old(logLevel) && syslogFacility == old(syslogFacility)
    }

    method ParsePort(args: seq<string>) returns (ok: bool)
      modifies this`port
      ensures ok <==> |args| == 1 && Atoi(args[0]).Some? && 1 <= Atoi(args[0]).value <= 65535
      ensures port == if ok then Atoi(args[0]).value else old(port)
    {
      if |args| != 1 {
        return false;
      }
      var n := Atoi(args[0]);
      if n.None? || n.value < 1 || n.value > 65535 {
        return false;
      }
      port := n.value;
      ok := true;
    }

    method ParseHostKey(args: seq<string>) returns (ok: bool)
      modifies this`hostKey
      ensures ok <==> |args| == 1
      ensures hostKey == if ok then AddHostKey(old(hostKey), args[0]) else old(hostKey)
    {
      if |args| != 1 {
        return false;
      }
      if |hostKey| == 3 && hostKey[0] == "/etc/ssh/ssh_host_rsa_key" &&
         hostKey[1] == "/etc/ssh/ssh_host_ecdsa_key" && hostKey[2] == "/etc/ssh/ssh_host_ed25519_key" {
        assert hostKey == DEFAULT_HOST_KEYS;
        hostKey := [];
      }
      hostKey := hostKey + [args[0]];
      ok := true;
    }

    method ParsePermitRootLogin(args: seq<string>) returns (ok: bool)
      modifies this`permitRootLogin
      ensures ok <==> |args| == 1 && IsRootLoginValue(ToLower(args[0]))
      ensures permitRootLogin == if ok then ToLower(args[0]) else old(permitRootLogin)
    {
      if |args| != 1 {
        return false;
      }
      var value := ToLower(args[0]);
      if value != "yes" && value != "no" && value != "prohibit-password" && value != "forced-commands-only" {
        return false;
      }
      permitRootLogin := value;
      ok := true;
    }

    method ParseX11DisplayOffset(args: seq<string>) returns (ok: bool)
      modifies this`x11DisplayOffset
      ensures ok <==> |args| == 1 && Atoi(args[0]).Some? && Atoi(args[0]).value >= 0
      ensures x11DisplayOffset == if ok then Atoi(args[0]).value else old(x11DisplayOffset)
    {
      if |args| != 1 {
        return false;
      }
      var n := Atoi(args[0]);
      if n.None? || n.value < 0 {
        return false;
      }
      x11DisplayOffset := n.value;
      ok := true;
    }

    method ParseLogLevel(args: seq<string>) returns (ok: bool)
      modifies this`logLevel
      ensures ok <==> |args| == 1 && IsLogLevel(ToUpper(args[0]))
      ensures logLevel == if ok then ToUpper(args[0]) else old(logLevel)
    {
      if |args| != 1 {
        return false;
      }
      var level := ToUpper(args[0]);
      if !IsLogLevel(level) {
        return false;
      }
      logLevel := level;
      ok := true;
    }

    method ParseSyslogFacility(args: seq<string>) returns (ok: bool)
      modifies this`syslogFacility
      ensures ok <==> |args| == 1 && IsSyslogFacility(ToUpper(args[0]))
      ensures syslogFacility == if ok then ToUpper(args[0]) else old(syslogFacility)
    {
      if |args| != 1 {
        return false;
      }
      var facility := ToUpper(args[0]);
      if !IsSyslogFacility(facility) {
        return false;
      }
      syslogFacility := facility;
      ok := true;
    }

    /** parseDirective; otherOk says whether a directive on fields that are not modelled accepts its arguments */
    method ParseDirective(name: string, args: seq<string>, otherOk: bool) returns (ok: bool)
      modifies this
      ensures old(WellFormed()) ==> WellFormed()
      ensures ok <==> DirectiveAccepted(name, args, otherOk)
      ensures ok ==> hostKey == AddHostKeys(old(hostKey), HostKeyArgument(Directive(name, args)))
      ensures ok ==> Fields() == ScalarsWith(old(Fields()), name, args)
      ensures !ok ==> Same()
    {
      if |args| == 1 {
        UpperTwice(args[0]);
        assert [args[0]] == args && args[1..] == [];
      }
      match name
      case "port" => ok := ParsePort(args);
      case "hostkey" => ok := ParseHostKey(args);
      case "permitrootlogin" => ok := ParsePermitRootLogin(args);
      case "x11displayoffset" => ok := ParseX11DisplayOffset(args);
      case "loglevel" => ok := ParseLogLevel(args);
      case "syslogfacility" => ok := ParseSyslogFacility(args);
      case _ => ok := otherOk;
    }

    /** parseConfigLine */
    method ParseConfigLine(line: Line, otherOk: seq<string> -> bool) returns (ok: bool)
      modifies this
      ensures old(WellFormed()) ==> WellFormed()
      ensures ok <==> LineAccepted(line, otherOk)
      ensures ok ==> hostKey == AddHostKeys(old(hostKey), HostKeyArgument(line))
      ensures ok ==> Fields() == ScalarsWithLine(old(Fields()), line)
      ensures !ok ==> Same()
    {
      match line
      case Blank => ok := true;
      case Malformed => ok := false;
      case Directive(name, args) => ok := ParseDirective(name, args, otherOk([name] + args));
    }

    /** parseConfigFile: line by line, the first error ends it */
    method ParseConfigFile(lines: seq<Line>, otherOk: seq<string> -> bool) returns (ok: bool)
      modifies this
      ensures old(WellFormed()) ==> WellFormed()
      ensures ok ==> hostKey == AddHostKeys(old(hostKey), HostKeyArguments(lines))
      ensures ok <==> forall i :: 0 <= i < |lines| ==> LineAccepted(lines[i], otherOk)
      ensures ok ==> Fields() == ScalarsAfter(lines, old(Fields()))
    {
      for i := 0 to |lines|
        invariant old(WellFormed()) ==> WellFormed()
        invariant AddHostKeys(hostKey, HostKeyArguments(lines[i..])) ==
          AddHostKeys(old(hostKey), HostKeyArguments(lines))
        invariant forall j :: 0 <= j < i ==> LineAccepted(lines[j], otherOk)
        invariant Fields() == ScalarsAfter(lines[..i], old(Fields()))
      {
        NextLineKeys(hostKey, lines, i);
        var accepted := ParseConfigLine(lines[i], otherOk);
        if !accepted {
          return false;
        }
        NextLineScalars(lines, i, old(Fields()), otherOk);
      }
      assert lines[..|lines|] == lines;
      ok := true;
    }
  }

  lemma NextLineScalars(lines: seq<Line>, i: nat, before: Scalars, otherOk: seq<string> -> bool)
    requires i < |lines| && LineAccepted(lines[i], otherOk)
    ensures ScalarsAfter(lines[..i + 1], before) == ScalarsWithLine(ScalarsAfter(lines[..i], before), lines[i])
  {
    assert lines[..i] + [lines[i]] == lines[..i + 1];
    ScalarsInTurn(lines[..i], lines[i], before);
  }

  lemma NextLineKeys(keys: seq<string>, lines: seq<Line>, i: nat)
    requires i < |lines|
    ensures AddHostKeys(keys, HostKeyArguments(lines[i..])) ==
            AddHostKeys(AddHostKeys(keys, HostKeyArgument(lines[i])), HostKeyArguments(lines[i + 1..]))
  {
    assert lines[i..][1..] == lines[i + 1..];
    AddAppend(keys, HostKeyArgument(lines[i]), HostKeyArguments(lines[i + 1..]));
  }

  lemma {:induction false} AddAppend(keys: seq<string>, a: seq<string>, b: seq<string>)
    ensures AddHostKeys(keys, a + b) == AddHostKeys(AddHostKeys(keys, a), b)
    decreases |a|
  {
    if a == [] {
      assert a + b == b;
    } else {
      assert (a + b)[1..] == a[1..] + b;
      AddAppend(AddHostKey(keys, a[0]), a[1..], b);
    }
  }

  /** Load: defaults, then the file; what comes out is well formed, and holds the HostKey directives. */
  method Load(lines: seq<Line>, otherOk: seq<string> -> bool) returns (cfg: Config, ok: bool)
    ensures fresh(cfg) && cfg.WellFormed()
    ensures ok <==> forall i :: 0 <= i < |lines| ==> LineAccepted(lines[i], otherOk)
    ensures ok ==> cfg.Fields() == ScalarsAfter(lines, Scalars(22, "prohibit-password", 10, "INFO", "AUTH"))
    ensures ok && HostKeyArguments(lines) == [] ==> cfg.hostKey == DEFAULT_HOST_KEYS
    ensures ok && HostKeyArguments(lines) != [] ==> cfg.hostKey == WithoutLeadingDefaults(HostKeyArguments(lines))
    ensures SetLogLevelAccepts(cfg.logLevel) && SyslogAccepts(cfg.syslogFacility)
  {
    cfg := new Config();
    ok := cfg.ParseConfigFile(lines, otherOk);
    if HostKeyArguments(lines) != [] {
      HostKeysStored(HostKeyArguments(lines));
    }
  }

  lemma UpperTwice(s: string)
    ensures ToUpper(ToUpper(s)) == ToUpper(s)
  {
  }

  lemma UpperAlready(s: string)
    requires forall i :: 0 <= i < |s| ==> !('a' <= s[i] <= 'z')
    ensures ToUpper(s) == s
  {
  }
}
