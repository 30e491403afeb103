/** What the nine passes of Validate report, and what the reports mean. */
module ValidationReports {
  import opened Text
  import opened Validation
  import Config

  datatype Stat = Exists | Missing | Unreadable

  /** What the passes ask outside the configuration. */
  datatype World = World(
    stat: string -> Stat,
    isIP: string -> bool,
    isHostname: string -> bool,
    canAppend: string -> bool,
    dir: string -> string,
    base: string -> string)

  /** The fields that Validate reads; subsystems are listed in the order in which the map happens to be walked. */
  datatype Settings = Settings(
    port: int,
    listenAddress: seq<string>,
    hostKey: seq<string>,
    password: bool,
    pubkey: bool,
    authorizedKeysFile: seq<string>,
    permitRootLogin: string,
    allowUsers: seq<string>,
    denyUsers: seq<string>,
    logLevel: string,
    logFile: string,
    tcpForwarding: bool,
    gatewayPorts: bool,
    agentForwarding: bool,
    x11Forwarding: bool,
    subsystems: seq<(string, string)>)

  function PortIssues(port: int): seq<Issue> {
    if port < 1 || port > 65535 then [Issue(Error, Port, Plain)]
    else If(port < 1024, Issue(Warning, Port, Plain)) + If(port != 22, Issue(Info, Port, Plain))
  }

  /** A listen address that the address pass lets through. */
  predicate GoodAddress(a: string, w: World) {
    a == "0.0.0.0" || a == "::" || w.isIP(a) || w.isHostname(a)
  }

  /** validateAddressFormat */
  function FormatIssues(a: string, w: World): seq<Issue> {
    if a == "0.0.0.0" || a == "::" then [Issue(Info, ListenAddress, About(a))]
    else If(!w.isIP(a) && !w.isHostname(a), Issue(Error, ListenAddress, About(a)))
  }

  /** What the pass reports on the addresses: an address that came before is a duplicate and is not looked at. */
  function AddressIssues(addresses: seq<string>, w: World): seq<Issue> {
    if addresses == [] then []
    else
      var before, a := addresses[..|addresses| - 1], addresses[|addresses| - 1];
      AddressIssues(before, w) +
      if a in before then [Issue(Warning, ListenAddress, Repeated(a))] else FormatIssues(a, w)
  }

  /** detectKeyType; "" for none */
  function KeyType(path: string, w: World): string {
    var name := w.base(path);
    if Contains(name, "ed25519") then "ed25519"
    else if Contains(name, "ecdsa") then "ecdsa"
    else if Contains(name, "rsa") then "rsa"
    else if Contains(name, "dsa") then "dsa"
    else ""
  }

  /** The key types seen on these paths. */
  function KeyTypes(paths: seq<string>, w: World): set<string> {
    if paths == [] then {}
    else
      var t := KeyType(paths[|paths| - 1], w);
      KeyTypes(paths[..|paths| - 1], w) + if t != "" then {t} else {}
  }

  function AccessIssues(path: string, w: World): seq<Issue> {
    match w.stat(path)
    case Exists => []
    case Missing => [Issue(Warning, HostKey, About(path))]
    case Unreadable => [Issue(Error, HostKey, About(path))]
  }

  /** What checking one more key adds. */
  function KeyReport(path: string, types: set<string>, w: World): seq<Issue> {
    var t := KeyType(path, w);
    AccessIssues(path, w) + If(t != "" && t in types, Issue(Warning, HostKey, Repeated(t)))
  }

  function KeyIssues(paths: seq<string>, w: World): seq<Issue> {
    if paths == [] then []
    else
      var before, path := paths[..|paths| - 1], paths[|paths| - 1];
      KeyIssues(before, w) + KeyReport(path, KeyTypes(before, w), w)
  }

  function HostKeyIssues(paths: seq<string>, w: World): seq<Issue> {
    if paths == [] then [Issue(Error, HostKey, Plain)]
    else
      KeyIssues(paths, w) +
      If("ed25519" !in KeyTypes(paths, w) && "ecdsa" !in KeyTypes(paths, w), Issue(Info, HostKey, Plain))
  }

  function FileIssues(files: seq<string>): seq<Issue> {
    if files == [] then []
    else
      var f := files[|files| - 1];
      FileIssues(files[..|files| - 1]) + If(Contains(f, ".."), Issue(Error, AuthorizedKeysFile, About(f)))
  }

  function AuthenticationIssues(s: Settings): seq<Issue> {
    If(!s.password && !s.pubkey, Issue(Error, Authentication, Plain)) +
    If(s.password, Issue(Warning, PasswordAuthentication, Plain)) +
    FileIssues(s.authorizedKeysFile)
  }

  function RootLoginIssues(value: string): seq<Issue> {
    if !Config.IsRootLoginValue(value) then [Issue(Error, PermitRootLogin, About(value))]
    else If(value == "yes", Issue(Warning, PermitRootLogin, Plain))
  }

  /** One warning for every denied entry equal to user. */
  function DeniedToo(user: string, denied: seq<string>): seq<Issue> {
    if denied == [] then []
    else
      DeniedToo(user, denied[..|denied| - 1]) + If(user == denied[|denied| - 1], Issue(Warning, UserLists, About(user)))
  }

  function ConflictIssues(allowed: seq<string>, denied: seq<string>): seq<Issue>
    decreases |allowed|
  {
    if allowed == [] then []
    else ConflictIssues(allowed[..|allowed| - 1], denied) + DeniedToo(allowed[|allowed| - 1], denied)
  }

  predicate IsDebug(level: string) {
    level == "DEBUG" || level == "DEBUG1" || level == "DEBUG2" || level == "DEBUG3"
  }

  function LoggingIssues(s: Settings, w: World): seq<Issue> {
    If(IsDebug(s.logLevel), Issue(Info, LogLevel, Plain)) +
    If(s.logFile != "" && w.stat(w.dir(s.logFile)).Missing?, Issue(Error, LogFile, About(w.dir(s.logFile)))) +
    If(s.logFile != "" && !w.canAppend(s.logFile), Issue(Warning, LogFile, About(s.logFile)))
  }

  function ForwardingIssues(s: Settings): seq<Issue> {
    If(s.tcpForwarding && s.gatewayPorts, Issue(Warning, GatewayPorts, Plain)) +
    If(s.agentForwarding, Issue(Info, AgentForwarding, Plain)) +
    If(s.x11Forwarding, Issue(Info, X11Forwarding, Plain))
  }

  function StatIssues(name: string, stat: Stat): seq<Issue> {
    match stat
    case Exists => []
    case Missing => [Issue(Error, Subsystem, About(name))]
    case Unreadable => [Issue(Warning, Subsystem, About(name))]
  }

  function BinaryIssues(name: string, path: string, w: World): seq<Issue> {
    StatIssues(name, w.stat(path)) +
    If(name == "sftp" && !Contains(path, "sftp"), Issue(Warning, Subsystem, Odd(path)))
  }

  function SubsystemIssues(subsystems: seq<(string, string)>, w: World): seq<Issue> {
    if subsystems == [] then []
    else
      var b := subsystems[|subsystems| - 1];
      SubsystemIssues(subsystems[..|subsystems| - 1], w) + BinaryIssues(b.0, b.1, w)
  }

  predicate HasSftp(subsystems: seq<(string, string)>) {
    exists i :: 0 <= i < |subsystems| && subsystems[i].0 == "sftp"
  }

  function CrossIssues(s: Settings): seq<Issue> {
    If(!s.password && !s.pubkey && |s.allowUsers| > 0, Issue(Warning, Authentication, Plain)) +
    If(s.permitRootLogin == "yes" && s.password, Issue(Error, Security, Plain))
  }

  /** The reports of the first four passes. */
  function FirstIssues(s: Settings, w: World): seq<Issue> {
    PortIssues(s.port) + AddressIssues(s.listenAddress, w) + HostKeyIssues(s.hostKey, w) + AuthenticationIssues(s)
  }

  /** The reports of the first six passes. */
  function EarlyIssues(s: Settings, w: World): seq<Issue> {
    FirstIssues(s, w) + RootLoginIssues(s.permitRootLogin) + ConflictIssues(s.allowUsers, s.denyUsers) +
    LoggingIssues(s, w)
  }

  /** Everything that the nine passes report, in their order. */
  function AllIssues(s: Settings, w: World): seq<Issue> {
    EarlyIssues(s, w) + ForwardingIssues(s) + SubsystemIssues(s.subsystems, w) +
    If(!HasSftp(s.subsystems), Issue(Info, Subsystem, Plain)) + CrossIssues(s)
  }

  /** The directives with an error among the issues. */
  function Errors(issues: seq<Issue>): set<Directive> {
    if issues == [] then {}
    else On(issues[0].level.Error?, issues[0].directive) + Errors(issues[1..])
  }

  function On(condition: bool, directive: Directive): set<Directive> {
    if condition then {directive} else {}
  }

  lemma {:induction false} ErrorsAppend(a: seq<Issue>, b: seq<Issue>)
    ensures Errors(a + b) == Errors(a) + Errors(b)
  {
    if a == [] {
      assert a + b == b;
    } else {
      assert (a + b)[1..] == a[1..] + b;
      ErrorsAppend(a[1..], b);
    }
  }

  lemma {:induction false} NoErrorsCounted(issues: seq<Issue>)
    ensures AtLevel(issues, Error) == [] <==> Errors(issues) == {}
  {
    if issues != [] {
      NoErrorsCounted(issues[1..]);
    }
  }

  /** The directives of the first four passes that the settings get wrong. */
  function FirstWrong(s: Settings, w: World): set<Directive> {
    On(!(1 <= s.port <= 65535), Port) +
    On(exists a <- s.listenAddress :: !GoodAddress(a, w), ListenAddress) +
    On(s.hostKey == [] || exists k <- s.hostKey :: w.stat(k).Unreadable?, HostKey) +
    On(!s.password && !s.pubkey, Authentication) +
    On(exists f <- s.authorizedKeysFile :: Contains(f, ".."), AuthorizedKeysFile)
  }

  /** The directives that the settings get wrong. */
  function Wrong(s: Settings, w: World): set<Directive> {
    FirstWrong(s, w) +
    On(!Config.IsRootLoginValue(s.permitRootLogin), PermitRootLogin) +
    On(s.logFile != "" && w.stat(w.dir(s.logFile)).Missing?, LogFile) +
    On(exists b <- s.subsystems :: w.stat(b.1).Missing?, Subsystem) +
    On(s.permitRootLogin == "yes" && s.password, Security)
  }

  lemma ErrorsOfIf(condition: bool, issue: Issue)
    ensures Errors(If(condition, issue)) == On(condition && issue.level.Error?, issue.directive)
  {
    assert condition ==> If(condition, issue)[1..] == [];
  }

  lemma LastOr<T>(s: seq<T>)
    requires s != []
    ensures forall x <- s :: x in s[..|s| - 1] || x == s[|s| - 1]
    ensures forall x <- s[..|s| - 1] :: x in s
  {
    assert s == s[..|s| - 1] + [s[|s| - 1]];
  }

  /** A repeated address is only called a duplicate, but its first occurrence was looked at. */
  lemma {:induction false} AddressErrors(addresses: seq<string>, w: World)
    ensures Errors(AddressIssues(addresses, w)) == On(exists a <- addresses :: !GoodAddress(a, w), ListenAddress)
  {
    if addresses != [] {
      var before, a := addresses[..|addresses| - 1], addresses[|addresses| - 1];
      AddressErrors(before, w);
      LastOr(addresses);
      ErrorsAppend(AddressIssues(before, w),
        if a in before then [Issue(Warning, ListenAddress, Repeated(a))] else FormatIssues(a, w));
      ErrorsOfIf(true, Issue(Warning, ListenAddress, Repeated(a)));
      FormatErrors(a, w);
      assert a in addresses;
    }
  }

  lemma FormatErrors(a: string, w: World)
    ensures Errors(FormatIssues(a, w)) == On(!GoodAddress(a, w), ListenAddress)
  {
  }

  lemma {:induction false} KeyErrors(paths: seq<string>, w: World)
    ensures Errors(KeyIssues(paths, w)) == On(exists k <- paths :: w.stat(k).Unreadable?, HostKey)
  {
    if paths != [] {
      var before, path := paths[..|paths| - 1], paths[|paths| - 1];
      var t := KeyType(path, w);
      var known := t != "" && t in KeyTypes(before, w);
      var second := If(known, Issue(Warning, HostKey, Repeated(t)));
      KeyErrors(before, w);
      LastOr(paths);
      ErrorsAppend(KeyIssues(before, w), AccessIssues(path, w) + second);
      ErrorsAppend(AccessIssues(path, w), second);
      ErrorsOfIf(known, Issue(Warning, HostKey, Repeated(t)));
      ErrorsOfIf(true, Issue(Warning, HostKey, About(path)));
      ErrorsOfIf(true, Issue(Error, HostKey, About(path)));
    }
  }

  lemma HostKeyErrors(paths: seq<string>, w: World)
    ensures Errors(HostKeyIssues(paths, w)) == On(paths == [] || exists k <- paths :: w.stat(k).Unreadable?, HostKey)
  {
    var legacy := "ed25519" !in KeyTypes(paths, w) && "ecdsa" !in KeyTypes(paths, w);
    ErrorsOfIf(legacy, Issue(Info, HostKey, Plain));
    ErrorsOfIf(true, Issue(Error, HostKey, Plain));
    ErrorsAppend(KeyIssues(paths, w), If(legacy, Issue(Info, HostKey, Plain)));
    KeyErrors(paths, w);
  }

  lemma {:induction false} FileErrors(files: seq<string>)
    ensures Errors(FileIssues(files)) == On(exists f <- files :: Contains(f, ".."), AuthorizedKeysFile)
  {
    if files != [] {
      var before, f := files[..|files| - 1], files[|files| - 1];
      FileErrors(before);
      LastOr(files);
      ErrorsAppend(FileIssues(before), If(Contains(f, ".."), Issue(Error, AuthorizedKeysFile, About(f))));
      ErrorsOfIf(Contains(f, ".."), Issue(Error, AuthorizedKeysFile, About(f)));
    }
  }

  lemma {:induction false} SubsystemErrors(subsystems: seq<(string, string)>, w: World)
    ensures Errors(SubsystemIssues(subsystems, w)) == On(exists b <- subsystems :: w.stat(b.1).Missing?, Subsystem)
  {
    if subsystems != [] {
      var before, b := subsystems[..|subsystems| - 1], subsystems[|subsystems| - 1];
      SubsystemErrors(before, w);
      LastOr(subsystems);
      ErrorsAppend(SubsystemIssues(before, w), BinaryIssues(b.0, b.1, w));
      BinaryErrors(b.0, b.1, w);
    }
  }

  lemma BinaryErrors(name: string, path: string, w: World)
    ensures Errors(BinaryIssues(name, path, w)) == On(w.stat(path).Missing?, Subsystem)
  {
    var odd := Issue(Warning, Subsystem, Odd(path));
    ErrorsOfIf(true, Issue(Error, Subsystem, About(name)));
    ErrorsOfIf(true, Issue(Warning, Subsystem, About(name)));
    ErrorsOfIf(name == "sftp" && !Contains(path, "sftp"), odd);
    ErrorsAppend(StatIssues(name, w.stat(path)), If(name == "sftp" && !Contains(path, "sftp"), odd));
  }

  lemma {:induction false} ConflictErrors(allowed: seq<string>, denied: seq<string>)
    ensures Errors(ConflictIssues(allowed, denied)) == {}
    decreases |allowed|
  {
    if allowed != [] {
      var before, user := allowed[..|allowed| - 1], allowed[|allowed| - 1];
      DeniedErrors(user, denied);
      ConflictErrors(before, denied);
      ErrorsAppend(ConflictIssues(before, denied), DeniedToo(user, denied));
    }
  }

  lemma {:induction false} DeniedErrors(user: string, denied: seq<string>)
    ensures Errors(DeniedToo(user, denied)) == {}
  {
    if denied != [] {
      var before, both := denied[..|denied| - 1], Issue(Warning, UserLists, About(user));
      DeniedErrors(user, before);
      ErrorsAppend(DeniedToo(user, before), If(user == denied[|denied| - 1], both));
      ErrorsOfIf(user == denied[|denied| - 1], both);
    }
  }

  lemma ErrorsOfThree(a: seq<Issue>, b: seq<Issue>, c: seq<Issue>)
    ensures Errors(a + b + c) == Errors(a) + Errors(b) + Errors(c)
  {
    ErrorsAppend(a, b);
    ErrorsAppend(a + b, c);
  }

  lemma AuthenticationErrors(s: Settings)
    ensures Errors(AuthenticationIssues(s)) ==
      On(!s.password && !s.pubkey, Authentication) +
      On(exists f <- s.authorizedKeysFile :: Contains(f, ".."), AuthorizedKeysFile)
  {
    ErrorsOfIf(!s.password && !s.pubkey, Issue(Error, Authentication, Plain));
    ErrorsOfIf(s.password, Issue(Warning, PasswordAuthentication, Plain));
    FileErrors(s.authorizedKeysFile);
    ErrorsOfThree(If(!s.password && !s.pubkey, Issue(Error, Authentication, Plain)),
      If(s.password, Issue(Warning, PasswordAuthentication, Plain)), FileIssues(s.authorizedKeysFile));
  }

  lemma PortErrors(port: int)
    ensures Errors(PortIssues(port)) == On(!(1 <= port <= 65535), Port)
  {
    ErrorsOfIf(true, Issue(Error, Port, Plain));
    ErrorsOfIf(port < 1024, Issue(Warning, Port, Plain));
    ErrorsOfIf(port != 22, Issue(Info, Port, Plain));
    ErrorsAppend(If(port < 1024, Issue(Warning, Port, Plain)), If(port != 22, Issue(Info, Port, Plain)));
  }

  lemma RootLoginErrors(value: string)
    ensures Errors(RootLoginIssues(value)) == On(!Config.IsRootLoginValue(value), PermitRootLogin)
  {
  }

  lemma LoggingErrors(s: Settings, w: World)
    ensures Errors(LoggingIssues(s, w)) == On(s.logFile != "" && w.stat(w.dir(s.logFile)).Missing?, LogFile)
  {
    var a, b := Issue(Info, LogLevel, Plain), Issue(Error, LogFile, About(w.dir(s.logFile)));
    var c := Issue(Warning, LogFile, About(s.logFile));
    ErrorsOfIf(IsDebug(s.logLevel), a);
    ErrorsOfIf(s.logFile != "" && w.stat(w.dir(s.logFile)).Missing?, b);
    ErrorsOfIf(s.logFile != "" && !w.canAppend(s.logFile), c);
    ErrorsOfThree(If(IsDebug(s.logLevel), a), If(s.logFile != "" && w.stat(w.dir(s.logFile)).Missing?, b),
      If(s.logFile != "" && !w.canAppend(s.logFile), c));
  }

  lemma ForwardingErrors(s: Settings)
    ensures Errors(ForwardingIssues(s)) == {}
  {
    var a, b := Issue(Warning, GatewayPorts, Plain), Issue(Info, AgentForwarding, Plain);
    var c := Issue(Info, X11Forwarding, Plain);
    ErrorsOfIf(s.tcpForwarding && s.gatewayPorts, a);
    ErrorsOfIf(s.agentForwarding, b);
    ErrorsOfIf(s.x11Forwarding, c);
    ErrorsOfThree(If(s.tcpForwarding && s.gatewayPorts, a), If(s.agentForwarding, b), If(s.x11Forwarding, c));
  }

  lemma CrossErrors(s: Settings)
    ensures Errors(CrossIssues(s)) == On(s.permitRootLogin == "yes" && s.password, Security)
  {
  }

  lemma ErrorsOfPasses(p: seq<Issue>, q: seq<Issue>, r: seq<Issue>, s: seq<Issue>)
    ensures Errors(p + q + r + s) == Errors(p) + Errors(q) + Errors(r) + Errors(s)
  {
    ErrorsOfThree(p, q, r);
    ErrorsAppend(p + q + r, s);
  }

  lemma FirstErrors(s: Settings, w: World)
    ensures Errors(FirstIssues(s, w)) == FirstWrong(s, w)
  {
    ErrorsOfPasses(PortIssues(s.port), AddressIssues(s.listenAddress, w), HostKeyIssues(s.hostKey, w),
      AuthenticationIssues(s));
    PortErrors(s.port);
    AddressErrors(s.listenAddress, w);
    HostKeyErrors(s.hostKey, w);
    AuthenticationErrors(s);
  }

  lemma EarlyErrors(s: Settings, w: World)
    ensures Errors(EarlyIssues(s, w)) ==
      Errors(FirstIssues(s, w)) + On(!Config.IsRootLoginValue(s.permitRootLogin), PermitRootLogin) + {} +
      On(s.logFile != "" && w.stat(w.dir(s.logFile)).Missing?, LogFile)
  {
    ErrorsOfPasses(FirstIssues(s, w), RootLoginIssues(s.permitRootLogin), ConflictIssues(s.allowUsers, s.denyUsers),
      LoggingIssues(s, w));
    RootLoginErrors(s.permitRootLogin);
    ConflictErrors(s.allowUsers, s.denyUsers);
    LoggingErrors(s, w);
  }

  lemma LateErrors(s: Settings, w: World)
    ensures Errors(AllIssues(s, w)) ==
      Errors(EarlyIssues(s, w)) + {} + On(exists b <- s.subsystems :: w.stat(b.1).Missing?, Subsystem) + {} +
      On(s.permitRootLogin == "yes" && s.password, Security)
  {
    var sftp := If(!HasSftp(s.subsystems), Issue(Info, Subsystem, Plain));
    ErrorsOfPasses(EarlyIssues(s, w), ForwardingIssues(s), SubsystemIssues(s.subsystems, w), sftp);
    ErrorsAppend(EarlyIssues(s, w) + ForwardingIssues(s) + SubsystemIssues(s.subsystems, w) + sftp, CrossIssues(s));
    ForwardingErrors(s);
    SubsystemErrors(s.subsystems, w);
    ErrorsOfIf(!HasSftp(s.subsystems), Issue(Info, Subsystem, Plain));
    CrossErrors(s);
  }

  /** The nine passes report an error on exactly the directives that the settings get wrong. */
  lemma ErrorsAreWhatIsWrong(s: Settings, w: World)
    ensures Errors(AllIssues(s, w)) == Wrong(s, w)
  {
    FirstErrors(s, w);
    EarlyErrors(s, w);
    LateErrors(s, w);
  }

  // ------------------------------------------------------------------- how often each issue is reported

  /** How often x occurs. */
  function Times<T(==)>(s: seq<T>, x: T): nat {
    if s == [] then 0 else Times(s[..|s| - 1], x) + if s[|s| - 1] == x then 1 else 0
  }

  lemma {:induction false} TimesAppend<T>(a: seq<T>, b: seq<T>, x: T)
    ensures Times(a + b, x) == Times(a, x) + Times(b, x)
    decreases |b|
  {
    if b == [] {
      assert a + b == a;
    } else {
      assert (a + b)[..|a + b| - 1] == a + b[..|b| - 1];
      TimesAppend(a, b[..|b| - 1], x);
    }
  }

  lemma {:induction false} TimesIn<T>(s: seq<T>, x: T)
    ensures Times(s, x) > 0 <==> x in s
  {
    if s != [] {
      TimesIn(s[..|s| - 1], x);
      LastOr(s);
      assert s[|s| - 1] in s;
    }
  }

  lemma TimesOne(issue: Issue, x: Issue)
    ensures Times([issue], x) == if issue == x then 1 else 0
    ensures forall c :: Times(If(c, issue), x) == if c && issue == x then 1 else 0
  {
    assert [issue][..0] == [];
  }

  /** The later occurrences of an address, and only they, are reported as duplicates. */
  lemma {:induction false} LaterOccurrencesAreDuplicates(addresses: seq<string>, w: World, a: string)
    ensures Times(AddressIssues(addresses, w), Issue(Warning, ListenAddress, Repeated(a))) ==
            if a in addresses then Times(addresses, a) - 1 else 0
  {
    if addresses != [] {
      var before, last := addresses[..|addresses| - 1], addresses[|addresses| - 1];
      var duplicate := Issue(Warning, ListenAddress, Repeated(a));
      LaterOccurrencesAreDuplicates(before, w, a);
      TimesIn(before, a);
      TimesIn(addresses, a);
      TimesAppend(AddressIssues(before, w),
        if last in before then [Issue(Warning, ListenAddress, Repeated(last))] else FormatIssues(last, w), duplicate);
      TimesOne(Issue(Warning, ListenAddress, Repeated(last)), duplicate);
      TimesOne(Issue(Info, ListenAddress, About(last)), duplicate);
      TimesOne(Issue(Error, ListenAddress, About(last)), duplicate);
    }
  }

  /** Every address is looked at exactly once, however often it is listed. */
  lemma {:induction false} LookedAtOnce(addresses: seq<string>, w: World, a: string, x: Issue)
    requires x.message == About(a)
    ensures Times(AddressIssues(addresses, w), x) == if a in addresses then Times(FormatIssues(a, w), x) else 0
  {
    if addresses != [] {
      var before, last := addresses[..|addresses| - 1], addresses[|addresses| - 1];
      LookedAtOnce(before, w, a, x);
      LastOr(addresses);
      assert last in addresses;
      TimesAppend(AddressIssues(before, w),
        if last in before then [Issue(Warning, ListenAddress, Repeated(last))] else FormatIssues(last, w), x);
      TimesOne(Issue(Warning, ListenAddress, Repeated(last)), x);
      TimesOne(Issue(Info, ListenAddress, About(last)), x);
      TimesOne(Issue(Error, ListenAddress, About(last)), x);
    }
  }

  /** The types of the keys at these paths, in order. */
  function TypesOf(paths: seq<string>, w: World): seq<string> {
    if paths == [] then [] else TypesOf(paths[..|paths| - 1], w) + [KeyType(paths[|paths| - 1], w)]
  }

  lemma {:induction false} KeyTypesAre(paths: seq<string>, w: World, t: string)
    ensures t in KeyTypes(paths, w) <==> t != "" && t in TypesOf(paths, w)
  {
    if paths != [] {
      KeyTypesAre(paths[..|paths| - 1], w, t);
    }
  }

  /** Each type of key is reported once for every key of that type but the first. */
  lemma {:induction false} LaterKeysRepeatType(paths: seq<string>, w: World, t: string)
    requires t != ""
    ensures Times(KeyIssues(paths, w), Issue(Warning, HostKey, Repeated(t))) ==
            if Times(TypesOf(paths, w), t) > 0 then Times(TypesOf(paths, w), t) - 1 else 0
  {
    if paths != [] {
      var before, last := paths[..|paths| - 1], paths[|paths| - 1];
      LaterKeysRepeatType(before, w, t);
      OneMoreKey(paths, w, t);
    }
  }

  /** The reports on all paths are those on all but the last, and those on the last. */
  lemma KeyIssuesInTurn(paths: seq<string>, w: World, x: Issue)
    requires paths != []
    ensures var before := paths[..|paths| - 1];
            Times(KeyIssues(paths, w), x) ==
            Times(KeyIssues(before, w), x) + Times(KeyReport(paths[|paths| - 1], KeyTypes(before, w), w), x)
  {
    var before := paths[..|paths| - 1];
    TimesAppend(KeyIssues(before, w), KeyReport(paths[|paths| - 1], KeyTypes(before, w), w), x);
  }

  lemma TypesInTurn(paths: seq<string>, w: World, t: string)
    requires paths != []
    ensures Times(TypesOf(paths, w), t) ==
            Times(TypesOf(paths[..|paths| - 1], w), t) + if KeyType(paths[|paths| - 1], w) == t then 1 else 0
  {
    var types, own := TypesOf(paths[..|paths| - 1], w), KeyType(paths[|paths| - 1], w);
    assert (types + [own])[..|types|] == types;
  }

  lemma OneMoreKey(paths: seq<string>, w: World, t: string)
    requires t != "" && paths != []
    ensures var before, last := paths[..|paths| - 1], paths[|paths| - 1];
            var x := Issue(Warning, HostKey, Repeated(t));
            && Times(KeyIssues(paths, w), x) ==
               Times(KeyIssues(before, w), x) +
               (if KeyType(last, w) == t && Times(TypesOf(before, w), t) > 0 then 1 else 0)
            && Times(TypesOf(paths, w), t) == Times(TypesOf(before, w), t) + if KeyType(last, w) == t then 1 else 0
  {
    var before, last := paths[..|paths| - 1], paths[|paths| - 1];
    KeyIssuesInTurn(paths, w, Issue(Warning, HostKey, Repeated(t)));
    TypesInTurn(paths, w, t);
    KeyTypesAre(before, w, t);
    TimesIn(TypesOf(before, w), t);
    RepeatedInReport(last, KeyTypes(before, w), w, t);
  }

  lemma RepeatedInReport(path: string, types: set<string>, w: World, t: string)
    requires t != ""
    ensures Times(KeyReport(path, types, w), Issue(Warning, HostKey, Repeated(t))) ==
            if KeyType(path, w) == t && t in types then 1 else 0
  {
    var x, own := Issue(Warning, HostKey, Repeated(t)), KeyType(path, w);
    TimesAppend(AccessIssues(path, w), If(own != "" && own in types, Issue(Warning, HostKey, Repeated(own))), x);
    TimesOne(Issue(Warning, HostKey, Repeated(own)), x);
    TimesOne(Issue(Warning, HostKey, About(path)), x);
    TimesOne(Issue(Error, HostKey, About(path)), x);
  }

  /** Each key file that is missing or cannot be read is reported as often as it is listed. */
  lemma {:induction false} EachKeyIsChecked(paths: seq<string>, w: World, path: string, x: Issue)
    requires x == Issue(if w.stat(path).Missing? then Warning else Error, HostKey, About(path))
    ensures Times(KeyIssues(paths, w), x) == if w.stat(path).Exists? then 0 else Times(paths, path)
  {
    if paths != [] {
      var before, last := paths[..|paths| - 1], paths[|paths| - 1];
      EachKeyIsChecked(before, w, path, x);
      KeyIssuesInTurn(paths, w, x);
      CheckedInReport(last, KeyTypes(before, w), w, path, x);
    }
  }

  lemma CheckedInReport(last: string, types: set<string>, w: World, path: string, x: Issue)
    requires x == Issue(if w.stat(path).Missing? then Warning else Error, HostKey, About(path))
    ensures Times(KeyReport(last, types, w), x) == if last == path && !w.stat(path).Exists? then 1 else 0
  {
    var own := KeyType(last, w);
    TimesAppend(AccessIssues(last, w), If(own != "" && own in types, Issue(Warning, HostKey, Repeated(own))), x);
    TimesOne(Issue(Warning, HostKey, Repeated(own)), x);
    TimesOne(Issue(Warning, HostKey, About(last)), x);
    TimesOne(Issue(Error, HostKey, About(last)), x);
  }

  /** The warnings about a user are as many as its pairs of an allowed and a denied entry. */
  lemma {:induction false} WarningsAreEqualPairs(allowed: seq<string>, denied: seq<string>, user: string)
    ensures Times(ConflictIssues(allowed, denied), Issue(Warning, UserLists, About(user))) ==
            Times(allowed, user) * Times(denied, user)
    decreases |allowed|
  {
    if allowed != [] {
      var before, last := allowed[..|allowed| - 1], allowed[|allowed| - 1];
      WarningsAreEqualPairs(before, denied, user);
      OneMoreAllowed(before, last, denied, user);
      assert before + [last] == allowed;
      Distribute(Times(before, user), Times(denied, user));
    }
  }

  lemma Distribute(n: nat, m: nat)
    ensures (n + 1) * m == n * m + m
  {
  }

  lemma OneMoreAllowed(before: seq<string>, last: string, denied: seq<string>, user: string)
    ensures var x := Issue(Warning, UserLists, About(user));
            Times(ConflictIssues(before + [last], denied), x) ==
            Times(ConflictIssues(before, denied), x) + if last == user then Times(denied, user) else 0
  {
    assert (before + [last])[..|before|] == before;
    WarningsAboutOne(last, denied, user);
    TimesAppend(ConflictIssues(before, denied), DeniedToo(last, denied), Issue(Warning, UserLists, About(user)));
  }

  lemma {:induction false} WarningsAboutOne(user: string, denied: seq<string>, other: string)
    ensures Times(DeniedToo(user, denied), Issue(Warning, UserLists, About(other))) ==
            if user == other then Times(denied, user) else 0
  {
    if denied != [] {
      var before, same := denied[..|denied| - 1], user == denied[|denied| - 1];
      WarningsAboutOne(user, before, other);
      TimesAppend(DeniedToo(user, before), If(same, Issue(Warning, UserLists, About(user))),
        Issue(Warning, UserLists, About(other)));
      TimesOne(Issue(Warning, UserLists, About(user)), Issue(Warning, UserLists, About(other)));
    }
  }

  // ------------------------------------------------------------------- the order of the map

  lemma {:induction false} SubsystemsAppend(a: seq<(string, string)>, b: seq<(string, string)>, w: World)
    ensures SubsystemIssues(a + b, w) == SubsystemIssues(a, w) + SubsystemIssues(b, w)
    decreases |b|
  {
    if b == [] {
      assert a + b == a;
    } else {
      assert (a + b)[..|a + b| - 1] == a + b[..|b| - 1];
      SubsystemsAppend(a, b[..|b| - 1], w);
    }
  }

  /** What one entry contributes, wherever it is. */
  lemma OneSubsystem(left: seq<(string, string)>, b: (string, string), right: seq<(string, string)>, w: World, x: Issue)
    ensures Times(SubsystemIssues(left + [b] + right, w), x) ==
            Times(SubsystemIssues(left + right, w), x) + Times(BinaryIssues(b.0, b.1, w), x)
  {
    SubsystemsAppend(left + [b], right, w);
    SubsystemsAppend(left, right, w);
    assert (left + [b])[..|left|] == left;
    TimesAppend(SubsystemIssues(left + [b], w), SubsystemIssues(right, w), x);
    TimesAppend(SubsystemIssues(left, w), BinaryIssues(b.0, b.1, w), x);
    TimesAppend(SubsystemIssues(left, w), SubsystemIssues(right, w), x);
  }

  /** In whatever order the map of subsystems is walked, the same issues are reported. */
  lemma {:induction false} WalkOrderDoesNotMatter(a: seq<(string, string)>, b: seq<(string, string)>, w: World,
      x: Issue)
    requires multiset(a) == multiset(b)
    ensures Times(SubsystemIssues(a, w), x) == Times(SubsystemIssues(b, w), x)
    decreases |a|
  {
    if a == [] {
      assert |b| == |multiset(b)| == 0;
    } else {
      var front, last := a[..|a| - 1], a[|a| - 1];
      assert a == front + [last];
      var left, right := TakenOut(front, last, b);
      WalkOrderDoesNotMatter(front, left + right, w, x);
      PutBack(front, last, left, right, w, x);
    }
  }

  lemma PutBack(front: seq<(string, string)>, b: (string, string), left: seq<(string, string)>,
      right: seq<(string, string)>, w: World, x: Issue)
    requires Times(SubsystemIssues(front, w), x) == Times(SubsystemIssues(left + right, w), x)
    ensures Times(SubsystemIssues(front + [b], w), x) == Times(SubsystemIssues(left + [b] + right, w), x)
  {
    OneSubsystem(front, b, [], w, x);
    OneSubsystem(left, b, right, w, x);
    assert front + [b] + [] == front + [b] && front + [] == front;
  }

  lemma TakenOut<T>(front: seq<T>, last: T, b: seq<T>) returns (left: seq<T>, right: seq<T>)
    requires multiset(front + [last]) == multiset(b)
    ensures b == left + [last] + right && multiset(front) == multiset(left + right)
  {
    assert last in multiset(b);
    var i :| 0 <= i < |b| && b[i] == last;
    left, right := b[..i], b[i + 1..];
    assert b == left + [last] + right;
    assert multiset(front) == multiset(b) - multiset{last} == multiset(left + right);
  }
}
