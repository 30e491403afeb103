/** The table of every issue that Validate can report: under which condition, and how often. */
module ValidationTable {
  import opened Text
  import opened Validation
  import opened ValidationReports

  function Once(condition: bool): nat {
    if condition then 1 else 0
  }

  /** All but the first. */
  function Later(times: nat): nat {
    if times > 0 then times - 1 else 0
  }

  /** How many subsystems of this name have a binary in this state. */
  function BinariesLike(subsystems: seq<(string, string)>, name: string, stat: Stat, w: World): nat {
    if subsystems == [] then 0
    else
      var front, last := subsystems[..|subsystems| - 1], subsystems[|subsystems| - 1];
      BinariesLike(front, name, stat, w) + Once(last.0 == name && w.stat(last.1) == stat)
  }

  function PortTable(port: int, x: Issue): nat {
    match x
    case Issue(Error, Port, Plain) => Once(port < 1 || port > 65535)
    case Issue(Warning, Port, Plain) => Once(1 <= port <= 1023)
    case Issue(Info, Port, Plain) => Once(1 <= port <= 65535 && port != 22)
    case _ => 0
  }

  function AddressTable(addresses: seq<string>, w: World, x: Issue): nat {
    match x
    case Issue(Warning, ListenAddress, Repeated(a)) => Later(Times(addresses, a))
    case Issue(Info, ListenAddress, About(a)) => Once(a in addresses && (a == "0.0.0.0" || a == "::"))
    case Issue(Error, ListenAddress, About(a)) =>
      Once(a in addresses && a != "0.0.0.0" && a != "::" && !w.isIP(a) && !w.isHostname(a))
    case _ => 0
  }

  function KeyTable(paths: seq<string>, w: World, x: Issue): nat {
    match x
    case Issue(Error, HostKey, About(path)) => if w.stat(path).Unreadable? then Times(paths, path) else 0
    case Issue(Warning, HostKey, About(path)) => if w.stat(path).Missing? then Times(paths, path) else 0
    case Issue(Warning, HostKey, Repeated(t)) => if t == "" then 0 else Later(Times(TypesOf(paths, w), t))
    case _ => 0
  }

  function HostKeyTable(paths: seq<string>, w: World, x: Issue): nat {
    match x
    case Issue(Error, HostKey, Plain) => Once(paths == [])
    case Issue(Info, HostKey, Plain) =>
      Once(paths != [] && "ed25519" !in TypesOf(paths, w) && "ecdsa" !in TypesOf(paths, w))
    case _ => KeyTable(paths, w, x)
  }

  function AuthenticationTable(s: Settings, x: Issue): nat {
    match x
    case Issue(Error, Authentication, Plain) => Once(!s.password && !s.pubkey)
    case Issue(Warning, PasswordAuthentication, Plain) => Once(s.password)
    case Issue(Error, AuthorizedKeysFile, About(f)) => if Contains(f, "..") then Times(s.authorizedKeysFile, f) else 0
    case _ => 0
  }

  function RootLoginTable(value: string, x: Issue): nat {
    match x
    case Issue(Error, PermitRootLogin, About(v)) =>
      Once(v == value && value != "yes" && value != "no" && value != "prohibit-password" &&
           value != "forced-commands-only")
    case Issue(Warning, PermitRootLogin, Plain) => Once(value == "yes")
    case _ => 0
  }

  function ConflictTable(allowed: seq<string>, denied: seq<string>, x: Issue): nat {
    match x
    case Issue(Warning, UserLists, About(user)) => Times(allowed, user) * Times(denied, user)
    case _ => 0
  }

  function LoggingTable(s: Settings, w: World, x: Issue): nat {
    match x
    case Issue(Info, LogLevel, Plain) =>
      Once(s.logLevel == "DEBUG" || s.logLevel == "DEBUG1" || s.logLevel == "DEBUG2" || s.logLevel == "DEBUG3")
    case Issue(Error, LogFile, About(v)) =>
      Once(s.logFile != "" && v == w.dir(s.logFile) && w.stat(w.dir(s.logFile)).Missing?)
    case Issue(Warning, LogFile, About(v)) => Once(s.logFile != "" && v == s.logFile && !w.canAppend(s.logFile))
    case _ => 0
  }

  function ForwardingTable(s: Settings, x: Issue): nat {
    match x
    case Issue(Warning, GatewayPorts, Plain) => Once(s.tcpForwarding && s.gatewayPorts)
    case Issue(Info, AgentForwarding, Plain) => Once(s.agentForwarding)
    case Issue(Info, X11Forwarding, Plain) => Once(s.x11Forwarding)
    case _ => 0
  }

  function SubsystemTable(subsystems: seq<(string, string)>, w: World, x: Issue): nat {
    match x
    case Issue(Error, Subsystem, About(name)) => BinariesLike(subsystems, name, Missing, w)
    case Issue(Warning, Subsystem, About(name)) => BinariesLike(subsystems, name, Unreadable, w)
    case Issue(Warning, Subsystem, Odd(path)) => if Contains(path, "sftp") then 0 else Times(subsystems, ("sftp", path))
    case Issue(Info, Subsystem, Plain) => Once(forall b :: b in subsystems ==> b.0 != "sftp")
    case _ => 0
  }

  function CrossTable(s: Settings, x: Issue): nat {
    match x
    case Issue(Warning, Authentication, Plain) => Once(!s.password && !s.pubkey && s.allowUsers != [])
    case Issue(Error, Security, Plain) => Once(s.permitRootLogin == "yes" && s.password)
    case _ => 0
  }

  lemma TimesTwo(a: seq<Issue>, b: seq<Issue>, x: Issue)
    ensures Times(a + b, x) == Times(a, x) + Times(b, x)
  {
    TimesAppend(a, b, x);
  }

  lemma TimesThree(a: seq<Issue>, b: seq<Issue>, c: seq<Issue>, x: Issue)
    ensures Times(a + b + c, x) == Times(a, x) + Times(b, x) + Times(c, x)
  {
    TimesAppend(a, b, x);
    TimesAppend(a + b, c, x);
  }

  lemma TimesOfIf(condition: bool, issue: Issue, x: Issue)
    ensures Times(If(condition, issue), x) == Once(condition && issue == x)
    ensures Times([issue], x) == Once(issue == x)
  {
    TimesOne(issue, x);
  }

  lemma PortTableIs(port: int, x: Issue)
    ensures PortTable(port, x) ==
            if port < 1 || port > 65535 then Once(Issue(Error, Port, Plain) == x)
            else
              Once(port < 1024 && Issue(Warning, Port, Plain) == x) + Once(port != 22 && Issue(Info, Port, Plain) == x)
  {
  }

  lemma PortTimes(port: int, x: Issue)
    ensures Times(PortIssues(port), x) == PortTable(port, x)
  {
    TimesOfIf(true, Issue(Error, Port, Plain), x);
    PortNotesTimes(port, Issue(Warning, Port, Plain), Issue(Info, Port, Plain), x);
    PortTableIs(port, x);
  }

  lemma PortNotesTimes(port: int, low: Issue, other: Issue, x: Issue)
    ensures Times(If(port < 1024, low) + If(port != 22, other), x) ==
            Once(port < 1024 && low == x) + Once(port != 22 && other == x)
  {
    TimesOfIf(port < 1024, low, x);
    TimesOfIf(port != 22, other, x);
    TimesTwo(If(port < 1024, low), If(port != 22, other), x);
  }

  lemma {:induction false} NoOtherAddressIssues(addresses: seq<string>, w: World, x: Issue)
    requires forall a :: x != Issue(Warning, ListenAddress, Repeated(a))
    requires forall a :: Times(FormatIssues(a, w), x) == 0
    ensures Times(AddressIssues(addresses, w), x) == 0
  {
    if addresses != [] {
      var before, last := addresses[..|addresses| - 1], addresses[|addresses| - 1];
      NoOtherAddressIssues(before, w, x);
      TimesAppend(AddressIssues(before, w),
        if last in before then [Issue(Warning, ListenAddress, Repeated(last))] else FormatIssues(last, w), x);
      TimesOfIf(true, Issue(Warning, ListenAddress, Repeated(last)), x);
    }
  }

  lemma FormatTimes(a: string, w: World, x: Issue)
    ensures Times(FormatIssues(a, w), x) ==
            if a == "0.0.0.0" || a == "::" then Once(x == Issue(Info, ListenAddress, About(a)))
            else Once(x == Issue(Error, ListenAddress, About(a)) && !w.isIP(a) && !w.isHostname(a))
  {
    TimesOfIf(true, Issue(Info, ListenAddress, About(a)), x);
    TimesOfIf(!w.isIP(a) && !w.isHostname(a), Issue(Error, ListenAddress, About(a)), x);
  }

  lemma RepeatedAddressTimes(addresses: seq<string>, w: World, a: string)
    ensures var x := Issue(Warning, ListenAddress, Repeated(a));
            Times(AddressIssues(addresses, w), x) == AddressTable(addresses, w, x)
  {
    LaterOccurrencesAreDuplicates(addresses, w, a);
    TimesIn(addresses, a);
  }

  lemma FormatIsInTable(addresses: seq<string>, w: World, a: string, x: Issue)
    requires x.message == About(a)
    ensures AddressTable(addresses, w, x) == if a in addresses then Times(FormatIssues(a, w), x) else 0
  {
    FormatTimes(a, w, x);
  }

  lemma AddressTimes(addresses: seq<string>, w: World, x: Issue)
    ensures Times(AddressIssues(addresses, w), x) == AddressTable(addresses, w, x)
  {
    if x.message.About? {
      LookedAtOnce(addresses, w, x.message.value, x);
      FormatIsInTable(addresses, w, x.message.value, x);
    } else if x.level == Warning && x.directive == ListenAddress && x.message.Repeated? {
      RepeatedAddressTimes(addresses, w, x.message.value);
    } else {
      OtherAddressIssue(addresses, w, x);
    }
  }

  lemma OtherAddressIssue(addresses: seq<string>, w: World, x: Issue)
    requires !x.message.About? && forall a :: x != Issue(Warning, ListenAddress, Repeated(a))
    ensures Times(AddressIssues(addresses, w), x) == 0
  {
    forall a
      ensures Times(FormatIssues(a, w), x) == 0
    {
      FormatTimes(a, w, x);
    }
    NoOtherAddressIssues(addresses, w, x);
  }

  lemma ReportTimes(path: string, types: set<string>, w: World, x: Issue)
    ensures var t := KeyType(path, w);
            Times(KeyReport(path, types, w), x) ==
            Once(w.stat(path).Missing? && x == Issue(Warning, HostKey, About(path))) +
            Once(w.stat(path).Unreadable? && x == Issue(Error, HostKey, About(path))) +
            Once(t != "" && t in types && x == Issue(Warning, HostKey, Repeated(t)))
  {
    var t := KeyType(path, w);
    TimesOfIf(true, Issue(Warning, HostKey, About(path)), x);
    TimesOfIf(true, Issue(Error, HostKey, About(path)), x);
    TimesOfIf(t != "" && t in types, Issue(Warning, HostKey, Repeated(t)), x);
    TimesTwo(AccessIssues(path, w), If(t != "" && t in types, Issue(Warning, HostKey, Repeated(t))), x);
  }

  /** No key makes the pass report x. */
  predicate NoKeyGives(w: World, x: Issue) {
    match x
    case Issue(Warning, HostKey, About(path)) => !w.stat(path).Missing?
    case Issue(Error, HostKey, About(path)) => !w.stat(path).Unreadable?
    case Issue(Warning, HostKey, Repeated(t)) => t == ""
    case _ => true
  }

  lemma {:induction false} NoOtherKeyIssues(paths: seq<string>, w: World, x: Issue)
    requires NoKeyGives(w, x)
    ensures Times(KeyIssues(paths, w), x) == 0
  {
    if paths != [] {
      var before, last := paths[..|paths| - 1], paths[|paths| - 1];
      NoOtherKeyIssues(before, w, x);
      KeyIssuesInTurn(paths, w, x);
      ReportTimes(last, KeyTypes(before, w), w, x);
    }
  }

  lemma KeyTimes(paths: seq<string>, w: World, x: Issue)
    ensures Times(KeyIssues(paths, w), x) == KeyTable(paths, w, x)
  {
    if NoKeyGives(w, x) {
      NoOtherKeyIssues(paths, w, x);
    } else if x.message.Repeated? {
      LaterKeysRepeatType(paths, w, x.message.value);
    } else {
      EachKeyIsChecked(paths, w, x.message.value, x);
    }
  }

  lemma NoModernType(paths: seq<string>, w: World)
    ensures "ed25519" !in KeyTypes(paths, w) && "ecdsa" !in KeyTypes(paths, w) <==>
            "ed25519" !in TypesOf(paths, w) && "ecdsa" !in TypesOf(paths, w)
  {
    KeyTypesAre(paths, w, "ed25519");
    KeyTypesAre(paths, w, "ecdsa");
  }

  lemma KeysAndNote(paths: seq<string>, w: World, legacy: bool, x: Issue)
    ensures Times(KeyIssues(paths, w) + If(legacy, Issue(Info, HostKey, Plain)), x) ==
            if x == Issue(Info, HostKey, Plain) then Once(legacy) else KeyTable(paths, w, x)
  {
    KeyTimes(paths, w, x);
    TimesOfIf(legacy, Issue(Info, HostKey, Plain), x);
    TimesTwo(KeyIssues(paths, w), If(legacy, Issue(Info, HostKey, Plain)), x);
  }

  lemma NoKeysTable(w: World, x: Issue)
    ensures KeyTable([], w, x) == 0
  {
    assert TypesOf([], w) == [];
  }

  lemma KeyTableOnlyQuotes(paths: seq<string>, w: World, x: Issue)
    requires x.message.Plain?
    ensures KeyTable(paths, w, x) == 0
  {
  }

  lemma HostKeyTimes(paths: seq<string>, w: World, x: Issue)
    ensures Times(HostKeyIssues(paths, w), x) == HostKeyTable(paths, w, x)
  {
    if paths == [] {
      TimesOfIf(true, Issue(Error, HostKey, Plain), x);
      NoKeysTable(w, x);
    } else {
      var legacy := "ed25519" !in KeyTypes(paths, w) && "ecdsa" !in KeyTypes(paths, w);
      NoModernType(paths, w);
      KeysAndNote(paths, w, legacy, x);
      WithKeys(paths, w, legacy, x);
    }
  }

  lemma WithKeys(paths: seq<string>, w: World, legacy: bool, x: Issue)
    requires paths != []
    requires legacy == ("ed25519" !in TypesOf(paths, w) && "ecdsa" !in TypesOf(paths, w))
    ensures HostKeyTable(paths, w, x) ==
            if x == Issue(Info, HostKey, Plain) then Once(legacy) else KeyTable(paths, w, x)
  {
    if x.message.Plain? {
      KeyTableOnlyQuotes(paths, w, x);
    }
  }

  lemma {:induction false} FileTimes(files: seq<string>, x: Issue)
    ensures Times(FileIssues(files), x) ==
            match x
            case Issue(Error, AuthorizedKeysFile, About(f)) => if Contains(f, "..") then Times(files, f) else 0
            case _ => 0
  {
    if files != [] {
      var before, f := files[..|files| - 1], files[|files| - 1];
      FileTimes(before, x);
      TimesAppend(FileIssues(before), If(Contains(f, ".."), Issue(Error, AuthorizedKeysFile, About(f))), x);
      TimesOfIf(Contains(f, ".."), Issue(Error, AuthorizedKeysFile, About(f)), x);
    }
  }

  lemma AuthenticationTimes(s: Settings, x: Issue)
    ensures Times(AuthenticationIssues(s), x) == AuthenticationTable(s, x)
  {
    var a, b := Issue(Error, Authentication, Plain), Issue(Warning, PasswordAuthentication, Plain);
    TimesOfIf(!s.password && !s.pubkey, a, x);
    TimesOfIf(s.password, b, x);
    FileTimes(s.authorizedKeysFile, x);
    TimesThree(If(!s.password && !s.pubkey, a), If(s.password, b), FileIssues(s.authorizedKeysFile), x);
  }

  lemma RootLoginTimes(value: string, x: Issue)
    ensures Times(RootLoginIssues(value), x) == RootLoginTable(value, x)
  {
    TimesOfIf(true, Issue(Error, PermitRootLogin, About(value)), x);
    TimesOfIf(value == "yes", Issue(Warning, PermitRootLogin, Plain), x);
  }

  lemma {:induction false} NoOtherConflicts(allowed: seq<string>, denied: seq<string>, x: Issue)
    requires forall user :: x != Issue(Warning, UserLists, About(user))
    ensures Times(ConflictIssues(allowed, denied), x) == 0
    decreases |allowed|
  {
    if allowed != [] {
      var before, last := allowed[..|allowed| - 1], allowed[|allowed| - 1];
      NoOtherConflicts(before, denied, x);
      NoOtherDenials(last, denied, x);
      TimesAppend(ConflictIssues(before, denied), DeniedToo(last, denied), x);
    }
  }

  lemma {:induction false} NoOtherDenials(user: string, denied: seq<string>, x: Issue)
    requires x != Issue(Warning, UserLists, About(user))
    ensures Times(DeniedToo(user, denied), x) == 0
  {
    if denied != [] {
      var before, same := denied[..|denied| - 1], user == denied[|denied| - 1];
      NoOtherDenials(user, before, x);
      TimesAppend(DeniedToo(user, before), If(same, Issue(Warning, UserLists, About(user))), x);
      TimesOfIf(same, Issue(Warning, UserLists, About(user)), x);
    }
  }

  lemma ConflictTimes(allowed: seq<string>, denied: seq<string>, x: Issue)
    ensures Times(ConflictIssues(allowed, denied), x) == ConflictTable(allowed, denied, x)
  {
    match x
    case Issue(Warning, UserLists, About(user)) => WarningsAreEqualPairs(allowed, denied, user);
    case _ => NoOtherConflicts(allowed, denied, x);
  }

  lemma LoggingTimes(s: Settings, w: World, x: Issue)
    ensures Times(LoggingIssues(s, w), x) == LoggingTable(s, w, x)
  {
    var a, b := Issue(Info, LogLevel, Plain), Issue(Error, LogFile, About(w.dir(s.logFile)));
    var c := Issue(Warning, LogFile, About(s.logFile));
    TimesOfIf(IsDebug(s.logLevel), a, x);
    TimesOfIf(s.logFile != "" && w.stat(w.dir(s.logFile)).Missing?, b, x);
    TimesOfIf(s.logFile != "" && !w.canAppend(s.logFile), c, x);
    TimesThree(If(IsDebug(s.logLevel), a), If(s.logFile != "" && w.stat(w.dir(s.logFile)).Missing?, b),
      If(s.logFile != "" && !w.canAppend(s.logFile), c), x);
  }

  lemma ForwardingTimes(s: Settings, x: Issue)
    ensures Times(ForwardingIssues(s), x) == ForwardingTable(s, x)
  {
    var a, b := Issue(Warning, GatewayPorts, Plain), Issue(Info, AgentForwarding, Plain);
    var c := Issue(Info, X11Forwarding, Plain);
    TimesOfIf(s.tcpForwarding && s.gatewayPorts, a, x);
    TimesOfIf(s.agentForwarding, b, x);
    TimesOfIf(s.x11Forwarding, c, x);
    TimesThree(If(s.tcpForwarding && s.gatewayPorts, a), If(s.agentForwarding, b), If(s.x11Forwarding, c), x);
  }

  function BinaryTable(name: string, path: string, w: World, x: Issue): nat {
    match x
    case Issue(Error, Subsystem, About(n)) => Once(n == name && w.stat(path).Missing?)
    case Issue(Warning, Subsystem, About(n)) => Once(n == name && w.stat(path).Unreadable?)
    case Issue(Warning, Subsystem, Odd(p)) => Once(p == path && name == "sftp" && !Contains(path, "sftp"))
    case _ => 0
  }

  lemma BinariesInTurn(subsystems: seq<(string, string)>, w: World, x: Issue)
    requires subsystems != []
    ensures var before, b := subsystems[..|subsystems| - 1], subsystems[|subsystems| - 1];
            Times(SubsystemIssues(subsystems, w), x) ==
            Times(SubsystemIssues(before, w), x) + BinaryTable(b.0, b.1, w, x)
  {
    var before, b := subsystems[..|subsystems| - 1], subsystems[|subsystems| - 1];
    TimesAppend(SubsystemIssues(before, w), BinaryIssues(b.0, b.1, w), x);
    OneBinaryTimes(b.0, b.1, w, x);
  }

  lemma TableInTurn(subsystems: seq<(string, string)>, w: World, x: Issue)
    requires subsystems != [] && x != Issue(Info, Subsystem, Plain)
    ensures var before, b := subsystems[..|subsystems| - 1], subsystems[|subsystems| - 1];
            SubsystemTable(subsystems, w, x) == SubsystemTable(before, w, x) + BinaryTable(b.0, b.1, w, x)
  {
  }

  lemma {:induction false} BinaryTimes(subsystems: seq<(string, string)>, w: World, x: Issue)
    requires x != Issue(Info, Subsystem, Plain)
    ensures Times(SubsystemIssues(subsystems, w), x) == SubsystemTable(subsystems, w, x)
  {
    if subsystems != [] {
      BinaryTimes(subsystems[..|subsystems| - 1], w, x);
      BinariesInTurn(subsystems, w, x);
      TableInTurn(subsystems, w, x);
    }
  }

  lemma {:induction false} NoteIsNoBinary(subsystems: seq<(string, string)>, w: World)
    ensures Times(SubsystemIssues(subsystems, w), Issue(Info, Subsystem, Plain)) == 0
  {
    if subsystems != [] {
      NoteIsNoBinary(subsystems[..|subsystems| - 1], w);
      BinariesInTurn(subsystems, w, Issue(Info, Subsystem, Plain));
    }
  }

  lemma BinaryTableIs(name: string, path: string, w: World, x: Issue)
    ensures BinaryTable(name, path, w, x) ==
            Once((w.stat(path).Missing? && x == Issue(Error, Subsystem, About(name))) ||
                 (w.stat(path).Unreadable? && x == Issue(Warning, Subsystem, About(name)))) +
            Once(name == "sftp" && !Contains(path, "sftp") && Issue(Warning, Subsystem, Odd(path)) == x)
  {
  }

  lemma OneBinaryTimes(name: string, path: string, w: World, x: Issue)
    ensures Times(BinaryIssues(name, path, w), x) == BinaryTable(name, path, w, x)
  {
    StatTimes(name, w.stat(path), x);
    StatAndOdd(StatIssues(name, w.stat(path)), name == "sftp" && !Contains(path, "sftp"),
      Issue(Warning, Subsystem, Odd(path)), x);
    BinaryTableIs(name, path, w, x);
  }

  lemma StatAndOdd(stats: seq<Issue>, isOdd: bool, odd: Issue, x: Issue)
    ensures Times(stats + If(isOdd, odd), x) == Times(stats, x) + Once(isOdd && odd == x)
  {
    TimesOfIf(isOdd, odd, x);
    TimesTwo(stats, If(isOdd, odd), x);
  }

  lemma StatTimes(name: string, stat: Stat, x: Issue)
    ensures Times(StatIssues(name, stat), x) ==
            Once((stat.Missing? && x == Issue(Error, Subsystem, About(name))) ||
                 (stat.Unreadable? && x == Issue(Warning, Subsystem, About(name))))
  {
    TimesOfIf(true, Issue(Error, Subsystem, About(name)), x);
    TimesOfIf(true, Issue(Warning, Subsystem, About(name)), x);
  }

  lemma SubsystemTimes(subsystems: seq<(string, string)>, w: World, x: Issue)
    ensures Times(SubsystemIssues(subsystems, w) + If(!HasSftp(subsystems), Issue(Info, Subsystem, Plain)), x) ==
            SubsystemTable(subsystems, w, x)
  {
    if x == Issue(Info, Subsystem, Plain) {
      NoteIsNoBinary(subsystems, w);
    } else {
      BinaryTimes(subsystems, w, x);
    }
    TimesOfIf(!HasSftp(subsystems), Issue(Info, Subsystem, Plain), x);
    TimesTwo(SubsystemIssues(subsystems, w), If(!HasSftp(subsystems), Issue(Info, Subsystem, Plain)), x);
    if !HasSftp(subsystems) {
      forall b | b in subsystems
        ensures b.0 != "sftp"
      {
        var i :| 0 <= i < |subsystems| && subsystems[i] == b;
      }
    }
  }

  lemma CrossTimes(s: Settings, x: Issue)
    ensures Times(CrossIssues(s), x) == CrossTable(s, x)
  {
    var idle := !s.password && !s.pubkey && |s.allowUsers| > 0;
    var root := s.permitRootLogin == "yes" && s.password;
    TimesOfIf(idle, Issue(Warning, Authentication, Plain), x);
    TimesOfIf(root, Issue(Error, Security, Plain), x);
    TimesTwo(If(idle, Issue(Warning, Authentication, Plain)), If(root, Issue(Error, Security, Plain)), x);
  }

  /** How often Validate reports an issue: what its pass says in the table. */
  function TableOf(s: Settings, w: World, x: Issue): nat {
    match x.directive
    case Port => PortTable(s.port, x)
    case ListenAddress => AddressTable(s.listenAddress, w, x)
    case HostKey => HostKeyTable(s.hostKey, w, x)
    case Authentication => AuthenticationTable(s, x) + CrossTable(s, x)
    case PasswordAuthentication => AuthenticationTable(s, x)
    case AuthorizedKeysFile => AuthenticationTable(s, x)
    case PermitRootLogin => RootLoginTable(s.permitRootLogin, x)
    case UserLists => ConflictTable(s.allowUsers, s.denyUsers, x)
    case LogLevel => LoggingTable(s, w, x)
    case LogFile => LoggingTable(s, w, x)
    case GatewayPorts => ForwardingTable(s, x)
    case AgentForwarding => ForwardingTable(s, x)
    case X11Forwarding => ForwardingTable(s, x)
    case Subsystem => SubsystemTable(s.subsystems, w, x)
    case Security => CrossTable(s, x)
  }

  lemma FirstTimes(s: Settings, w: World, x: Issue)
    ensures Times(FirstIssues(s, w), x) ==
            PortTable(s.port, x) + AddressTable(s.listenAddress, w, x) + HostKeyTable(s.hostKey, w, x) +
            AuthenticationTable(s, x)
  {
    var p, a := PortIssues(s.port), AddressIssues(s.listenAddress, w);
    var k, u := HostKeyIssues(s.hostKey, w), AuthenticationIssues(s);
    TimesThree(p, a, k, x);
    TimesTwo(p + a + k, u, x);
    PortTimes(s.port, x);
    AddressTimes(s.listenAddress, w, x);
    HostKeyTimes(s.hostKey, w, x);
    AuthenticationTimes(s, x);
  }

  lemma EarlyTimes(s: Settings, w: World, x: Issue)
    ensures Times(EarlyIssues(s, w), x) ==
            Times(FirstIssues(s, w), x) + RootLoginTable(s.permitRootLogin, x) +
            ConflictTable(s.allowUsers, s.denyUsers, x) + LoggingTable(s, w, x)
  {
    var f, r := FirstIssues(s, w), RootLoginIssues(s.permitRootLogin);
    var c, l := ConflictIssues(s.allowUsers, s.denyUsers), LoggingIssues(s, w);
    TimesThree(f, r, c, x);
    TimesTwo(f + r + c, l, x);
    RootLoginTimes(s.permitRootLogin, x);
    ConflictTimes(s.allowUsers, s.denyUsers, x);
    LoggingTimes(s, w, x);
  }

  lemma LateTimes(s: Settings, w: World, x: Issue)
    ensures Times(AllIssues(s, w), x) ==
            Times(EarlyIssues(s, w), x) + ForwardingTable(s, x) + SubsystemTable(s.subsystems, w, x) + CrossTable(s, x)
  {
    var e, f, b := EarlyIssues(s, w), ForwardingIssues(s), SubsystemIssues(s.subsystems, w);
    var n, c := If(!HasSftp(s.subsystems), Issue(Info, Subsystem, Plain)), CrossIssues(s);
    TimesThree(e, f, b, x);
    TimesTwo(e + f + b, n, x);
    TimesTwo(e + f + b + n, c, x);
    TimesTwo(b, n, x);
    ForwardingTimes(s, x);
    SubsystemTimes(s.subsystems, w, x);
    CrossTimes(s, x);
  }

  lemma OnlyItsOwn(s: Settings, w: World, x: Issue)
    ensures TableOf(s, w, x) ==
            PortTable(s.port, x) + AddressTable(s.listenAddress, w, x) + HostKeyTable(s.hostKey, w, x) +
            AuthenticationTable(s, x) + RootLoginTable(s.permitRootLogin, x) +
            ConflictTable(s.allowUsers, s.denyUsers, x) + LoggingTable(s, w, x) + ForwardingTable(s, x) +
            SubsystemTable(s.subsystems, w, x) + CrossTable(s, x)
  {
  }

  /** Validate reports every issue exactly as often as the table says, and nothing else. */
  lemma EveryIssueCounted(s: Settings, w: World, x: Issue)
    ensures Times(AllIssues(s, w), x) == TableOf(s, w, x)
  {
    FirstTimes(s, w, x);
    EarlyTimes(s, w, x);
    LateTimes(s, w, x);
    OnlyItsOwn(s, w, x);
  }

  /** The type of a key file is the first of these names that its base name contains. */
  lemma KeyTypeIs(path: string, w: World)
    ensures var name, t := w.base(path), KeyType(path, w);
            && (t == "ed25519" <==> Contains(name, "ed25519"))
            && (t == "ecdsa" <==> Contains(name, "ecdsa") && !Contains(name, "ed25519"))
            && (t == "rsa" <==> Contains(name, "rsa") && !Contains(name, "ecdsa") && !Contains(name, "ed25519"))
            && (t == "dsa" <==>
                  Contains(name, "dsa") && !Contains(name, "rsa") && !Contains(name, "ecdsa") &&
                  !Contains(name, "ed25519"))
            && (t == "" || t == "ed25519" || t == "ecdsa" || t == "rsa" || t == "dsa")
  {
    assert |"ed25519"| == 7 && |"ecdsa"| == 5 && |"rsa"| == 3 && |"dsa"| == 3 && "rsa"[0] == 'r' && "dsa"[0] == 'd';
  }
}
