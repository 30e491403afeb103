/** Validate and its passes. */
module Validator {
  import opened Text
  import opened Validation
  import opened ValidationReports
  import Config

  method ValidatePort(s: Settings, r: ValidationResult)
    requires r.Counted()
    modifies r
    ensures r.Counted() && r.issues == old(r.issues) + PortIssues(s.port)
  {
    if s.port < 1 || s.port > 65535 {
      r.AddIssue(Issue(Error, Port, Plain));
      return;
    }
    r.AddIf(s.port < 1024, Issue(Warning, Port, Plain));
    r.AddIf(s.port != 22, Issue(Info, Port, Plain));
  }

  method ValidateListenAddresses(s: Settings, w: World, r: ValidationResult)
    requires r.Counted()
    modifies r
    ensures r.Counted() && r.issues == old(r.issues) + AddressIssues(s.listenAddress, w)
  {
    var seen: set<string> := {};
    for i := 0 to |s.listenAddress|
      invariant r.Counted()
      invariant seen == set a <- s.listenAddress[..i]
      invariant r.issues == old(r.issues) + AddressIssues(s.listenAddress[..i], w)
    {
      var a := s.listenAddress[i];
      assert s.listenAddress[..i + 1] == s.listenAddress[..i] + [a];
      assert s.listenAddress[..i + 1][..i] == s.listenAddress[..i];
      Assoc(old(r.issues), AddressIssues(s.listenAddress[..i], w),
        if a in seen then [Issue(Warning, ListenAddress, Repeated(a))] else FormatIssues(a, w));
      if a in seen {
        r.AddIssue(Issue(Warning, ListenAddress, Repeated(a)));
      } else {
        ValidateAddressFormat(a, w, r);
      }
      seen := seen + {a};
    }
    assert s.listenAddress[..|s.listenAddress|] == s.listenAddress;
  }

  method ValidateAddressFormat(a: string, w: World, r: ValidationResult)
    requires r.Counted()
    modifies r
    ensures r.Counted() && r.issues == old(r.issues) + FormatIssues(a, w)
  {
    if a == "0.0.0.0" || a == "::" {
      r.AddIssue(Issue(Info, ListenAddress, About(a)));
      return;
    }
    r.AddIf(!w.isIP(a) && !w.isHostname(a), Issue(Error, ListenAddress, About(a)));
  }

  method ValidateHostKeys(s: Settings, w: World, r: ValidationResult)
    requires r.Counted()
    modifies r
    ensures r.Counted() && r.issues == old(r.issues) + HostKeyIssues(s.hostKey, w)
  {
    if s.hostKey == [] {
      r.AddIssue(Issue(Error, HostKey, Plain));
      return;
    }
    var types := ValidateIndividualHostKeys(s.hostKey, w, r);
    r.AddIf("ed25519" !in types && "ecdsa" !in types, Issue(Info, HostKey, Plain));
  }

  method ValidateIndividualHostKeys(paths: seq<string>, w: World, r: ValidationResult)
    returns (types: set<string>)
    requires r.Counted()
    modifies r
    ensures r.Counted() && r.issues == old(r.issues) + KeyIssues(paths, w)
    ensures types == KeyTypes(paths, w)
  {
    types := {};
    for i := 0 to |paths|
      invariant r.Counted()
      invariant types == KeyTypes(paths[..i], w)
      invariant r.issues == old(r.issues) + KeyIssues(paths[..i], w)
    {
      assert paths[..i + 1][..i] == paths[..i];
      Assoc(old(r.issues), KeyIssues(paths[..i], w), KeyReport(paths[i], types, w));
      types := CheckHostKey(paths[i], types, w, r);
    }
    assert paths[..|paths|] == paths;
  }

  /** checkHostKeyAccessibility, then detectAndTrackKeyType */
  method CheckHostKey(path: string, seen: set<string>, w: World, r: ValidationResult)
    returns (types: set<string>)
    requires r.Counted()
    modifies r
    ensures r.Counted() && types == seen + if KeyType(path, w) != "" then {KeyType(path, w)} else {}
    ensures r.issues == old(r.issues) + KeyReport(path, seen, w)
  {
    match w.stat(path) {
      case Exists =>
      case Missing => r.AddIssue(Issue(Warning, HostKey, About(path)));
      case Unreadable => r.AddIssue(Issue(Error, HostKey, About(path)));
    }
    types := seen;
    var t := KeyType(path, w);
    if t != "" {
      r.AddIf(t in types, Issue(Warning, HostKey, Repeated(t)));
      types := types + {t};
    }
  }

  method ValidateAuthentication(s: Settings, r: ValidationResult)
    requires r.Counted()
    modifies r
    ensures r.Counted() && r.issues == old(r.issues) + AuthenticationIssues(s)
  {
    r.AddIf(!s.password && !s.pubkey, Issue(Error, Authentication, Plain));
    r.AddIf(s.password, Issue(Warning, PasswordAuthentication, Plain));
    ghost var before := r.issues;
    for i := 0 to |s.authorizedKeysFile|
      invariant r.Counted()
      invariant r.issues == before + FileIssues(s.authorizedKeysFile[..i])
    {
      var f := s.authorizedKeysFile[i];
      assert s.authorizedKeysFile[..i + 1][..i] == s.authorizedKeysFile[..i];
      Assoc(before, FileIssues(s.authorizedKeysFile[..i]),
        If(Contains(f, ".."), Issue(Error, AuthorizedKeysFile, About(f))));
      r.AddIf(Contains(f, ".."), Issue(Error, AuthorizedKeysFile, About(f)));
    }
    assert s.authorizedKeysFile[..|s.authorizedKeysFile|] == s.authorizedKeysFile;
  }

  method ValidatePermitRootLogin(s: Settings, r: ValidationResult)
    requires r.Counted()
    modifies r
    ensures r.Counted() && r.issues == old(r.issues) + RootLoginIssues(s.permitRootLogin)
  {
    if !Config.IsRootLoginValue(s.permitRootLogin) {
      r.AddIssue(Issue(Error, PermitRootLogin, About(s.permitRootLogin)));
      return;
    }
    r.AddIf(s.permitRootLogin == "yes", Issue(Warning, PermitRootLogin, Plain));
  }

  method CheckUserListConflicts(s: Settings, r: ValidationResult)
    requires r.Counted()
    modifies r
    ensures r.Counted() && r.issues == old(r.issues) + ConflictIssues(s.allowUsers, s.denyUsers)
  {
    if |s.allowUsers| == 0 || |s.denyUsers| == 0 {
      NothingDenied(s.allowUsers, s.denyUsers);
      return;
    }
    for i := 0 to |s.allowUsers|
      invariant r.Counted()
      invariant r.issues == old(r.issues) + ConflictIssues(s.allowUsers[..i], s.denyUsers)
    {
      assert s.allowUsers[..i + 1][..i] == s.allowUsers[..i];
      Assoc(old(r.issues), ConflictIssues(s.allowUsers[..i], s.denyUsers), DeniedToo(s.allowUsers[i], s.denyUsers));
      CheckDenied(s.allowUsers[i], s.denyUsers, r);
    }
    assert s.allowUsers[..|s.allowUsers|] == s.allowUsers;
  }

  method CheckDenied(user: string, denied: seq<string>, r: ValidationResult)
    requires r.Counted()
    modifies r
    ensures r.Counted() && r.issues == old(r.issues) + DeniedToo(user, denied)
  {
    for i := 0 to |denied|
      invariant r.Counted()
      invariant r.issues == old(r.issues) + DeniedToo(user, denied[..i])
    {
      assert denied[..i + 1][..i] == denied[..i];
      Assoc(old(r.issues), DeniedToo(user, denied[..i]), If(user == denied[i], Issue(Warning, UserLists, About(user))));
      r.AddIf(user == denied[i], Issue(Warning, UserLists, About(user)));
    }
    assert denied[..|denied|] == denied;
  }

  lemma {:induction false} NothingDenied(allowed: seq<string>, denied: seq<string>)
    requires allowed == [] || denied == []
    ensures ConflictIssues(allowed, denied) == []
    decreases |allowed|
  {
    if allowed != [] {
      NothingDenied(allowed[..|allowed| - 1], denied);
    }
  }

  method ValidateLogging(s: Settings, w: World, r: ValidationResult)
    requires r.Counted()
    modifies r
    ensures r.Counted() && r.issues == old(r.issues) + LoggingIssues(s, w)
  {
    r.AddIf(IsDebug(s.logLevel), Issue(Info, LogLevel, Plain));
    if s.logFile != "" {
      r.AddIf(w.stat(w.dir(s.logFile)).Missing?, Issue(Error, LogFile, About(w.dir(s.logFile))));
      r.AddIf(!w.canAppend(s.logFile), Issue(Warning, LogFile, About(s.logFile)));
    }
  }

  method ValidateForwarding(s: Settings, r: ValidationResult)
    requires r.Counted()
    modifies r
    ensures r.Counted() && r.issues == old(r.issues) + ForwardingIssues(s)
  {
    r.AddIf(s.tcpForwarding && s.gatewayPorts, Issue(Warning, GatewayPorts, Plain));
    r.AddIf(s.agentForwarding, Issue(Info, AgentForwarding, Plain));
    r.AddIf(s.x11Forwarding, Issue(Info, X11Forwarding, Plain));
  }

  method ValidateSubsystemBinaries(subsystems: seq<(string, string)>, w: World, r: ValidationResult)
    requires r.Counted()
    modifies r
    ensures r.Counted() && r.issues == old(r.issues) + SubsystemIssues(subsystems, w)
  {
    for i := 0 to |subsystems|
      invariant r.Counted()
      invariant r.issues == old(r.issues) + SubsystemIssues(subsystems[..i], w)
    {
      assert subsystems[..i + 1][..i] == subsystems[..i];
      Assoc(old(r.issues), SubsystemIssues(subsystems[..i], w), BinaryIssues(subsystems[i].0, subsystems[i].1, w));
      ValidateSubsystemBinary(subsystems[i].0, subsystems[i].1, w, r);
    }
    assert subsystems[..|subsystems|] == subsystems;
  }

  method ValidateSubsystemBinary(name: string, path: string, w: World, r: ValidationResult)
    requires r.Counted()
    modifies r
    ensures r.Counted() && r.issues == old(r.issues) + BinaryIssues(name, path, w)
  {
    match w.stat(path) {
      case Exists =>
      case Missing => r.AddIssue(Issue(Error, Subsystem, About(name)));
      case Unreadable => r.AddIssue(Issue(Warning, Subsystem, About(name)));
    }
    r.AddIf(name == "sftp" && !Contains(path, "sftp"), Issue(Warning, Subsystem, Odd(path)));
  }

  method ValidateCrossDependencies(s: Settings, r: ValidationResult)
    requires r.Counted()
    modifies r
    ensures r.Counted() && r.issues == old(r.issues) + CrossIssues(s)
  {
    r.AddIf(!s.password && !s.pubkey && |s.allowUsers| > 0, Issue(Warning, Authentication, Plain));
    r.AddIf(s.permitRootLogin == "yes" && s.password, Issue(Error, Security, Plain));
  }

  /** The nine passes in order; the result is valid exactly when the settings get nothing wrong. */
  method Validate(s: Settings, w: World) returns (r: ValidationResult)
    ensures fresh(r) && r.Counted()
    ensures r.issues == AllIssues(s, w)
    ensures Errors(r.issues) == Wrong(s, w)
    ensures r.valid <==> Wrong(s, w) == {}
  {
    r := ValidateEarly(s, w);
    ValidateForwarding(s, r);
    ValidateSubsystemBinaries(s.subsystems, w, r);
    r.AddIf(!HasSftp(s.subsystems), Issue(Info, Subsystem, Plain));
    ValidateCrossDependencies(s, r);
    NoErrorsCounted(r.issues);
    ErrorsAreWhatIsWrong(s, w);
  }

  /** The first six of Validate's nine passes */
  method ValidateEarly(s: Settings, w: World) returns (r: ValidationResult)
    ensures fresh(r) && r.Counted() && r.issues == EarlyIssues(s, w)
  {
    r := ValidateFirst(s, w);
    ValidatePermitRootLogin(s, r);
    CheckUserListConflicts(s, r);
    ValidateLogging(s, w, r);
  }

  /** The first four of Validate's nine passes */
  method ValidateFirst(s: Settings, w: World) returns (r: ValidationResult)
    ensures fresh(r) && r.Counted() && r.issues == FirstIssues(s, w)
  {
    r := new ValidationResult();
    ValidatePort(s, r);
    assert r.issues == PortIssues(s.port);
    ValidateListenAddresses(s, w, r);
    ValidateHostKeys(s, w, r);
    ValidateAuthentication(s, r);
  }

  /**
    A configuration read from a file, in full or up to a line that is refused, has no Port and no
    PermitRootLogin error.
   */
  method LoadAndValidate(lines: seq<Config.Line>, otherOk: seq<string> -> bool, rest: Settings, w: World)
    returns (r: ValidationResult)
    ensures r.Counted()
    ensures Port !in Errors(r.issues) && PermitRootLogin !in Errors(r.issues)
  {
    var cfg, _ := Config.Load(lines, otherOk);
    var s := rest.(port := cfg.port, permitRootLogin := cfg.permitRootLogin, hostKey := cfg.hostKey,
                   logLevel := cfg.logLevel);
    r := Validate(s, w);
    NotWrong(s, w);
  }

  lemma NotWrong(s: Settings, w: World)
    ensures Port in Wrong(s, w) <==> !(1 <= s.port <= 65535)
    ensures PermitRootLogin in Wrong(s, w) <==> !Config.IsRootLoginValue(s.permitRootLogin)
  {
  }
}
