/** Who may log in: the user and group lists and PermitRootLogin. */
module Access {
  import opened Prelude
  import opened Text

  /** matches(pattern, text) is filepath.Match, false for a malformed pattern. */
  datatype Policy = Policy(
    allowUsers: seq<string>,
    denyUsers: seq<string>,
    allowGroups: seq<string>,
    denyGroups: seq<string>,
    permitRootLogin: string,
    matches: (string, string) -> bool)

  /** extractHostFromAddr */
  function HostOf(address: string): string {
    var parts := Split(address, ':');
    if ':' in address && |parts| >= 2 then Join(parts[..|parts| - 1], ':') else address
  }

  /** matchUserPattern */
  predicate UserMatches(p: Policy, pattern: string, user: string, host: string) {
    var at := IndexOf(pattern, '@');
    if at == |pattern| then p.matches(pattern, user)
    else if at == 0 then p.matches(pattern[1..], host)
    else p.matches(pattern[..at], user) && p.matches(pattern[at + 1..], host)
  }

  predicate AnyUserPattern(p: Policy, patterns: seq<string>, user: string, host: string) {
    patterns != [] && (UserMatches(p, patterns[0], user, host) || AnyUserPattern(p, patterns[1..], user, host))
  }

  /** IsUserAllowed */
  predicate UserAllowed(p: Policy, user: string, address: string) {
    var host := HostOf(address);
    !AnyUserPattern(p, p.denyUsers, user, host) &&
    (p.allowUsers == [] || AnyUserPattern(p, p.allowUsers, user, host))
  }

  predicate AnyGroup(p: Policy, pattern: string, groups: seq<string>) {
    groups != [] && (p.matches(pattern, groups[0]) || AnyGroup(p, pattern, groups[1..]))
  }

  predicate AnyGroupPattern(p: Policy, patterns: seq<string>, groups: seq<string>) {
    patterns != [] && (AnyGroup(p, patterns[0], groups) || AnyGroupPattern(p, patterns[1..], groups))
  }

  /** IsGroupAllowed; groups is None when the lookup failed. */
  predicate GroupAllowed(p: Policy, groups: Option<seq<string>>) {
    match groups
    case None => p.allowGroups == [] && p.denyGroups == []
    case Some(names) =>
      !AnyGroupPattern(p, p.denyGroups, names) && (p.allowGroups == [] || AnyGroupPattern(p, p.allowGroups, names))
  }

  /** IsRootLoginAllowed */
  predicate RootAllowed(p: Policy, user: string, authMethod: string) {
    user != "root" ||
    match p.permitRootLogin
    case "yes" => true
    case "no" => false
    case _ => authMethod != "password" && authMethod != "keyboard-interactive"
  }

  /** checkUserAuthorization */
  predicate Authorized(p: Policy, user: string, address: string, groups: Option<seq<string>>, authMethod: string) {
    UserAllowed(p, user, address) && GroupAllowed(p, groups) && RootAllowed(p, user, authMethod)
  }

  lemma {:induction false} AnyUserPatternIff(p: Policy, patterns: seq<string>, user: string, host: string)
    ensures AnyUserPattern(p, patterns, user, host) <==> exists x :: x in patterns && UserMatches(p, x, user, host)
  {
    if patterns != [] {
      AnyUserPatternIff(p, patterns[1..], user, host);
      assert patterns == [patterns[0]] + patterns[1..];
    }
  }

  lemma {:induction false} AnyGroupIff(p: Policy, pattern: string, groups: seq<string>)
    ensures AnyGroup(p, pattern, groups) <==> exists g :: g in groups && p.matches(pattern, g)
  {
    if groups != [] {
      AnyGroupIff(p, pattern, groups[1..]);
      assert groups == [groups[0]] + groups[1..];
    }
  }

  lemma {:induction false} AnyGroupPatternIff(p: Policy, patterns: seq<string>, groups: seq<string>)
    ensures AnyGroupPattern(p, patterns, groups) <==>
            exists x, g :: x in patterns && g in groups && p.matches(x, g)
  {
    if patterns != [] {
      AnyGroupIff(p, patterns[0], groups);
      AnyGroupPatternIff(p, patterns[1..], groups);
      assert patterns == [patterns[0]] + patterns[1..];
    }
  }

  /** The user decision: no deny pattern matches, and the allow list is empty or has a match. */
  lemma UserDecision(p: Policy, user: string, address: string)
    ensures UserAllowed(p, user, address) <==>
            && (forall x :: x in p.denyUsers ==> !UserMatches(p, x, user, HostOf(address)))
            && (p.allowUsers == [] || exists x :: x in p.allowUsers && UserMatches(p, x, user, HostOf(address)))
  {
    AnyUserPatternIff(p, p.denyUsers, user, HostOf(address));
    AnyUserPatternIff(p, p.allowUsers, user, HostOf(address));
  }

  /** The group decision, for a user whose groups are known. */
  lemma GroupDecision(p: Policy, groups: seq<string>)
    ensures GroupAllowed(p, Some(groups)) <==>
            && (forall x, g :: x in p.denyGroups && g in groups ==> !p.matches(x, g))
            && (p.allowGroups == [] || exists x, g :: x in p.allowGroups && g in groups && p.matches(x, g))
  {
    AnyGroupPatternIff(p, p.denyGroups, groups);
    AnyGroupPatternIff(p, p.allowGroups, groups);
  }

  /** The same entries, in any order and number. */
  ghost predicate SameEntries(a: seq<string>, b: seq<string>) {
    forall x :: x in a <==> x in b
  }

  /** q denies whatever p denies; where p has an allow list, q's is a longer one. */
  ghost predicate Tighter(p: Policy, q: Policy) {
    && q.matches == p.matches
    && (forall x :: x in p.denyUsers ==> x in q.denyUsers) && (forall x :: x in p.denyGroups ==> x in q.denyGroups)
    && SameEntries(p.allowUsers, q.allowUsers) && SameEntries(p.allowGroups, q.allowGroups)
  }

  /** Adding deny patterns, and reordering or repeating any list, admits nobody new. */
  lemma MoreDenialsAdmitNobody(p: Policy, q: Policy, user: string, address: string, groups: Option<seq<string>>)
    requires Tighter(p, q)
    ensures UserAllowed(q, user, address) ==> UserAllowed(p, user, address)
    ensures GroupAllowed(q, groups) ==> GroupAllowed(p, groups)
  {
    UserDecision(p, user, address);
    UserDecision(q, user, address);
    assert q.allowUsers != [] ==> q.allowUsers[0] in p.allowUsers;
    assert p.allowUsers != [] ==> p.allowUsers[0] in q.allowUsers;
    assert q.allowGroups != [] ==> q.allowGroups[0] in p.allowGroups;
    assert p.allowGroups != [] ==> p.allowGroups[0] in q.allowGroups;
    assert p.denyGroups != [] ==> p.denyGroups[0] in q.denyGroups;
    if groups.Some? {
      GroupDecision(p, groups.value);
      GroupDecision(q, groups.value);
    }
  }

  /** Reordering or repeating entries of any list changes no decision. */
  lemma OrderDoesNotMatter(p: Policy, q: Policy, user: string, address: string, groups: Option<seq<string>>)
    requires Tighter(p, q) && Tighter(q, p)
    ensures UserAllowed(q, user, address) <==> UserAllowed(p, user, address)
    ensures GroupAllowed(q, groups) <==> GroupAllowed(p, groups)
  {
    MoreDenialsAdmitNobody(p, q, user, address, groups);
    MoreDenialsAdmitNobody(q, p, user, address, groups);
  }

  /** Adding to an allow list that is not empty shuts nobody out, whatever the other list is. */
  lemma LongerAllowListsShutNobodyOut(p: Policy, users: seq<string>, groups: seq<string>, user: string, address: string,
      memberships: Option<seq<string>>)
    ensures var q := p.(allowUsers := p.allowUsers + users, allowGroups := p.allowGroups + groups);
            && (p.allowUsers != [] && UserAllowed(p, user, address) ==> UserAllowed(q, user, address))
            && (p.allowGroups != [] && GroupAllowed(p, memberships) ==> GroupAllowed(q, memberships))
  {
    var q := p.(allowUsers := p.allowUsers + users, allowGroups := p.allowGroups + groups);
    UserDecision(p, user, address);
    UserDecision(q, user, address);
    SameMatcher(p, q, user, HostOf(address));
    if memberships.Some? {
      GroupDecision(p, memberships.value);
      GroupDecision(q, memberships.value);
    }
  }

  lemma SameMatcher(p: Policy, q: Policy, user: string, host: string)
    requires p.matches == q.matches
    ensures forall x :: UserMatches(p, x, user, host) <==> UserMatches(q, x, user, host)
  {
  }

  /** The host of an address is everything before its last colon. */
  lemma HostBeforePort(host: string, port: string)
    requires ':' !in port
    ensures HostOf(host + ":" + port) == host
  {
    var address := host + [':'] + port;
    assert address == host + ":" + port && address[|host|] == ':';
    SplitAppend(host, port, ':');
    SplitWithout(port, ':');
    assert Split(address, ':')[..|Split(host, ':')|] == Split(host, ':');
    JoinSplit(host, ':');
  }

  // ------------------------------------------------------------------- the whole decision, spelled out

  /** host is what is before the last colon of the address, or all of it if there is none. */
  ghost predicate IsHost(address: string, host: string) {
    (':' !in address && host == address) || exists port :: ':' !in port && address == host + ":" + port
  }

  lemma HostIs(address: string, host: string)
    ensures IsHost(address, host) <==> host == HostOf(address)
  {
    if ':' in address {
      HostOfColon(address);
    }
    if exists port :: ':' !in port && address == host + ":" + port {
      var port :| ':' !in port && address == host + ":" + port;
      HostBeforePort(host, port);
    }
  }

  lemma HostOfColon(address: string)
    requires ':' in address
    ensures IsHost(address, HostOf(address))
  {
    var parts := Split(address, ':');
    JoinSplit(address, ':');
    if |parts| == 1 {
      PartsWithoutSeparator(address, ':', parts[0]);
      assert false;
    }
    var front, port := parts[..|parts| - 1], parts[|parts| - 1];
    PartsWithoutSeparator(address, ':', port);
    JoinAppend(front, [port], ':');
    assert front + [port] == parts;
    assert address == HostOf(address) + ":" + port;
  }

  /** user, user@host or @host, each half matched on its own. */
  ghost predicate Fits(p: Policy, pattern: string, user: string, host: string) {
    || ('@' !in pattern && p.matches(pattern, user))
    || exists u, h ::
         pattern == u + "@" + h && '@' !in u && (u == "" || p.matches(u, user)) && p.matches(h, host)
  }

  lemma FitsIff(p: Policy, pattern: string, user: string, host: string)
    ensures UserMatches(p, pattern, user, host) <==> Fits(p, pattern, user, host)
  {
    var at := IndexOf(pattern, '@');
    if at < |pattern| {
      assert pattern[at] == '@' && pattern == pattern[..at] + "@" + pattern[at + 1..];
    }
    forall u, h | pattern == u + "@" + h && '@' !in u
      ensures at == |u| && pattern[..at] == u && pattern[at + 1..] == h
    {
      assert pattern == u + ['@'] + h;
      IndexOfFirst(u, h, '@');
    }
    assert pattern[..|pattern|] == pattern;
  }

  ghost predicate UserAdmitted(p: Policy, user: string, address: string) {
    exists host :: IsHost(address, host) &&
      (forall x :: x in p.denyUsers ==> !Fits(p, x, user, host)) &&
      (p.allowUsers == [] || exists x :: x in p.allowUsers && Fits(p, x, user, host))
  }

  /** groups is None when the lookup failed. */
  ghost predicate GroupsAdmitted(p: Policy, groups: Option<seq<string>>) {
    match groups
    case None => p.denyGroups == [] && p.allowGroups == []
    case Some(names) =>
      && (forall x, g :: x in p.denyGroups && g in names ==> !p.matches(x, g))
      && (p.allowGroups == [] || exists x, g :: x in p.allowGroups && g in names && p.matches(x, g))
  }

  /** yes admits root by any method, no by none, every other value by all but the two that ask for a password. */
  predicate RootAdmitted(p: Policy, user: string, authMethod: string) {
    user == "root" ==>
      p.permitRootLogin == "yes" ||
      (p.permitRootLogin != "no" && authMethod != "password" && authMethod != "keyboard-interactive")
  }

  /** Who is authorized, in terms of the lists and PermitRootLogin alone. */
  lemma AuthorizedIff(p: Policy, user: string, address: string, groups: Option<seq<string>>, authMethod: string)
    ensures Authorized(p, user, address, groups, authMethod) <==>
            UserAdmitted(p, user, address) && GroupsAdmitted(p, groups) && RootAdmitted(p, user, authMethod)
  {
    UserAdmittedIff(p, user, address);
    if groups.Some? {
      GroupDecision(p, groups.value);
    }
  }

  lemma UserAdmittedIff(p: Policy, user: string, address: string)
    ensures UserAllowed(p, user, address) <==> UserAdmitted(p, user, address)
  {
    var host := HostOf(address);
    HostIs(address, host);
    UserDecision(p, user, address);
    forall x
      ensures UserMatches(p, x, user, host) <==> Fits(p, x, user, host)
    {
      FitsIff(p, x, user, host);
    }
    forall other
      ensures IsHost(address, other) ==> other == host
    {
      HostIs(address, other);
    }
  }
}
