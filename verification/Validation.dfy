/** The result of a validation: its counters, and the passes that print it by level. */
module Validation {

  datatype Level = Error | Warning | Info

  /** The directives that issues name. */
  datatype Directive =
    | Port | ListenAddress | HostKey | Authentication | PasswordAuthentication | AuthorizedKeysFile
    | PermitRootLogin | UserLists | LogLevel | LogFile | GatewayPorts | AgentForwarding | X11Forwarding
    | Subsystem | Security

  /**
    What a message says: where it quotes nothing, level and directive identify it; where it quotes a value,
    the value is wrong, was there before, or looks odd.
   */
  datatype Message = Plain | About(value: string) | Repeated(value: string) | Odd(value: string)

  datatype Issue = Issue(level: Level, directive: Directive, message: Message)

  function AtLevel(issues: seq<Issue>, level: Level): seq<Issue> {
    if issues == [] then []
    else (if issues[0].level == level then [issues[0]] else []) + AtLevel(issues[1..], level)
  }

  lemma Assoc(a: seq<Issue>, b: seq<Issue>, c: seq<Issue>)
    ensures a + b + c == a + (b + c)
  {
  }

  lemma {:induction false} AtLevelAppend(a: seq<Issue>, b: seq<Issue>, level: Level)
    ensures AtLevel(a + b, level) == AtLevel(a, level) + AtLevel(b, level)
  {
    if a == [] {
      assert a + b == b;
    } else {
      AtLevelAppend(a[1..], b, level);
      assert (a + b)[1..] == a[1..] + b;
      Assoc(if a[0].level == level then [a[0]] else [], AtLevel(a[1..], level), AtLevel(b, level));
    }
  }

  /** Grouped by level, the issues are the same issues, each as often as before. */
  lemma {:induction false} GroupingLosesNothing(issues: seq<Issue>)
    ensures multiset(AtLevel(issues, Error) + AtLevel(issues, Warning) + AtLevel(issues, Info)) == multiset(issues)
  {
    if issues != [] {
      assert issues == [issues[0]] + issues[1..];
      GroupingLosesNothing(issues[1..]);
    }
  }

  class ValidationResult {
    var valid: bool
    var issues: seq<Issue>
    var errorCount: int
    var warnCount: int
    var infoCount: int

    constructor ()
      ensures Counted() && issues == []
    {
      valid, issues := true, [];
      errorCount, warnCount, infoCount := 0, 0, 0;
    }

    /** Each counter is the number of issues at its level, and valid means there are no errors. */
    predicate Counted()
      reads this
    {
      && errorCount == |AtLevel(issues, Error)|
      && warnCount == |AtLevel(issues, Warning)|
      && infoCount == |AtLevel(issues, Info)|
      && (valid <==> errorCount == 0)
    }

    method AddIssue(issue: Issue)
      requires Counted()
      modifies this
      ensures Counted()
      ensures issues == old(issues) + [issue]
      ensures valid == (old(valid) && !issue.level.Error?)
    {
      AtLevelAppend(issues, [issue], Error);
      AtLevelAppend(issues, [issue], Warning);
      AtLevelAppend(issues, [issue], Info);
      issues := issues + [issue];
      match issue.level
      case Error =>
        errorCount := errorCount + 1;
        valid := false;
      case Warning =>
        warnCount := warnCount + 1;
      case Info =>
        infoCount := infoCount + 1;
    }

    method AddIf(condition: bool, issue: Issue)
      requires Counted()
      modifies this
      ensures Counted()
      ensures issues == old(issues) + If(condition, issue)
    {
      if condition {
        AddIssue(issue);
      }
    }

    /** The three printing passes, each guarded by its own counter. */
    method PrintIssuesByLevel() returns (printed: seq<Issue>)
      requires Counted()
      ensures printed == AtLevel(issues, Error) + AtLevel(issues, Warning) + AtLevel(issues, Info)
      ensures multiset(printed) == multiset(issues)
    {
      var errors, warnings, infos := [], [], [];
      if errorCount > 0 {
        errors := PrintLevel(Error);
      }
      if warnCount > 0 {
        warnings := PrintLevel(Warning);
      }
      if infoCount > 0 {
        infos := PrintLevel(Info);
      }
      printed := errors + warnings + infos;
      GroupingLosesNothing(issues);
    }

    method PrintLevel(level: Level) returns (printed: seq<Issue>)
      ensures printed == AtLevel(issues, level)
    {
      printed := [];
      for i := 0 to |issues|
        invariant printed + AtLevel(issues[i..], level) == AtLevel(issues, level)
      {
        assert issues[i..][1..] == issues[i + 1..];
        if issues[i].level == level {
          printed := printed + [issues[i]];
        }
      }
    }
  }

  function If(condition: bool, issue: Issue): seq<Issue> {
    if condition then [issue] else []
  }
}
