/** The splitter's loop and the options struct that the parser fills in place. */
module OptionsParser {
  import opened Prelude
  import opened Text
  import opened AuthorizedKeys

  /** parseCommaSeparated */
  method ParseCommaSeparated(s: string) returns (result: seq<string>)
    ensures result == Pieces(s, false, "")
    ensures WellSplit(result) && Join(result, ',') == Kept(s, false)
  {
    result := [];
    var current, inQuotes := "", false;
    for i := 0 to |s|
      invariant result + Pieces(s[i..], inQuotes, current) == Pieces(s, false, "")
    {
      assert s[i..][1..] == s[i + 1..];
      if s[i] == '"' {
        inQuotes := !inQuotes;
        current := current + [s[i]];
      } else if s[i] == ',' && !inQuotes {
        result := result + [current];
        current := "";
      } else {
        current := current + [s[i]];
      }
    }
    if current != "" {
      result := result + [current];
    }
    PiecesWellSplit(s, false, "");
    JoinPieces(s, false, "");
  }

  /** AuthorizedKeyOptions */
  class OptionsRecord {
    var command: string
    var environment: map<string, string>
    var from: seq<string>
    var noPortForwarding: bool
    var noPTY: bool
    var noUserRC: bool
    var noX11Forwarding: bool
    var noAgentForwarding: bool
    var pty: bool
    var restrictAuth: seq<string>

    function Value(): Options
      reads this
    {
      Options(command, environment, from, noPortForwarding, noPTY, noUserRC, noX11Forwarding, noAgentForwarding, pty,
        restrictAuth)
    }

    constructor ()
      ensures Value() == NO_OPTIONS
    {
      command, environment, from := "", map[], [];
      noPortForwarding, noPTY, noUserRC := false, false, false;
      noX11Forwarding, noAgentForwarding, pty := false, false, false;
      restrictAuth := [];
    }

    method ParseEnvironmentOption(value: string)
      modifies this`environment
      ensures Value() == WithEnvironment(old(Value()), value)
    {
      var i := IndexOf(value, '=');
      if i < |value| {
        environment := environment[value[..i] := value[i + 1..]];
      }
    }

    method ParseFromOption(value: string)
      modifies this`from
      ensures Value() == old(Value()).(from := old(from) + TrimAll(Split(value, ',')))
    {
      var hosts := Split(value, ',');
      for i := 0 to |hosts|
        invariant from + TrimAll(hosts[i..]) == old(from) + TrimAll(hosts)
      {
        assert hosts[i..][1..] == hosts[i + 1..];
        from := from + [TrimSpace(hosts[i])];
      }
    }

    method ParseFlagOption(opt: string)
      modifies this
      ensures Value() == WithFlag(old(Value()), opt)
    {
      match opt
      case "no-port-forwarding" => noPortForwarding := true;
      case "no-pty" => noPTY := true;
      case "no-user-rc" => noUserRC := true;
      case "no-X11-forwarding" => noX11Forwarding := true;
      case "no-agent-forwarding" => noAgentForwarding := true;
      case "pty" => pty := true;
      case _ =>
    }

    method ParseKeyValueOption(opt: string)
      requires '=' in opt
      modifies this
      ensures Value() == WithKeyValue(old(Value()), opt)
    {
      var (key, value) := KeyValue(opt);
      match key
      case "command" => command := value;
      case "environment" => ParseEnvironmentOption(value);
      case "from" => ParseFromOption(value);
      case _ =>
    }

    method ParseOption(opt: string)
      modifies this
      ensures Value() == WithOption(old(Value()), opt)
    {
      if '=' in opt {
        ParseKeyValueOption(opt);
      } else {
        ParseFlagOption(opt);
      }
    }
  }

  /** parseOptionsList */
  method ParseOptionsList(text: string) returns (options: OptionsRecord)
    ensures fresh(options) && options.Value() == OptionsOf(text)
  {
    options := new OptionsRecord();
    if text == "" {
      return;
    }
    var pieces := ParseCommaSeparated(text);
    for i := 0 to |pieces|
      invariant fresh(options)
      invariant WithPieces(options.Value(), pieces[i..]) == OptionsOf(text)
    {
      assert pieces[i..][1..] == pieces[i + 1..];
      var opt := TrimSpace(pieces[i]);
      if opt != "" {
        options.ParseOption(opt);
      }
    }
  }
}
