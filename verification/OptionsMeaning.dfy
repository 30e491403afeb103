/** What each piece of an options list says, whatever it looks like. */
module OptionsMeaning {
  import opened Prelude
  import opened Text
  import opened AuthorizedKeys
  import opened OptionsRoundTrip

  /** v with one pair of quotes around it taken off. */
  predicate Unquotes(v: string, value: string) {
    v == "\"" + value + "\"" || (value == v && !(|v| >= 2 && v[0] == '"' && v[|v| - 1] == '"'))
  }

  /** The piece is k=v, its key is `key` and its value `value`, but for space and quotes around them. */
  ghost predicate Gives(piece: string, key: string, value: string) {
    exists k, v ::
      TrimSpace(piece) == k + "=" + v && '=' !in k && TrimSpace(k) == key && Unquotes(TrimSpace(v), value)
  }

  lemma KeyValueIs(opt: string, k: string, v: string, key: string, value: string)
    requires opt == k + "=" + v && '=' !in k && TrimSpace(k) == key && Unquotes(TrimSpace(v), value)
    ensures '=' in opt && KeyValue(opt) == (key, value)
  {
    CutAtEquals(opt, k, v);
    if TrimSpace(v) == "\"" + value + "\"" {
      assert TrimSpace(v)[1..|TrimSpace(v)| - 1] == value;
    }
  }

  /** A piece with an equals sign gives something. */
  lemma GivesSomething(piece: string) returns (key: string, value: string)
    requires '=' in TrimSpace(piece)
    ensures Gives(piece, key, value)
  {
    var opt := TrimSpace(piece);
    var i := IndexOf(opt, '=');
    assert i < |opt|;
    var v := TrimSpace(opt[i + 1..]);
    key := TrimSpace(opt[..i]);
    value := if |v| >= 2 && v[0] == '"' && v[|v| - 1] == '"' then v[1..|v| - 1] else v;
    assert opt == opt[..i] + "=" + opt[i + 1..];
    assert value != v ==> v == "\"" + value + "\"";
  }

  lemma {:induction false} PiecesInTurn(o: Options, a: seq<string>, b: seq<string>)
    ensures WithPieces(o, a + b) == WithPieces(WithPieces(o, a), b)
    decreases |a|
  {
    if a == [] {
      assert a + b == b;
    } else {
      assert (a + b)[1..] == a[1..] + b;
      var opt := TrimSpace(a[0]);
      PiecesInTurn(if opt == "" then o else WithOption(o, opt), a[1..], b);
    }
  }

  lemma OnePiece(o: Options, piece: string)
    ensures WithPieces(o, [piece]) == if TrimSpace(piece) == "" then o else WithOption(o, TrimSpace(piece))
  {
    assert [piece][1..] == [];
  }

  /** A piece without an equals sign sets the flag that it is, if it is one. */
  lemma FlagPieceMeans(o: Options, piece: string)
    requires '=' !in TrimSpace(piece)
    ensures var flag := TrimSpace(piece);
            WithPieces(o, [piece]) ==
            o.(noPortForwarding := o.noPortForwarding || flag == "no-port-forwarding",
               noPTY := o.noPTY || flag == "no-pty",
               noUserRC := o.noUserRC || flag == "no-user-rc",
               noX11Forwarding := o.noX11Forwarding || flag == "no-X11-forwarding",
               noAgentForwarding := o.noAgentForwarding || flag == "no-agent-forwarding",
               pty := o.pty || flag == "pty")
  {
    OnePiece(o, piece);
  }

  /** The last command given is the command. */
  lemma CommandPieceMeans(o: Options, piece: string, value: string)
    requires Gives(piece, "command", value)
    ensures WithPieces(o, [piece]) == o.(command := value)
  {
    GivenOption(o, piece, "command", value);
  }

  /** An environment piece sets the variable before its first equals sign; without one it says nothing. */
  lemma EnvironmentPieceMeans(o: Options, piece: string, value: string)
    requires Gives(piece, "environment", value)
    ensures forall name, v :: value == name + "=" + v && '=' !in name ==>
              WithPieces(o, [piece]) == o.(environment := o.environment[name := v])
    ensures '=' !in value ==> WithPieces(o, [piece]) == o
  {
    GivenOption(o, piece, "environment", value);
    forall name, v | value == name + "=" + v && '=' !in name
      ensures WithPieces(o, [piece]) == o.(environment := o.environment[name := v])
    {
      CutAtEquals(value, name, v);
    }
  }

  lemma CutAtEquals(value: string, name: string, v: string)
    requires value == name + "=" + v && '=' !in name
    ensures var i := IndexOf(value, '='); i < |value| && value[..i] == name && value[i + 1..] == v
  {
    assert value == name + ['='] + v;
    IndexOfFirst(name, v, '=');
  }

  /** A from piece adds its hosts, in order and without the space around them. */
  lemma FromPieceMeans(o: Options, piece: string, value: string)
    requires Gives(piece, "from", value)
    ensures var hosts := Split(value, ',');
            WithPieces(o, [piece]) ==
            o.(from := o.from + seq(|hosts|, i requires 0 <= i < |hosts| => TrimSpace(hosts[i])))
  {
    GivenOption(o, piece, "from", value);
    TrimAllIs(Split(value, ','));
  }

  lemma {:induction false} TrimAllIs(parts: seq<string>)
    ensures TrimAll(parts) == seq(|parts|, i requires 0 <= i < |parts| => TrimSpace(parts[i]))
  {
    if parts != [] {
      TrimAllIs(parts[1..]);
    }
  }

  /** Any other key says nothing. */
  lemma OtherPieceMeans(o: Options, piece: string, key: string, value: string)
    requires Gives(piece, key, value) && key != "command" && key != "environment" && key != "from"
    ensures WithPieces(o, [piece]) == o
  {
    GivenOption(o, piece, key, value);
  }

  lemma GivenOption(o: Options, piece: string, key: string, value: string)
    requires Gives(piece, key, value)
    ensures var opt := TrimSpace(piece);
            '=' in opt && KeyValue(opt) == (key, value) && WithPieces(o, [piece]) == WithKeyValue(o, opt)
  {
    var k, v :|
      TrimSpace(piece) == k + "=" + v && '=' !in k && TrimSpace(k) == key && Unquotes(TrimSpace(v), value);
    KeyValueIs(TrimSpace(piece), k, v, key, value);
    OnePiece(o, piece);
  }

  /** The options of a text are its pieces, said in turn over nothing. */
  lemma OptionsAreTheirPieces(text: string)
    ensures OptionsOf(text) ==
            WithPieces(Options("", map[], [], false, false, false, false, false, false, []), Pieces(text, false, ""))
  {
  }
}
