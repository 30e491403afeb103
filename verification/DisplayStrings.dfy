/** DISPLAY strings: [host]:display[.screen]. */
module DisplayStrings {
  import opened Decimal
  import opened Prelude

  /** strings.LastIndex(s, c), None for -1 */
  function LastIndex(s: string, c: char): (r: Option<nat>)
    ensures r.Some? ==> r.value < |s| && s[r.value] == c && c !in s[r.value + 1..]
    ensures r.None? ==> c !in s
  {
    if s == "" then None
    else if s[|s| - 1] == c then Some(|s| - 1)
    else LastIndex(s[..|s| - 1], c)
  }

  datatype Parsed = Invalid | Display(host: string, display: int, screen: int)

  /** The text before a final ".number", and the number; the whole text and 0 if there is none. */
  function CutScreen(text: string): (string, int) {
    match LastIndex(text, '.')
    case Some(i) =>
      (match Atoi(text[i + 1..])
       case Some(screen) => (text[..i], screen)
       case None => (text, 0))
    case None => (text, 0)
  }

  /** ParseDisplayNumber */
  function Parse(text: string): Parsed {
    if text == "" then Invalid
    else
      var (rest, screen) := CutScreen(text);
      match LastIndex(rest, ':')
      case None => Invalid
      case Some(i) =>
        match Atoi(rest[i + 1..])
        case Some(display) => Display(rest[..i], display, screen)
        case None => Invalid
  }

  function Print(host: string, display: nat, screen: Option<nat>): string {
    host + ":" + Itoa(display) + match screen case Some(n) => "." + Itoa(n) case None => ""
  }

  lemma {:induction false} LastIndexIs(a: string, c: char, b: string)
    requires c !in b
    ensures LastIndex(a + [c] + b, c) == Some(|a|)
  {
    var s := a + [c] + b;
    if b != "" {
      var front := b[..|b| - 1];
      assert s[|s| - 1] == b[|b| - 1] && s[..|s| - 1] == a + [c] + front;
      LastIndexIs(a, c, front);
    }
  }

  lemma CutPrintedScreen(host: string, display: nat, screen: Option<nat>)
    requires screen.Some? ==> screen.value <= MAX_INT
    ensures CutScreen(Print(host, display, screen)) ==
            (host + ":" + Itoa(display), if screen.Some? then screen.value else 0)
  {
    var front := host + ":" + Itoa(display);
    var text := Print(host, display, screen);
    match screen
    case Some(n) =>
      assert text == front + ['.'] + Itoa(n);
      ItoaDigits(n);
      LastIndexIs(front, '.', Itoa(n));
      assert text[|front| + 1..] == Itoa(n) && text[..|front|] == front;
      AtoiItoa(n);
    case None =>
      assert text == front;
      ItoaDigits(display);
      var dot := LastIndex(text, '.');
      if dot.Some? {
        assert dot.value < |host|;
        assert text[dot.value + 1..][|host| - dot.value - 1] == ':';
        ColonIsNoNumber(text[dot.value + 1..]);
      }
  }

  /** Parsing undoes printing, for every host: with dots, with colons, or empty. */
  lemma PrintParse(host: string, display: nat, screen: Option<nat>)
    requires display <= MAX_INT && (screen.Some? ==> screen.value <= MAX_INT)
    ensures Parse(Print(host, display, screen)) ==
            Display(host, display, if screen.Some? then screen.value else 0)
  {
    CutPrintedScreen(host, display, screen);
    var rest := host + ":" + Itoa(display);
    assert rest == host + [':'] + Itoa(display);
    ItoaDigits(display);
    LastIndexIs(host, ':', Itoa(display));
    assert rest[|host| + 1..] == Itoa(display) && rest[..|host|] == host;
    AtoiItoa(display);
  }

  /** A text with a dot in it is not a number. */
  lemma DotIsNoNumber(s: string)
    requires '.' in s
    ensures Atoi(s) == None
  {
    var i :| 0 <= i < |s| && s[i] == '.';
    if i > 0 {
      assert s[1..][i - 1] == '.';
    }
  }

  lemma TooLargeDisplay(host: string, display: nat, screen: Option<nat>)
    requires display > MAX_INT && (screen.Some? ==> screen.value <= MAX_INT)
    ensures Parse(Print(host, display, screen)) == Invalid
  {
    CutPrintedScreen(host, display, screen);
    var rest := host + ":" + Itoa(display);
    assert rest == host + [':'] + Itoa(display);
    ItoaValue(display);
    LastIndexIs(host, ':', Itoa(display));
    assert rest[|host| + 1..] == Itoa(display);
  }

  /** A screen number that is too large stays with the text. */
  lemma ScreenStays(front: string, screen: nat)
    requires screen > MAX_INT
    ensures var text := front + ['.'] + Itoa(screen); CutScreen(text) == (text, 0)
  {
    var text := front + ['.'] + Itoa(screen);
    ItoaValue(screen);
    LastIndexIs(front, '.', Itoa(screen));
    assert text[|front| + 1..] == Itoa(screen);
  }

  /** After a last colon with a dot behind it there is no display number. */
  lemma DottedIsInvalid(host: string, tail: string)
    requires ':' !in tail && '.' in tail && CutScreen(host + [':'] + tail).0 == host + [':'] + tail
    ensures Parse(host + [':'] + tail) == Invalid
  {
    var text := host + [':'] + tail;
    LastIndexIs(host, ':', tail);
    assert text[|host| + 1..] == tail;
    DotIsNoNumber(tail);
  }

  lemma Regroup(host: string, display: string, screen: string)
    ensures host + ":" + display + ("." + screen) == host + [':'] + (display + "." + screen)
    ensures host + ":" + display + ("." + screen) == (host + ":" + display) + ['.'] + screen
    ensures '.' in display + "." + screen
  {
    assert (display + "." + screen)[|display|] == '.';
  }

  lemma TooLargeScreen(host: string, display: nat, screen: nat)
    requires screen > MAX_INT
    ensures Parse(Print(host, display, Some(screen))) == Invalid
  {
    Regroup(host, Itoa(display), Itoa(screen));
    ScreenStays(host + ":" + Itoa(display), screen);
    NoColonIn(display, screen);
    DottedIsInvalid(host, Itoa(display) + "." + Itoa(screen));
  }

  lemma NoColonIn(display: nat, screen: nat)
    ensures ':' !in Itoa(display) + "." + Itoa(screen)
  {
    ItoaDigits(display);
    ItoaDigits(screen);
  }

  /** A printed display is read back exactly when both numbers are in the int range; otherwise it is refused. */
  lemma PrintParseIff(host: string, display: nat, screen: Option<nat>)
    ensures Parse(Print(host, display, screen)) ==
            if display <= MAX_INT && (screen.Some? ==> screen.value <= MAX_INT)
            then Display(host, display, if screen.Some? then screen.value else 0)
            else Invalid
  {
    if screen.Some? && screen.value > MAX_INT {
      TooLargeScreen(host, display, screen.value);
    } else if display > MAX_INT {
      TooLargeDisplay(host, display, screen);
    } else {
      PrintParse(host, display, screen);
    }
  }

  /** The text ends in a dot and a number without one. */
  ghost predicate EndsInNumber(text: string, rest: string, n: int) {
    exists tail :: text == rest + "." + tail && '.' !in tail && Atoi(tail) == Some(n)
  }

  /** What is before the screen number, and that number, 0 if there is none. */
  ghost predicate ScreenIs(text: string, rest: string, screen: int) {
    EndsInNumber(text, rest, screen) ||
    (rest == text && screen == 0 && forall front, n :: !EndsInNumber(text, front, n))
  }

  lemma CutScreenIs(text: string, rest: string, screen: int)
    ensures CutScreen(text) == (rest, screen) <==> ScreenIs(text, rest, screen)
  {
    forall front, n | EndsInNumber(text, front, n)
      ensures CutScreen(text) == (front, n)
    {
      var tail :| text == front + "." + tail && '.' !in tail && Atoi(tail) == Some(n);
      assert text == front + ['.'] + tail;
      LastIndexIs(front, '.', tail);
      assert text[|front| + 1..] == tail && text[..|front|] == front;
    }
    match LastIndex(text, '.')
    case None =>
    case Some(i) =>
      assert text == text[..i] + "." + text[i + 1..];
      if Atoi(text[i + 1..]).Some? {
        assert EndsInNumber(text, text[..i], Atoi(text[i + 1..]).value);
      }
  }

  /**
    ParseDisplayNumber on any text: the host is what is before the last colon of what is before the screen,
    and the display is the number behind it; without them the text is refused.
   */
  lemma ParseIs(text: string, host: string, display: int, screen: int)
    ensures Parse(text) == Display(host, display, screen) <==>
            exists digits ::
              ScreenIs(text, host + ":" + digits, screen) && ':' !in digits && Atoi(digits) == Some(display)
  {
    var (rest, found) := CutScreen(text);
    CutScreenIs(text, rest, found);
    forall digits | ScreenIs(text, host + ":" + digits, screen) && ':' !in digits && Atoi(digits) == Some(display)
      ensures Parse(text) == Display(host, display, screen)
    {
      CutScreenIs(text, host + ":" + digits, screen);
      assert rest == host + [':'] + digits;
      LastIndexIs(host, ':', digits);
      assert rest[|host| + 1..] == digits && rest[..|host|] == host;
      NotEmptyText(text, rest, screen);
    }
    if Parse(text) == Display(host, display, screen) {
      var i := LastIndex(rest, ':').value;
      assert rest == rest[..i] + ":" + rest[i + 1..];
    }
  }

  lemma NotEmptyText(text: string, rest: string, screen: int)
    requires ScreenIs(text, rest, screen) && rest != ""
    ensures text != ""
  {
  }
}
