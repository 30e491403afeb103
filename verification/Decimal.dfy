/** Decimal numbers in strings, as Go's strconv reads and writes them. */
module Decimal {
  import opened Prelude

  const MAX_INT := 0x7fff_ffff_ffff_ffff
  const MIN_INT := -0x8000_0000_0000_0000

  predicate IsDigit(c: char) {
    '0' <= c <= '9'
  }

  predicate AllDigits(s: string) {
    s != "" && forall i :: 0 <= i < |s| ==> IsDigit(s[i])
  }

  function Value(digits: string): (n: nat)
    requires forall i :: 0 <= i < |digits| ==> IsDigit(digits[i])
  {
    if digits == "" then 0
    else
      assert IsDigit(digits[|digits| - 1]);
      10 * Value(digits[..|digits| - 1]) + (digits[|digits| - 1] as int - '0' as int)
  }

  function InRange(n: int): Option<int> {
    if MIN_INT <= n <= MAX_INT then Some(n) else None
  }

  /** strconv.Atoi, on a platform with 64-bit int */
  function Atoi(s: string): Option<int> {
    if AllDigits(s) then InRange(Value(s))
    else if s != "" && (s[0] == '-' || s[0] == '+') && AllDigits(s[1..]) then
      InRange(if s[0] == '-' then 0 - Value(s[1..]) else Value(s[1..]))
    else None
  }

  /** strconv.Itoa, for numbers that are not negative */
  function Itoa(n: nat): string {
    var digit := [(n % 10) as char + '0'];
    if n < 10 then digit else Itoa(n / 10) + digit
  }

  lemma {:induction false} ItoaDigits(n: nat)
    ensures AllDigits(Itoa(n))
  {
    if n >= 10 {
      ItoaDigits(n / 10);
    }
  }

  lemma {:induction false} ItoaValue(n: nat)
    ensures AllDigits(Itoa(n)) && Value(Itoa(n)) == n
  {
    ItoaDigits(n);
    var s := Itoa(n);
    if n >= 10 {
      ItoaValue(n / 10);
      assert s[..|s| - 1] == Itoa(n / 10);
    } else {
      assert s[..|s| - 1] == "";
    }
  }

  lemma AtoiItoa(n: nat)
    requires n <= MAX_INT
    ensures Atoi(Itoa(n)) == Some(n)
  {
    ItoaValue(n);
  }

  /** A text with a colon in it is not a number. */
  lemma ColonIsNoNumber(s: string)
    requires ':' in s
    ensures Atoi(s) == None
  {
    var i :| 0 <= i < |s| && s[i] == ':';
    if i > 0 {
      assert s[1..][i - 1] == ':';
    }
  }

  /** A text is read as n when it is a sign or none and digits whose value is n, within the range of int. */
  lemma AtoiIs(s: string, n: int)
    ensures Atoi(s) == Some(n) <==>
            && -0x8000_0000_0000_0000 <= n <= 0x7fff_ffff_ffff_ffff
            && exists sign: string, digits ::
                 && s == sign + digits && (sign == "" || sign == "+" || sign == "-") && AllDigits(digits)
                 && n == if sign == "-" then 0 - Value(digits) else Value(digits)
  {
    if AllDigits(s) {
      assert s == "" + s;
    } else if s != "" && (s[0] == '-' || s[0] == '+') && AllDigits(s[1..]) {
      assert s == [s[0]] + s[1..];
    }
    forall sign: string, digits |
        s == sign + digits && (sign == "" || sign == "+" || sign == "-") && AllDigits(digits)
      ensures sign == "" ==> s == digits && AllDigits(s)
      ensures sign != "" ==> s[0] == sign[0] && s[1..] == digits && !AllDigits(s)
    {
      assert sign != "" ==> !IsDigit(s[0]);
    }
  }

  /** Zeros in front do not matter. */
  lemma {:induction false} LeadingZero(digits: string)
    requires forall i :: 0 <= i < |digits| ==> IsDigit(digits[i])
    ensures forall i :: 0 <= i < |digits| + 1 ==> IsDigit(("0" + digits)[i])
    ensures Value("0" + digits) == Value(digits)
  {
    var s := "0" + digits;
    if digits == "" {
      assert s[..0] == "";
    } else {
      var front := digits[..|digits| - 1];
      LeadingZero(front);
      assert s[..|s| - 1] == "0" + front;
    }
  }
}
