/** The two integer conversions of Go's `strconv` and `fmt` that the
    validation rules depend on: `strconv.Atoi` (parse) and the `%d` verb
    (format), on a 64-bit platform. */
module Strconv {
  import opened Common

  const MinInt64: int := -0x8000_0000_0000_0000
  const MaxInt64: int := 0x7fff_ffff_ffff_ffff

  predicate IsDigit(c: char) {
    '0' <= c <= '9'
  }

  predicate AllDigits(s: string) {
    forall i :: 0 <= i < |s| ==> IsDigit(s[i])
  }

  /** The value of a run of decimal digits, most significant first. */
  function DigitsValue(s: string): nat
    requires AllDigits(s)
  {
    if s == [] then 0
    else 10 * DigitsValue(s[..|s| - 1]) + (s[|s| - 1] as int - '0' as int)
  }

  /** The digits `strconv.Atoi` reads: what follows one optional `+` or `-`. */
  function Unsigned(s: string): string
    requires s != []
  {
    if s[0] == '-' || s[0] == '+' then s[1..] else s
  }

  /** The signed value of an optional sign followed by digits. */
  function SignedValue(s: string): int
    requires s != [] && AllDigits(Unsigned(s))
  {
    var magnitude: int := DigitsValue(Unsigned(s));
    if s[0] == '-' then -magnitude else magnitude
  }

  /** `strconv.Atoi`: an optional sign, then one or more ASCII digits, with
      the value inside the 64-bit `int` range; anything else is an error
      (a syntax error, or a range error for too many digits). No spaces and
      no underscores are accepted. */
  function Atoi(s: string): (r: Option<int>)
    ensures r.Some? ==> MinInt64 <= r.value <= MaxInt64
  {
    if s == [] then None
    else
      var digits := Unsigned(s);
      if digits == [] || !AllDigits(digits) then None
      else
        var v := SignedValue(s);
        if MinInt64 <= v <= MaxInt64 then Some(v) else None
  }

  /** The shortest decimal digits of a natural number. */
  function NatDigits(n: nat): string
  {
    if n < 10 then [('0' as int + n) as char]
    else NatDigits(n / 10) + [('0' as int + n % 10) as char]
  }

  /** `fmt.Sprintf("%d", n)` (equally `strconv.Itoa`). */
  function Itoa(n: int): string
  {
    if n < 0 then "-" + NatDigits(-n) else NatDigits(n)
  }

  lemma {:induction false} NatDigitsValue(n: nat)
    ensures NatDigits(n) != [] && AllDigits(NatDigits(n))
    ensures DigitsValue(NatDigits(n)) == n
  {
    if n >= 10 {
      NatDigitsValue(n / 10);
      var s := NatDigits(n);
      assert s[..|s| - 1] == NatDigits(n / 10);
    }
  }

  /** Parsing what `%d` prints gives the number back, for every 64-bit `int`. */
  lemma ItoaRoundTrip(n: int)
    requires MinInt64 <= n <= MaxInt64
    ensures Atoi(Itoa(n)) == Some(n)
  {
    NatDigitsValue(if n < 0 then -n else n);
    var s := Itoa(n);
    if n < 0 {
      assert s[1..] == NatDigits(-n);
    } else {
      assert IsDigit(s[0]);
    }
  }

  /** `%d` never prints a `+` and always prints at least one digit. */
  lemma ItoaShape(n: int)
    ensures Itoa(n) != [] && Itoa(n)[0] != '+'
    ensures n >= 0 <==> IsDigit(Itoa(n)[0])
  {
    NatDigitsValue(if n < 0 then -n else n);
    assert IsDigit(NatDigits(if n < 0 then -n else n)[0]);
  }

  /** A leading `+` is accepted and changes nothing; a leading `-` negates. */
  lemma SignedDigits(d: string)
    requires d != [] && AllDigits(d) && DigitsValue(d) <= MaxInt64
    ensures Atoi(d) == Some(DigitsValue(d))
    ensures Atoi("+" + d) == Some(DigitsValue(d))
    ensures Atoi("-" + d) == Some(0 - DigitsValue(d))
  {
    assert IsDigit(d[0]);
    assert ("+" + d)[1..] == d;
    assert ("-" + d)[1..] == d;
  }

  /** A well-formed number outside the 64-bit range is refused (Go's range
      error): digits above MaxInt64 with no sign or with `+`, and digits
      above -MinInt64 after `-`; -MinInt64 itself is accepted after `-`. */
  lemma OutOfRangeRefused(d: string)
    requires d != [] && AllDigits(d)
    ensures Atoi(d) == None <==> DigitsValue(d) > MaxInt64
    ensures Atoi("+" + d) == None <==> DigitsValue(d) > MaxInt64
    ensures Atoi("-" + d) == None <==> DigitsValue(d) > -MinInt64
    ensures DigitsValue(d) == -MinInt64 ==> Atoi("-" + d) == Some(MinInt64)
  {
    assert IsDigit(d[0]);
    assert ("+" + d)[1..] == d;
    assert ("-" + d)[1..] == d;
  }

  /** Anything but digits after the optional sign is refused: an empty
      string, a lone sign, spaces, underscores, a second sign. */
  lemma NonDigitRefused(s: string, i: nat)
    requires s != [] && i < |Unsigned(s)| && !IsDigit(Unsigned(s)[i])
    ensures Atoi(s) == None
  {
  }

  lemma EmptyOrSignOnlyRefused(s: string)
    requires s == [] || s == "+" || s == "-"
    ensures Atoi(s) == None
  {
  }
}
