/** Unsigned 64-bit integers and the decimal parse `str::parse::<u64>` that turns a
    page's `last` cursor into the next `since`. */
module Uint64 {
  import opened Results

  const MAX: int := 0xFFFF_FFFF_FFFF_FFFF

  type u64 = x: int | 0 <= x <= MAX

  /** The kinds of `ParseIntError` that parsing a `u64` can report. */
  datatype IntErrorKind = Empty | InvalidDigit | PosOverflow

  predicate IsDigit(c: char) { '0' <= c <= '9' }

  predicate AllDigits(s: string) { forall i | 0 <= i < |s| :: IsDigit(s[i]) }

  function DigitValue(c: char): (d: nat)
    requires IsDigit(c)
    ensures d < 10
  {
    (c as int) - ('0' as int)
  }

  function DigitChar(d: nat): (c: char)
    requires d < 10
    ensures IsDigit(c) && DigitValue(c) == d
  {
    (('0' as int) + d) as char
  }

  /** The text after an optional leading `+`. */
  function Unsigned(s: string): (d: string)
  {
    if s != [] && s[0] == '+' then s[1..] else s
  }

  /** `<u64 as FromStr>::from_str`: an optional `+`, then decimal digits read from the
      left, each one checked before the running value is multiplied by ten and the
      digit added, either step failing on overflow. */
  function Parse(s: string): (r: Result<u64, IntErrorKind>)
    ensures r == Err(Empty) <==> s == []
  {
    if s == [] then Err(Empty)
    else if s == "+" then Err(InvalidDigit)
    else
      AccumulateNotEmpty(Unsigned(s), 0);
      Accumulate(Unsigned(s), 0)
  }

  function Accumulate(digits: string, acc: u64): (r: Result<u64, IntErrorKind>)
    decreases |digits|
  {
    if digits == [] then Ok(acc)
    else if !IsDigit(digits[0]) then Err(InvalidDigit)
    else if acc * 10 + DigitValue(digits[0]) > MAX then Err(PosOverflow)
    else Accumulate(digits[1..], acc * 10 + DigitValue(digits[0]))
  }

  lemma {:induction false} AccumulateNotEmpty(digits: string, acc: u64)
    ensures Accumulate(digits, acc) != Err(Empty)
    decreases |digits|
  {
    if digits != [] && IsDigit(digits[0]) && acc * 10 + DigitValue(digits[0]) <= MAX {
      AccumulateNotEmpty(digits[1..], acc * 10 + DigitValue(digits[0]));
    }
  }

  /** Reading `a + b` is reading `a` and then reading `b` from where `a` left off. */
  lemma {:induction false} AccumulateConcat(a: string, b: string, acc: u64)
    ensures Accumulate(a + b, acc) ==
              match Accumulate(a, acc)
              case Ok(v) => Accumulate(b, v)
              case Err(e) => Err(e)
    decreases |a|
  {
    if a != [] {
      assert (a + b)[0] == a[0] && (a + b)[1..] == a[1..] + b;
      if IsDigit(a[0]) && acc * 10 + DigitValue(a[0]) <= MAX {
        AccumulateConcat(a[1..], b, acc * 10 + DigitValue(a[0]));
      }
    } else {
      assert a + b == b;
    }
  }

  function Pow10(n: nat): (p: nat)
    ensures p >= 1
  {
    if n == 0 then 1 else 10 * Pow10(n - 1)
  }

  /** The number a string of decimal digits denotes, most significant first. */
  function Value(digits: string): (v: nat)
    requires AllDigits(digits)
  {
    if digits == [] then 0
    else DigitValue(digits[0]) * Pow10(|digits| - 1) + Value(digits[1..])
  }

  /** The texts `from_str` accepts as a `u64`: an optional `+` and then one or more
      decimal digits whose value fits in 64 bits (leading zeros allowed). */
  predicate IsLiteral(s: string)
  {
    var d := Unsigned(s);
    d != [] && AllDigits(d) && Value(d) <= MAX
  }

  lemma ShiftDigit(acc: nat, d: nat, p: nat)
    ensures acc * (10 * p) + d * p == (acc * 10 + d) * p
  {
  }

  lemma AtLeast(x: nat, p: nat)
    requires p >= 1
    ensures x * p >= x
  {
  }

  lemma AllDigitsTail(digits: string)
    requires digits != []
    ensures AllDigits(digits) <==> IsDigit(digits[0]) && AllDigits(digits[1..])
  {
  }

  lemma {:induction false} AccumulateMeaning(digits: string, acc: u64)
    ensures Accumulate(digits, acc).Ok?
        <==> AllDigits(digits) && acc * Pow10(|digits|) + Value(digits) <= MAX
    ensures Accumulate(digits, acc).Ok? ==>
        Accumulate(digits, acc).value == acc * Pow10(|digits|) + Value(digits)
    ensures AllDigits(digits) ==> Accumulate(digits, acc) != Err(InvalidDigit)
    decreases |digits|
  {
    if digits != [] && IsDigit(digits[0]) {
      AllDigitsTail(digits);
      var p := Pow10(|digits| - 1);
      var d := DigitValue(digits[0]);
      var rest := digits[1..];
      assert Pow10(|digits|) == 10 * p;
      ShiftDigit(acc, d, p);
      if AllDigits(digits) {
        assert acc * Pow10(|digits|) + Value(digits) == (acc * 10 + d) * p + Value(rest);
      }
      if acc * 10 + d > MAX {
        AtLeast(acc * 10 + d, p);
      } else {
        AccumulateMeaning(rest, acc * 10 + d);
      }
    }
  }

  /** `Parse` succeeds exactly on the literals, with the value they denote. */
  lemma ParseMeaning(s: string)
    ensures Parse(s).Ok? <==> IsLiteral(s)
    ensures Parse(s).Ok? ==> Parse(s).value == Value(Unsigned(s))
  {
    if s != [] && s != "+" {
      AccumulateMeaning(Unsigned(s), 0);
    }
  }

  /** A digit string that is too large for 64 bits is reported as an overflow,
      not as an invalid digit. */
  lemma ParseOverflow(s: string)
    requires Unsigned(s) != [] && AllDigits(Unsigned(s)) && Value(Unsigned(s)) > MAX
    ensures Parse(s) == Err(PosOverflow)
  {
    var d := Unsigned(s);
    AccumulateMeaning(d, 0);
    AccumulateNotEmpty(d, 0);
    assert 0 * Pow10(|d|) == 0;
    assert s != "+";
    assert Parse(s) == Accumulate(d, 0);
    assert Accumulate(d, 0).error != Empty;
    assert Accumulate(d, 0).error != InvalidDigit;
  }

  /** Decimal rendering without leading zeros, as a `u64` is written into a query
      string or into the exchange's `last` field. */
  function Render(n: nat): (s: string)
    ensures s != [] && AllDigits(s)
  {
    if n < 10 then [DigitChar(n)] else Render(n / 10) + [DigitChar(n % 10)]
  }

  lemma {:induction false} ValueSnoc(s: string, c: char)
    requires AllDigits(s) && IsDigit(c)
    ensures AllDigits(s + [c]) && Value(s + [c]) == 10 * Value(s) + DigitValue(c)
  {
    var t := s + [c];
    assert forall i | 0 <= i < |t| :: t[i] == if i < |s| then s[i] else c;
    if s != [] {
      AllDigitsTail(s);
      assert t[1..] == s[1..] + [c];
      ValueSnoc(s[1..], c);
      var p := Pow10(|s| - 1);
      var d := DigitValue(s[0]);
      assert Pow10(|s|) == 10 * p;
      Scale(d, p, Value(s[1..]), DigitValue(c));
    }
  }

  lemma Scale(d: nat, p: nat, v: nat, e: nat)
    ensures d * (10 * p) + (10 * v + e) == 10 * (d * p + v) + e
  {
  }

  lemma {:induction false} RenderValue(n: nat)
    ensures Value(Render(n)) == n
  {
    if n >= 10 {
      RenderValue(n / 10);
      ValueSnoc(Render(n / 10), DigitChar(n % 10));
    }
  }

  /** A cursor survives being written in decimal and parsed back. */
  lemma RenderRoundTrip(n: u64)
    ensures Parse(Render(n)) == Ok(n)
  {
    RenderValue(n);
    ParseMeaning(Render(n));
  }
}
