/**
 Decimal text: the integers that strconv.Atoi and encoding/json read, and the two-decimal
 amounts that Amount.MarshalJSON writes. Values are exact reals; rounding happens only
 where the code asks for it, in printing an amount.
 */
module Decimals {
  import opened Wrappers

  // ---- digits ----

  predicate IsDigit(c: char) {
    '0' <= c <= '9'
  }

  function DigitChar(d: nat): char
    requires d < 10
  {
    '0' + d as char
  }

  predicate AllDigits(s: string) {
    forall i | 0 <= i < |s| :: IsDigit(s[i])
  }

  function DigitsValue(s: string): nat
    requires AllDigits(s)
  {
    if s == "" then 0
    else 10 * DigitsValue(s[..|s| - 1]) + (s[|s| - 1] as int - '0' as int)
  }

  function NatText(n: nat): (s: string)
    ensures s != "" && AllDigits(s)
  {
    if n < 10 then [DigitChar(n)] else NatText(n / 10) + [DigitChar(n % 10)]
  }

  lemma {:induction false} NatTextValue(n: nat)
    ensures DigitsValue(NatText(n)) == n
  {
    if n >= 10 {
      NatTextValue(n / 10);
      assert NatText(n)[..|NatText(n)| - 1] == NatText(n / 10);
    } else {
      assert NatText(n)[..0] == "";
    }
  }

  // ---- 64-bit integers ----

  const MAX_INT64 := 0x7fff_ffff_ffff_ffff
  const MIN_INT64 := -0x8000_0000_0000_0000

  predicate FitsInt64(i: int) {
    MIN_INT64 <= i <= MAX_INT64
  }

  function IntText(i: int): (s: string)
    ensures s != "" && forall c | c in s :: IsDigit(c) || c == '-'
  {
    if i < 0 then "-" + NatText(-i) else NatText(i)
  }

  /** strconv.Atoi: an optional sign, at least one digit, and a value that fits. */
  function ParseInt64(s: string): (r: Option<int>)
    ensures r.Some? ==> FitsInt64(r.value)
  {
    var digits := if s != "" && (s[0] == '-' || s[0] == '+') then s[1..] else s;
    if digits == "" || !AllDigits(digits) then None
    else
      var n: int := DigitsValue(digits);
      var v := if s[0] == '-' then -n else n;
      if FitsInt64(v) then Some(v) else None
  }

  lemma IntRoundTrip(i: int)
    requires FitsInt64(i)
    ensures ParseInt64(IntText(i)) == Some(i)
  {
    var n := if i < 0 then -i else i;
    NatTextValue(n);
    assert i < 0 ==> IntText(i)[1..] == NatText(n);
    assert IsDigit(NatText(n)[0]);
  }

  /** A text of digits, perhaps with a sign before it, and the number it stands for. */
  predicate SpelledBy(s: string, v: int, digits: string) {
    && digits != "" && AllDigits(digits)
    && (|| (s == digits && v == DigitsValue(digits))
        || (s == "+" + digits && v == DigitsValue(digits))
        || (s == "-" + digits && v == 0 - DigitsValue(digits)))
  }

  lemma SpelledParses(s: string, v: int, digits: string)
    requires SpelledBy(s, v, digits)
    ensures ParseInt64(s) == if FitsInt64(v) then Some(v) else None
  {
    assert IsDigit(digits[0]);
    hide DigitsValue;
    assert s[0] == '+' || s[0] == '-' ==> s[1..] == digits;
  }

  /** A text parses exactly when it spells a number of 64 bits, and then to that number. */
  lemma ParseInt64Iff(s: string, v: int)
    ensures ParseInt64(s) == Some(v) <==> FitsInt64(v) && exists digits :: SpelledBy(s, v, digits)
  {
    if digits :| SpelledBy(s, v, digits) { SpelledParses(s, v, digits); }
    if ParseInt64(s) == Some(v) {
      var digits := if s[0] == '-' || s[0] == '+' then s[1..] else s;
      hide DigitsValue;
      assert s == digits || s == [s[0]] + digits;
      assert SpelledBy(s, v, digits);
    }
  }

  // ---- amounts ----

  /** The nearest integer, ties to the even one: how FormatFloat drops digits. */
  function RoundHalfEven(y: real): int {
    var f := y.Floor;
    var d := y - f as real;
    if d < 0.5 || (d == 0.5 && f % 2 == 0) then f else f + 1
  }

  function Abs(x: real): real {
    if x < 0.0 then -x else x
  }

  function Hundredths(x: real): nat {
    RoundHalfEven(Abs(x) * 100.0)
  }

  function CentsText(cents: nat): string {
    NatText(cents / 100) + "." + [DigitChar(cents % 100 / 10), DigitChar(cents % 10)]
  }

  /** FormatFloat(x, 'f', 2): sign, whole part, point, exactly two digits. */
  function FormatAmount(x: real): string {
    if x < 0.0 then "-" + CentsText(Hundredths(x)) else CentsText(Hundredths(x))
  }

  function Pow10(n: nat): (r: nat)
    ensures r >= 1
  {
    if n == 0 then 1 else 10 * Pow10(n - 1)
  }

  function PointIndex(s: string): (i: nat)
    ensures i <= |s| && (i < |s| ==> s[i] == '.') && forall k | 0 <= k < i :: s[k] != '.'
  {
    if s == "" || s[0] == '.' then 0 else PointIndex(s[1..]) + 1
  }

  function ParseUnsigned(s: string): Option<real> {
    var p := PointIndex(s);
    var digits := if p < |s| then s[..p] + s[p + 1..] else s;
    if digits == "" || !AllDigits(digits) then None
    else Some(DigitsValue(digits) as real / Pow10(|digits| - p) as real)
  }

  /** ParseFloat on plain decimal text: optional sign, digits, optional point and digits. */
  function ParseAmount(s: string): Option<real> {
    if s != "" && s[0] == '-' then
      var m := ParseUnsigned(s[1..]);
      if m.Some? then Some(-m.value) else None
    else if s != "" && s[0] == '+' then ParseUnsigned(s[1..])
    else ParseUnsigned(s)
  }

  /** An amount to the cent: what the printed form says. */
  function ToCents(x: real): real {
    var magnitude := Hundredths(x) as real / 100.0;
    if x < 0.0 then -magnitude else magnitude
  }

  /** At most two decimals. */
  predicate WholeCents(x: real) {
    (x * 100.0).Floor as real == x * 100.0
  }

  lemma AppendDigit(s: string, d: nat)
    requires AllDigits(s) && d < 10
    ensures AllDigits(s + [DigitChar(d)]) && DigitsValue(s + [DigitChar(d)]) == 10 * DigitsValue(s) + d
  {
    assert (s + [DigitChar(d)])[..|s|] == s;
  }

  lemma CentsDigits(cents: nat)
    ensures cents % 100 / 10 < 10 && 10 * (10 * (cents / 100) + cents % 100 / 10) + cents % 10 == cents
  {
    assert cents == 100 * (cents / 100) + cents % 100;
    assert cents % 100 == 10 * (cents % 100 / 10) + cents % 100 % 10;
    assert cents % 100 % 10 == cents % 10;
  }

  lemma TwoDigits(cents: nat)
    ensures var text := NatText(cents / 100) + [DigitChar(cents % 100 / 10), DigitChar(cents % 10)];
            AllDigits(text) && DigitsValue(text) == cents
  {
    var whole, t, u := NatText(cents / 100), cents % 100 / 10, cents % 10;
    CentsDigits(cents);
    NatTextValue(cents / 100);
    hide NatText, DigitsValue, DigitChar;
    AppendDigit(whole, t);
    AppendDigit(whole + [DigitChar(t)], u);
    assert whole + [DigitChar(t)] + [DigitChar(u)] == whole + [DigitChar(t), DigitChar(u)];
  }

  lemma PointAfter(whole: string, tail: string)
    requires AllDigits(whole)
    ensures PointIndex(whole + "." + tail) == |whole|
  {
    var body := whole + "." + tail;
    assert body[|whole|] == '.';
    assert forall k | 0 <= k < |whole| :: body[k] == whole[k];
  }

  lemma ParseCentsText(cents: nat)
    ensures ParseUnsigned(CentsText(cents)) == Some(cents as real / 100.0)
  {
    var whole, tail := NatText(cents / 100), [DigitChar(cents % 100 / 10), DigitChar(cents % 10)];
    var body := CentsText(cents);
    TwoDigits(cents);
    HundredIsPow10();
    hide NatText, DigitsValue, DigitChar, PointIndex, Pow10;
    PointAfter(whole, tail);
    var p := PointIndex(body);
    assert p == |whole| < |body|;
    var digits := body[..p] + body[p + 1..];
    assert digits == whole + tail && |digits| - p == 2;
    assert digits != "" && AllDigits(digits) && Pow10(|digits| - p) as real == 100.0;
    assert ParseUnsigned(body) == Some(DigitsValue(digits) as real / Pow10(|digits| - p) as real);
  }

  lemma HundredIsPow10()
    ensures Pow10(2) == 100
  {
    assert Pow10(1) == 10;
  }

  lemma {:induction false} DigitsAppend(a: string, b: string)
    requires AllDigits(a) && AllDigits(b)
    ensures AllDigits(a + b) && DigitsValue(a + b) == DigitsValue(a) * Pow10(|b|) + DigitsValue(b)
    decreases |b|
  {
    if b == "" {
      assert a + b == a;
    } else {
      var n := |b| - 1;
      DigitsAppend(a, b[..n]);
      assert (a + b)[..|a + b| - 1] == a + b[..n];
      Distribute(DigitsValue(a), Pow10(n), DigitsValue(b[..n]));
    }
  }

  lemma Distribute(x: nat, p: nat, y: nat)
    ensures 10 * (x * p + y) == x * (10 * p) + 10 * y
  {
  }

  /** Digits with a point before the last `decimals` of them, or no point and no decimals. */
  predicate WrittenAs(s: string, whole: string, decimals: string) {
    && AllDigits(whole) && AllDigits(decimals) && whole + decimals != ""
    && (s == whole + "." + decimals || (s == whole && decimals == ""))
  }

  function Value(whole: string, decimals: string): real
    requires AllDigits(whole) && AllDigits(decimals)
  {
    DigitsValue(whole) as real + DigitsValue(decimals) as real / Pow10(|decimals|) as real
  }

  lemma Fraction(w: nat, p: nat, d: nat)
    requires p > 0
    ensures (w * p + d) as real / p as real == w as real + d as real / p as real
  {
  }

  lemma NoPoint(s: string)
    requires AllDigits(s)
    ensures PointIndex(s) == |s|
  {
    if PointIndex(s) < |s| { assert IsDigit(s[PointIndex(s)]); }
  }

  lemma WrittenParses(s: string, whole: string, decimals: string)
    requires WrittenAs(s, whole, decimals)
    ensures ParseUnsigned(s) == Some(Value(whole, decimals))
  {
    hide DigitsValue, PointIndex, Pow10;
    DigitsAppend(whole, decimals);
    Fraction(DigitsValue(whole), Pow10(|decimals|), DigitsValue(decimals));
    var p := PointIndex(s);
    if s == whole {
      NoPoint(s);
      assert whole + decimals == s;
    } else {
      PointAfter(whole, decimals);
      assert s[..p] + s[p + 1..] == whole + decimals;
    }
  }

  /** An unsigned amount is any text of digits with at most one point in it, and its value is the usual one. */
  lemma ParseUnsignedIff(s: string, x: real)
    ensures ParseUnsigned(s) == Some(x) <==>
      exists whole, decimals :: WrittenAs(s, whole, decimals) && x == Value(whole, decimals)
  {
    if whole, decimals :| WrittenAs(s, whole, decimals) && x == Value(whole, decimals) {
      WrittenParses(s, whole, decimals);
    }
    if ParseUnsigned(s) == Some(x) {
      var p := PointIndex(s);
      var whole, decimals := s[..p], if p < |s| then s[p + 1..] else "";
      Parts(s);
      WrittenParses(s, whole, decimals);
    }
  }

  lemma DigitsOfParts(a: string, b: string)
    requires AllDigits(a + b)
    ensures AllDigits(a) && AllDigits(b)
  {
    forall i | 0 <= i < |a| ensures IsDigit(a[i]) { assert (a + b)[i] == a[i]; }
    forall i | 0 <= i < |b| ensures IsDigit(b[i]) { assert (a + b)[|a| + i] == b[i]; }
  }

  lemma CutAtPoint(s: string, p: nat)
    requires p < |s| && s[p] == '.'
    ensures s == s[..p] + "." + s[p + 1..]
  {
  }

  lemma Parts(s: string)
    requires ParseUnsigned(s).Some?
    ensures var p := PointIndex(s);
      WrittenAs(s, s[..p], if p < |s| then s[p + 1..] else "")
  {
    var p := PointIndex(s);
    if p < |s| {
      CutAtPoint(s, p);
      var digits := s[..p] + s[p + 1..];
      assert digits != "" && AllDigits(digits);
      hide *;
      DigitsOfParts(s[..p], s[p + 1..]);
    } else {
      assert s != "" && AllDigits(s);
      hide *;
      assert s[..p] == s && s + "" == s;
      DigitsOfParts(s, "");
    }
  }

  lemma TextStartsWithDigit(cents: nat)
    ensures CentsText(cents) != "" && IsDigit(CentsText(cents)[0])
  {
    assert CentsText(cents)[0] == NatText(cents / 100)[0];
    hide NatText;
  }

  /** Printing and parsing an amount rounds it to the cent, ties to even, and does nothing else. */
  lemma AmountRoundTrip(x: real)
    ensures ParseAmount(FormatAmount(x)) == Some(ToCents(x))
  {
    hide CentsText, ParseUnsigned, Hundredths;
    ParseCentsText(Hundredths(x));
    TextStartsWithDigit(Hundredths(x));
    assert x < 0.0 ==> FormatAmount(x)[1..] == CentsText(Hundredths(x));
  }

  lemma RoundBounds(y: real)
    ensures Abs(RoundHalfEven(y) as real - y) <= 0.5
    ensures Abs(RoundHalfEven(y) as real - y) == 0.5 ==> RoundHalfEven(y) % 2 == 0
    ensures y.Floor as real == y ==> RoundHalfEven(y) == y.Floor
  {
  }

  /** ToCents is the nearest amount with two decimals; a tie goes to the even cent. */
  lemma ToCentsIsNearest(x: real)
    ensures WholeCents(ToCents(x))
    ensures Abs(ToCents(x) - x) <= 0.005
    ensures Abs(ToCents(x) - x) == 0.005 ==> Hundredths(x) % 2 == 0
    ensures ToCents(x) == x <==> WholeCents(x)
    ensures ToCents(ToCents(x)) == ToCents(x)
  {
    hide RoundHalfEven, ToCents, Hundredths, WholeCents;
    CentsOf(x);
    NearestCents(x);
    HundredthsOfWhole(ToCents(x));
    if WholeCents(x) { HundredthsOfWhole(x); }
  }

  lemma CentsOf(x: real)
    ensures ToCents(x) * 100.0 == if x < 0.0 then -(Hundredths(x) as real) else Hundredths(x) as real
    ensures WholeCents(ToCents(x))
  {
    hide Hundredths;
    var h: int := Hundredths(x);
    Scaled(h as real);
    hide WholeCents;
    assert ToCents(x) == (if x < 0.0 then -(h as real / 100.0) else h as real / 100.0);
    IntegerIsWhole(ToCents(x), if x < 0.0 then -h else h);
  }

  lemma Scaled(r: real)
    ensures r / 100.0 * 100.0 == r && -(r / 100.0) * 100.0 == -r
  {
  }

  lemma IntegerIsWhole(x: real, n: int)
    requires x * 100.0 == n as real
    ensures WholeCents(x)
  {
  }

  lemma NearestCents(x: real)
    ensures Abs(ToCents(x) - x) <= 0.005
    ensures Abs(ToCents(x) - x) == 0.005 ==> Hundredths(x) % 2 == 0
  {
    RoundBounds(Abs(x) * 100.0);
    hide RoundHalfEven;
    assert Abs(ToCents(x) - x) == Abs(Hundredths(x) as real / 100.0 - Abs(x));
  }

  lemma HundredthsOfWhole(x: real)
    requires WholeCents(x)
    ensures ToCents(x) == x
  {
    var n := (x * 100.0).Floor;
    var m := if x < 0.0 then -n else n;
    assert Abs(x) * 100.0 == m as real;
    RoundBounds(Abs(x) * 100.0);
    hide RoundHalfEven;
    assert Hundredths(x) == m;
  }

  lemma RoundMonotone(x: real, y: real)
    requires x <= y
    ensures RoundHalfEven(x) <= RoundHalfEven(y)
  {
    assert x.Floor <= y.Floor;
    if x.Floor < y.Floor { assert RoundHalfEven(x) <= x.Floor + 1 <= y.Floor <= RoundHalfEven(y); }
  }

  /** Rounding to the cent never reverses an order. */
  lemma ToCentsMonotone(x: real, y: real)
    requires x <= y
    ensures ToCents(x) <= ToCents(y)
    ensures ToCents(0.0) == 0.0
  {
    if 0.0 <= x { RoundMonotone(Abs(x) * 100.0, Abs(y) * 100.0); }
    if y < 0.0 { RoundMonotone(Abs(y) * 100.0, Abs(x) * 100.0); }
    assert RoundHalfEven(0.0) == 0;
    hide RoundHalfEven;
  }
}
