/**
 Fixed-point decimals as strings: `decimalToUnits` (mini-app/src/utils/tonLinks.ts) parses a
 human amount into base units, `formatToken` (mini-app/src/pages/AdminPage.tsx) prints base units.
 */
module Decimal {
  import opened Outcomes

  // ---------- JavaScript string and BigInt operations ----------

  predicate IsDigit(c: char) {
    '0' <= c <= '9'
  }

  /** `/^\d+$/` */
  predicate IsDigits(s: string) {
    s != [] && forall i | 0 <= i < |s| :: IsDigit(s[i])
  }

  predicate IsSpace(c: char) {
    || c in {' ', '\t', '\n', '\r', '\U{B}', '\U{C}', '\U{A0}', '\U{1680}', '\U{2028}', '\U{2029}', '\U{202F}', '\U{205F}', '\U{3000}', '\U{FEFF}'}
    || '\U{2000}' <= c <= '\U{200A}'
  }

  /** By code: the white space and line terminators of ECMAScript. */
  lemma SpaceCodes(c: char)
    ensures IsSpace(c) <==>
            || 9 <= c as int <= 13 || 8192 <= c as int <= 8202
            || c as int in {32, 160, 5760, 8232, 8233, 8239, 8287, 12288, 65279}
  {
  }

  function TrimStart(s: string): string {
    if s != [] && IsSpace(s[0]) then TrimStart(s[1..]) else s
  }

  function TrimEnd(s: string): string {
    if s != [] && IsSpace(s[|s| - 1]) then TrimEnd(s[..|s| - 1]) else s
  }

  /** `String.prototype.trim` */
  function Trim(s: string): string {
    TrimEnd(TrimStart(s))
  }

  function Zeros(n: nat): (s: string)
    ensures |s| == n && forall i | 0 <= i < n :: s[i] == '0'
  {
    if n == 0 then [] else ['0'] + Zeros(n - 1)
  }

  function PadStart(s: string, n: nat): string {
    if |s| >= n then s else Zeros(n - |s|) + s
  }

  function PadEnd(s: string, n: nat): string {
    if |s| >= n then s else s + Zeros(n - |s|)
  }

  /** Position of the first `c` in `s`, or `|s|`. */
  function IndexOf(s: string, c: char): (i: nat)
    ensures i <= |s| && c !in s[..i] && (i < |s| ==> s[i] == c)
  {
    if s == [] || s[0] == c then 0
    else
      var j := IndexOf(s[1..], c);
      assert s[..j + 1] == [s[0]] + s[1..][..j];
      j + 1
  }

  function Pow10(n: nat): (p: nat)
    ensures p > 0
  {
    if n == 0 then 1 else 10 * Pow10(n - 1)
  }

  /** `BigInt(s)` of a digit string. */
  function BigInt(s: string): nat {
    if s == [] then 0 else 10 * BigInt(s[..|s| - 1]) + DigitValue(s[|s| - 1])
  }

  function DigitValue(c: char): nat {
    if IsDigit(c) then c as nat - '0' as nat else 0
  }

  /** `n.toString()` */
  function ToString(n: nat): (s: string)
    ensures IsDigits(s) && (|s| > 1 ==> s[0] != '0')
  {
    if n < 10 then [('0' as nat + n) as char] else ToString(n / 10) + [('0' as nat + n % 10) as char]
  }

  /** `s.replace(/0+$/, '')` */
  function StripTrailingZeros(s: string): string {
    if s != [] && s[|s| - 1] == '0' then StripTrailingZeros(s[..|s| - 1]) else s
  }

  // ---------- The two functions ----------

  /** `/^\d+(\.\d+)?$/` */
  predicate IsDecimal(s: string) {
    var i := IndexOf(s, '.');
    IsDigits(s[..i]) && (i < |s| ==> IsDigits(s[i + 1..]))
  }

  function Whole(s: string): string {
    s[..IndexOf(s, '.')]
  }

  /** The part behind the point; empty when there is none. */
  function Fraction(s: string): string {
    var i := IndexOf(s, '.');
    if i < |s| then s[i + 1..] else []
  }

  function DecimalToUnits(amount: string, decimals: nat): Result<string> {
    var trimmed := Trim(amount);
    if !IsDecimal(trimmed) then Err("Invalid decimal amount")
    else
      var whole := Whole(trimmed);
      var fraction := Fraction(trimmed);
      if |fraction| > decimals then Err("Too many decimal places in amount")
      else
        var padded := PadEnd(fraction, decimals);
        Ok(ToString(BigInt(whole) * Pow10(decimals) + BigInt(if padded == [] then "0" else padded)))
  }

  function JoinParts(intPart: string, fracPart: string): string {
    if fracPart != [] then intPart + "." + fracPart else intPart
  }

  function FormatAbs(abs: string, decimals: nat): string {
    var padded := PadStart(abs, decimals + 1);
    JoinParts(padded[..|padded| - decimals], StripTrailingZeros(padded[|padded| - decimals..]))
  }

  function FormatToken(raw: string, decimals: nat): string {
    if raw == [] || raw == "0" then "0"
    else if raw[0] == '-' then "-" + FormatAbs(raw[1..], decimals)
    else FormatAbs(raw, decimals)
  }

  // ---------- What canonical means ----------

  /** A digit string without superfluous zeros in front. */
  function StripLeadingZeros(s: string): string {
    if |s| > 1 && s[0] == '0' then StripLeadingZeros(s[1..]) else s
  }

  /** A decimal without superfluous zeros at either end, and no point before an empty fraction. */
  function CanonicalDecimal(s: string): string {
    JoinParts(StripLeadingZeros(Whole(s)), StripTrailingZeros(Fraction(s)))
  }

  // ---------- Lemmas about digit strings ----------

  lemma TimesTen(a: int, p: int, b: int)
    ensures 10 * (a * p + b) == a * (10 * p) + 10 * b
  {
  }

  lemma {:induction false} BigIntConcat(a: string, b: string)
    ensures BigInt(a + b) == BigInt(a) * Pow10(|b|) + BigInt(b)
  {
    if b == [] {
      assert a + b == a;
    } else {
      var front := b[..|b| - 1];
      assert (a + b)[..|a + b| - 1] == a + front;
      BigIntConcat(a, front);
      calc {
        BigInt(a + b);
        10 * (BigInt(a) * Pow10(|front|) + BigInt(front)) + DigitValue(b[|b| - 1]);
        { TimesTen(BigInt(a), Pow10(|front|), BigInt(front)); }
        BigInt(a) * (10 * Pow10(|front|)) + 10 * BigInt(front) + DigitValue(b[|b| - 1]);
        BigInt(a) * Pow10(|b|) + BigInt(b);
      }
    }
  }

  lemma {:induction false} BigIntZeros(n: nat)
    ensures BigInt(Zeros(n)) == 0
  {
    if n > 0 {
      BigIntZeros(n - 1);
      BigIntConcat(['0'], Zeros(n - 1));
      assert BigInt(['0']) == 0;
    }
  }

  lemma ConcatToZero(zero: string, s: string)
    requires BigInt(zero) == 0
    ensures BigInt(zero + s) == BigInt(s)
  {
    BigIntConcat(zero, s);
  }

  lemma BigIntPadStart(s: string, n: nat)
    ensures BigInt(PadStart(s, n)) == BigInt(s)
  {
    if |s| < n {
      BigIntZeros(n - |s|);
      ConcatToZero(Zeros(n - |s|), s);
    }
  }

  /** Printing a parsed digit string removes its leading zeros and nothing else. */
  lemma {:induction false} ToStringBigInt(s: string)
    requires IsDigits(s)
    ensures ToString(BigInt(s)) == StripLeadingZeros(s)
  {
    if |s| == 1 {
      assert s[..0] == [];
      assert s == [s[0]];
    } else if s[0] == '0' {
      ToStringBigInt(s[1..]);
      assert s == [s[0]] + s[1..];
      assert BigInt([s[0]]) == 0;
      ConcatToZero([s[0]], s[1..]);
    } else {
      ToStringNoZero(s);
    }
  }

  /** A printed number reads back as itself. */
  lemma {:induction false} BigIntToString(n: nat)
    ensures BigInt(ToString(n)) == n
  {
    if n < 10 {
      assert BigInt(ToString(n)[..0]) == 0;
    } else {
      BigIntToString(n / 10);
      var s := ToString(n);
      assert s[..|s| - 1] == ToString(n / 10);
    }
  }

  lemma {:induction false} ToStringNoZero(s: string)
    requires IsDigits(s) && s[0] != '0'
    ensures BigInt(s) > 0 && ToString(BigInt(s)) == s
  {
    var front, last := s[..|s| - 1], s[|s| - 1];
    assert s == front + [last];
    if front == [] {
      assert BigInt(front) == 0;
    } else {
      ToStringNoZero(front);
      assert BigInt(s) / 10 == BigInt(front) && BigInt(s) % 10 == DigitValue(last);
    }
  }

  lemma {:induction false} StripThenPad(s: string)
    ensures |StripTrailingZeros(s)| <= |s|
    ensures PadEnd(StripTrailingZeros(s), |s|) == s
    ensures StripTrailingZeros(s) <= s
  {
    if s != [] && s[|s| - 1] == '0' {
      var front := s[..|s| - 1];
      StripThenPad(front);
      var stripped := StripTrailingZeros(front);
      ZerosSnoc(|front| - |stripped|);
      assert s == front + ['0'];
      assert front == stripped + Zeros(|front| - |stripped|);
    }
  }

  lemma ZerosSnoc(n: nat)
    ensures Zeros(n) + ['0'] == Zeros(n + 1)
  {
  }

  lemma {:induction false} StripPadded(s: string, n: nat)
    ensures StripTrailingZeros(s + Zeros(n)) == StripTrailingZeros(s)
  {
    if n == 0 {
      assert s + Zeros(0) == s;
    } else {
      ZerosSnoc(n - 1);
      assert (s + Zeros(n))[..|s| + n - 1] == s + Zeros(n - 1);
      StripPadded(s, n - 1);
    }
  }

  /** Padding back to the old length undoes the removal of leading zeros. */
  lemma {:induction false} PadStripped(s: string)
    requires s != []
    ensures StripLeadingZeros(s) != [] && PadStart(StripLeadingZeros(s), |s|) == s
  {
    if |s| > 1 && s[0] == '0' {
      PadStripped(s[1..]);
      assert s == ['0'] + s[1..];
      var stripped := StripLeadingZeros(s[1..]);
      assert s == (['0'] + Zeros(|s| - 1 - |stripped|)) + stripped;
    }
  }

  lemma {:induction false} StripLeadingOfConcat(w: string, f: string)
    requires w != []
    ensures PadStart(StripLeadingZeros(w + f), |f| + 1) == StripLeadingZeros(w) + f
  {
    if |w| == 1 {
      PadStripped(w + f);
    } else if w[0] == '0' {
      assert (w + f)[1..] == w[1..] + f;
      StripLeadingOfConcat(w[1..], f);
    }
  }

  lemma {:induction false} StripKeepsDigits(s: string)
    requires IsDigits(s)
    ensures IsDigits(StripLeadingZeros(s))
  {
    if |s| > 1 && s[0] == '0' {
      StripKeepsDigits(s[1..]);
    }
  }

  lemma {:induction false} IndexOfFirst(a: string, c: char, b: string)
    requires c !in a
    ensures IndexOf(a + [c] + b, c) == |a| && IndexOf(a, c) == |a|
  {
    if a != [] {
      assert (a + [c] + b)[1..] == a[1..] + [c] + b;
      IndexOfFirst(a[1..], c, b);
    }
  }

  /** The point of a decimal is where it was put; a decimal without a fraction has none. */
  lemma SplitParts(w: string, f: string)
    requires IsDigits(w) && (f == [] || IsDigits(f))
    ensures IsDecimal(JoinParts(w, f)) && Whole(JoinParts(w, f)) == w && Fraction(JoinParts(w, f)) == f
    ensures Trim(JoinParts(w, f)) == JoinParts(w, f)
  {
    IndexOfFirst(w, '.', f);
    assert w + "." + f == w + ['.'] + f;
    assert w[..|w|] == w;
    assert (w + "." + f)[..|w|] == w && (w + "." + f)[|w| + 1..] == f;
    var s := JoinParts(w, f);
    assert IsDigit(s[0]) && IsDigit(s[|s| - 1]);
  }

  // ---------- Main results ----------

  lemma UnitsOfSplit(s: string, w: string, f: string, decimals: nat)
    requires IsDecimal(s) && Trim(s) == s && Whole(s) == w && Fraction(s) == f && |f| <= decimals
    ensures DecimalToUnits(s, decimals) == Ok(ToString(BigInt(w) * Pow10(decimals) + BigInt(PadEnd(f, decimals))))
  {
    ZeroForNothing(PadEnd(f, decimals));
  }

  lemma ZeroForNothing(s: string)
    ensures BigInt(if s == [] then "0" else s) == BigInt(s)
  {
    assert BigInt("0") == BigInt("") == 0;
  }

  /** The units of `w.f`, whatever zeros `f` has lost, are the digits `w` and `f` put together. */
  lemma UnitsOfParts(w: string, f: string)
    requires IsDigits(w) && (f == [] || IsDigits(f))
    ensures DecimalToUnits(JoinParts(w, StripTrailingZeros(f)), |f|) == Ok(StripLeadingZeros(w + f))
  {
    StripThenPad(f);
    var kept := StripTrailingZeros(f);
    SplitParts(w, kept);
    UnitsOfSplit(JoinParts(w, kept), w, kept, |f|);
    BigIntConcat(w, f);
    ToStringBigInt(w + f);
  }

  lemma StripOfPadStart(s: string, n: nat)
    requires IsDigits(s)
    ensures IsDigits(PadStart(s, n)) && StripLeadingZeros(PadStart(s, n)) == StripLeadingZeros(s)
  {
    BigIntPadStart(s, n);
    ToStringBigInt(s);
    ToStringBigInt(PadStart(s, n));
  }

  lemma CutDigits(s: string, n: nat)
    requires IsDigits(s) && 0 < n <= |s|
    ensures IsDigits(s[..n]) && (s[n..] == [] || IsDigits(s[n..])) && s[..n] + s[n..] == s
  {
  }

  lemma UnitsOfPadded(padded: string, n: nat)
    requires IsDigits(padded) && 0 < n <= |padded|
    ensures DecimalToUnits(JoinParts(padded[..n], StripTrailingZeros(padded[n..])), |padded| - n) == Ok(StripLeadingZeros(padded))
  {
    CutDigits(padded, n);
    UnitsOfParts(padded[..n], padded[n..]);
  }

  lemma ParseOfFormatAbs(abs: string, decimals: nat)
    requires IsDigits(abs)
    ensures DecimalToUnits(FormatAbs(abs, decimals), decimals) == Ok(StripLeadingZeros(abs))
  {
    var padded := PadStart(abs, decimals + 1);
    StripOfPadStart(abs, decimals + 1);
    UnitsOfPadded(padded, |padded| - decimals);
  }

  lemma FormatAbsZero(decimals: nat)
    ensures FormatAbs("0", decimals) == "0"
  {
    var padded := PadStart("0", decimals + 1);
    ZerosSnoc(decimals);
    assert padded == Zeros(decimals + 1);
    assert padded[..|padded| - decimals] == "0";
    assert padded[|padded| - decimals..] == "" + Zeros(decimals);
    StripPadded("", decimals);
  }

  /** Parsing what was printed gives the same units, without superfluous leading zeros. */
  lemma ParseOfPrint(raw: string, decimals: nat)
    requires IsDigits(raw)
    ensures DecimalToUnits(FormatToken(raw, decimals), decimals) == Ok(StripLeadingZeros(raw))
  {
    FormatAbsZero(decimals);
    ParseOfFormatAbs(raw, decimals);
  }

  lemma FormatAbsEndsInDigit(abs: string, decimals: nat)
    requires IsDigits(abs)
    ensures var s := FormatAbs(abs, decimals); s != [] && IsDigit(s[|s| - 1])
  {
    var padded := PadStart(abs, decimals + 1);
    StripThenPad(padded[|padded| - decimals..]);
  }

  lemma MinusIsRefused(s: string, decimals: nat)
    requires s != [] && s[0] == '-' && IsDigit(s[|s| - 1])
    ensures DecimalToUnits(s, decimals).Err?
  {
    assert Trim(s) == s;
    var i := IndexOf(s, '.');
    assert i > 0 && s[..i][0] == '-';
  }

  /** What is printed of a negative amount is refused. */
  lemma ParseRefusesNegative(abs: string, decimals: nat)
    requires IsDigits(abs)
    ensures DecimalToUnits(FormatToken("-" + abs, decimals), decimals).Err?
  {
    FormatAbsEndsInDigit(abs, decimals);
    assert ("-" + abs)[1..] == abs;
    MinusIsRefused("-" + FormatAbs(abs, decimals), decimals);
  }

  /** A printed amount is accepted back exactly when it was not negative. */
  lemma ParseOfPrintAccepts(raw: string, decimals: nat)
    requires raw != [] && IsDigits(if raw[0] == '-' then raw[1..] else raw)
    ensures DecimalToUnits(FormatToken(raw, decimals), decimals).Ok? <==> raw[0] != '-'
  {
    if raw[0] == '-' {
      assert raw == "-" + raw[1..];
      ParseRefusesNegative(raw[1..], decimals);
    } else {
      ParseOfPrint(raw, decimals);
    }
  }

  /** The units of an accepted amount are the digits of its whole and padded fraction. */
  lemma UnitsOfAmount(amount: string, decimals: nat)
    requires DecimalToUnits(amount, decimals).Ok?
    ensures var s := Trim(amount);
      |Fraction(s)| <= decimals && IsDigits(Whole(s))
      && DecimalToUnits(amount, decimals).value == StripLeadingZeros(Whole(s) + PadEnd(Fraction(s), decimals))
  {
    var s := Trim(amount);
    var w, fp := Whole(s), PadEnd(Fraction(s), decimals);
    assert IsDigits(w + fp);
    BigIntConcat(w, fp);
    ToStringBigInt(w + fp);
    assert BigInt("0") == BigInt("") == 0;
  }

  lemma FormatTokenDigits(units: string, decimals: nat)
    requires IsDigits(units)
    ensures FormatToken(units, decimals) == FormatAbs(units, decimals)
  {
    FormatAbsZero(decimals);
  }

  lemma FormatAbsParts(units: string, w: string, f: string)
    requires PadStart(units, |f| + 1) == w + f
    ensures FormatAbs(units, |f|) == JoinParts(w, StripTrailingZeros(f))
  {
    assert (w + f)[..|w|] == w && (w + f)[|w|..] == f;
  }

  lemma PadEndStrips(f: string, n: nat)
    requires (f == [] || IsDigits(f)) && |f| <= n
    ensures StripTrailingZeros(PadEnd(f, n)) == StripTrailingZeros(f)
    ensures |PadEnd(f, n)| == n && (n > 0 ==> IsDigits(PadEnd(f, n)))
  {
    StripPadded(f, n - |f|);
    assert PadEnd(f, n) == f + Zeros(n - |f|);
  }

  lemma PrintOfConcat(w: string, f: string)
    requires IsDigits(w) && (f == [] || IsDigits(f))
    ensures FormatToken(StripLeadingZeros(w + f), |f|) == JoinParts(StripLeadingZeros(w), StripTrailingZeros(f))
  {
    var units := StripLeadingZeros(w + f);
    StripKeepsDigits(w + f);
    StripLeadingOfConcat(w, f);
    FormatAbsParts(units, StripLeadingZeros(w), f);
    FormatTokenDigits(units, |f|);
  }

  lemma PrintOfUnits(w: string, f: string, decimals: nat)
    requires IsDigits(w) && (f == [] || IsDigits(f)) && |f| <= decimals
    ensures FormatToken(StripLeadingZeros(w + PadEnd(f, decimals)), decimals) == JoinParts(StripLeadingZeros(w), StripTrailingZeros(f))
  {
    var fp := PadEnd(f, decimals);
    PadEndStrips(f, decimals);
    PrintOfConcat(w, fp);
  }

  /** Printing what was parsed gives the amount in canonical form. */
  lemma PrintOfParse(amount: string, decimals: nat)
    requires DecimalToUnits(amount, decimals).Ok?
    ensures FormatToken(DecimalToUnits(amount, decimals).value, decimals) == CanonicalDecimal(Trim(amount))
  {
    UnitsOfAmount(amount, decimals);
    PrintOfUnits(Whole(Trim(amount)), Fraction(Trim(amount)), decimals);
  }

  /** No two amounts are confused: equal units mean equal canonical forms. */
  lemma ParseInjective(a: string, b: string, decimals: nat)
    requires DecimalToUnits(a, decimals).Ok? && DecimalToUnits(a, decimals) == DecimalToUnits(b, decimals)
    ensures CanonicalDecimal(Trim(a)) == CanonicalDecimal(Trim(b))
  {
    PrintOfParse(a, decimals);
    PrintOfParse(b, decimals);
  }
}
