/**
 * JavaScript's `parseFloat`, restricted to plain decimal notation: leading
 * white space is skipped, then the longest prefix of the form
 * `[+-]digits[.digits]` (either digit run may be empty, but not both) is read
 * as an exact decimal. No such prefix means "no number" (NaN in JavaScript).
 */
module Numbers {
  import opened Wrappers

  predicate IsDigit(c: char) { '0' <= c <= '9' }

  predicate AllDigits(s: string) {
    forall i :: 0 <= i < |s| ==> IsDigit(s[i])
  }

  function DigitValue(c: char): (d: nat)
    requires IsDigit(c)
    ensures d <= 9
  {
    c as int - '0' as int
  }

  /** The white space `parseFloat` skips: the ECMAScript StrWhiteSpaceChar set
      (TAB, LF, VT, FF, CR, SP, NBSP, the other space separators, LS, PS, ZWNBSP),
      by code point. */
  predicate IsWhitespace(c: char) {
    var k := c as int;
    (9 <= k <= 13) || k == 0x20 || k == 0xA0 || k == 0x1680 || (0x2000 <= k <= 0x200A) ||
    k == 0x2028 || k == 0x2029 || k == 0x202F || k == 0x205F || k == 0x3000 || k == 0xFEFF
  }

  function Pow10(n: nat): (p: nat)
    ensures p >= 1
  {
    if n == 0 then 1 else 10 * Pow10(n - 1)
  }

  /** The whole number written by a run of decimal digits. */
  function WholeValue(ds: string): (v: nat)
    requires AllDigits(ds)
    ensures v < Pow10(|ds|)
  {
    if ds == [] then 0 else WholeValue(ds[..|ds| - 1]) * 10 + DigitValue(ds[|ds| - 1])
  }

  /** The fraction written by the digits after a decimal point. */
  function FractionValue(ds: string): (v: real)
    requires AllDigits(ds)
    ensures 0.0 <= v < 1.0
  {
    if ds == [] then 0.0 else (DigitValue(ds[0]) as real + FractionValue(ds[1..])) / 10.0
  }

  /** Length of the longest all-digit prefix of `s`. */
  function DigitRun(s: string): (n: nat)
    ensures n <= |s| && AllDigits(s[..n])
    ensures n < |s| ==> !IsDigit(s[n])
  {
    if |s| > 0 && IsDigit(s[0]) then
      var n := 1 + DigitRun(s[1..]);
      assert forall i :: 1 <= i < n ==> s[..n][i] == s[1..][..n - 1][i - 1];
      n
    else 0
  }

  /** The number of white-space characters at the head of `s`. */
  function LeadingWhitespace(s: string): (k: nat)
    ensures k <= |s|
    ensures forall i :: 0 <= i < k ==> IsWhitespace(s[i])
    ensures k < |s| ==> !IsWhitespace(s[k])
  {
    if |s| > 0 && IsWhitespace(s[0]) then 1 + LeadingWhitespace(s[1..]) else 0
  }

  /** `s` without its leading white space. */
  function SkipWhitespace(s: string): string {
    s[LeadingWhitespace(s)..]
  }

  /** A decimal numeral as `parseFloat` reads it. */
  datatype Numeral = Numeral(negative: bool, whole: string, fraction: string)

  predicate ValidNumeral(n: Numeral) {
    AllDigits(n.whole) && AllDigits(n.fraction) && (n.whole != [] || n.fraction != [])
  }

  function NumeralValue(n: Numeral): real
    requires ValidNumeral(n)
  {
    var magnitude := WholeValue(n.whole) as real + FractionValue(n.fraction);
    if n.negative then -magnitude else magnitude
  }

  /** The canonical spelling of a numeral: sign only when negative, the
      decimal point only when there are fraction digits. */
  function Spell(n: Numeral): string {
    (if n.negative then "-" else "") + n.whole + (if n.fraction == [] then "" else "." + n.fraction)
  }

  /** Reads the numeral at the start of `t`, which has no leading white space. */
  function ScanNumeral(t: string): (r: Option<Numeral>)
    ensures r.Some? ==> ValidNumeral(r.value)
  {
    var signed := |t| > 0 && (t[0] == '+' || t[0] == '-');
    var u := if signed then t[1..] else t;
    match ScanUnsigned(u)
    case None => None
    case Some(n) => Some(n.(negative := signed && t[0] == '-'))
  }

  /** Reads `digits[.digits]` at the start of `u`; the result is never negative. */
  function ScanUnsigned(u: string): (r: Option<Numeral>)
    ensures r.Some? ==> ValidNumeral(r.value) && !r.value.negative
  {
    var w := DigitRun(u);
    var rest := u[w..];
    var f := if |rest| > 0 && rest[0] == '.' then DigitRun(rest[1..]) else 0;
    if w == 0 && f == 0 then None
    else Some(Numeral(false, u[..w], if f == 0 then [] else rest[1..][..f]))
  }

  /** `parseFloat(s)`: the value of the longest numeral after leading white
      space, or None where JavaScript yields NaN. */
  function ParseFloat(s: string): Option<real> {
    match ScanNumeral(SkipWhitespace(s))
    case None => None
    case Some(n) => Some(NumeralValue(n))
  }

  /** Characters that could extend a numeral that has been read. */
  predicate ContinuesNumeral(rest: string) {
    |rest| > 0 && (IsDigit(rest[0]) || rest[0] == '.')
  }

  /** The run of digits at the head of `ds + rest` is exactly `ds`. */
  lemma {:induction false} DigitRunAppend(ds: string, rest: string)
    requires AllDigits(ds)
    requires rest == [] || !IsDigit(rest[0])
    ensures DigitRun(ds + rest) == |ds|
  {
    if ds != [] {
      assert (ds + rest)[1..] == ds[1..] + rest;
      DigitRunAppend(ds[1..], rest);
    }
  }

  /** A spelling starts with the minus sign, a digit or the point. */
  lemma SpellHead(n: Numeral)
    requires ValidNumeral(n)
    ensures |Spell(n)| > 0
    ensures Spell(n)[0] == '-' || Spell(n)[0] == '.' || IsDigit(Spell(n)[0])
    ensures n.negative ==> Spell(n) == "-" + Spell(n.(negative := false))
    ensures !n.negative ==> Spell(n)[0] != '-' && Spell(n)[0] != '+'
  {
    if n.whole != [] {
      assert Spell(n.(negative := false))[0] == n.whole[0];
    }
  }

  /** Scanning the spelling of a numeral followed by text that cannot extend it
      gives back that numeral. */
  lemma ScanSpelled(n: Numeral, rest: string)
    requires ValidNumeral(n) && !ContinuesNumeral(rest)
    ensures ScanNumeral(Spell(n) + rest) == Some(n)
  {
    var m := n.(negative := false);
    ScanUnsignedSpelled(m, rest);
    SignSplit(n, rest);
  }

  /** The spelling of `n` followed by `rest` is a minus sign and the unsigned
      spelling when `n` is negative, and starts with no sign otherwise. */
  lemma SignSplit(n: Numeral, rest: string)
    requires ValidNumeral(n)
    ensures var t := Spell(n) + rest;
      var u := Spell(n.(negative := false)) + rest;
      && |t| > 0
      && (n.negative ==> t[0] == '-' && t[1..] == u)
      && (!n.negative ==> t[0] != '+' && t[0] != '-' && t == u)
  {
    SpellHead(n);
    var t := Spell(n) + rest;
    var u := Spell(n.(negative := false)) + rest;
    if n.negative {
      assert t == "-" + u;
    } else {
      assert n == n.(negative := false);
      assert t[0] == Spell(n)[0];
    }
  }

  lemma ScanUnsignedSpelled(n: Numeral, rest: string)
    requires ValidNumeral(n) && !n.negative && !ContinuesNumeral(rest)
    ensures ScanUnsigned(Spell(n) + rest) == Some(n)
  {
    if n.fraction == [] {
      assert Spell(n) + rest == n.whole + rest;
      ScanWholeOnly(n.whole, rest);
    } else {
      assert Spell(n) + rest == n.whole + ("." + n.fraction + rest);
      ScanWithFraction(n.whole, n.fraction, rest);
    }
  }

  lemma ScanWholeOnly(w: string, rest: string)
    requires AllDigits(w) && w != [] && !ContinuesNumeral(rest)
    ensures ScanUnsigned(w + rest) == Some(Numeral(false, w, []))
  {
    var u := w + rest;
    DigitRunAppend(w, rest);
    assert u[|w|..] == rest;
    assert u[..|w|] == w;
  }

  lemma ScanWithFraction(w: string, f: string, rest: string)
    requires AllDigits(w) && AllDigits(f) && f != [] && !ContinuesNumeral(rest)
    ensures ScanUnsigned(w + ("." + f + rest)) == Some(Numeral(false, w, f))
  {
    var tail := "." + f + rest;
    var u := w + tail;
    DigitRunAppend(w, tail);
    assert u[|w|..] == tail;
    assert u[..|w|] == w;
    assert tail[1..] == f + rest;
    DigitRunAppend(f, rest);
    assert (f + rest)[..|f|] == f;
  }

  /** Round trip: `parseFloat` of a spelled numeral, after any leading white
      space and before any text that cannot extend it, is the numeral's value. */
  lemma ParseFloatSpelled(lead: string, n: Numeral, rest: string)
    requires forall i :: 0 <= i < |lead| ==> IsWhitespace(lead[i])
    requires ValidNumeral(n) && !ContinuesNumeral(rest)
    ensures ParseFloat(lead + Spell(n) + rest) == Some(NumeralValue(n))
  {
    var t := Spell(n) + rest;
    var s := lead + Spell(n) + rest;
    assert s == lead + t;
    SpellHead(n);
    assert t[0] == Spell(n)[0];
    SkipLeading(lead, t);
    ScanSpelled(n, rest);
    assert SkipWhitespace(s) == t;
    assert ScanNumeral(SkipWhitespace(s)) == Some(n);
  }

  /** `parseFloat` reads `w.f` as the decimal it spells. */
  lemma ParseDecimal(t: string, w: string, f: string)
    requires AllDigits(w) && AllDigits(f) && w != [] && f != []
    requires t == w + "." + f
    ensures ParseFloat(t) == Some(NumeralValue(Numeral(false, w, f)))
  {
    assert t == w + ("." + f + "") && IsDigit(t[0]) by {
      assert t[0] == w[0];
    }
    assert ScanNumeral(t) == Some(Numeral(false, w, f)) by {
      ScanWithFraction(w, f, "");
    }
    assert SkipWhitespace(t) == t by {
      assert LeadingWhitespace(t) == 0;
    }
  }

  lemma SkipLeading(lead: string, t: string)
    requires forall i :: 0 <= i < |lead| ==> IsWhitespace(lead[i])
    requires t == [] || !IsWhitespace(t[0])
    ensures SkipWhitespace(lead + t) == t
  {
    LeadingAppend(lead, t);
    assert (lead + t)[|lead|..] == t;
  }

  lemma {:induction false} LeadingAppend(lead: string, t: string)
    requires forall i :: 0 <= i < |lead| ==> IsWhitespace(lead[i])
    requires t == [] || !IsWhitespace(t[0])
    ensures LeadingWhitespace(lead + t) == |lead|
  {
    if lead != [] {
      assert (lead + t)[1..] == lead[1..] + t;
      LeadingAppend(lead[1..], t);
    }
  }

  /** `parseFloat` finds no number exactly when, after the white space and an
      optional sign, neither a digit nor a point followed by a digit comes next. */
  lemma ParseFloatNone(s: string)
    ensures
      var t := SkipWhitespace(s);
      var u := if |t| > 0 && (t[0] == '+' || t[0] == '-') then t[1..] else t;
      ParseFloat(s).None? <==>
        !(|u| > 0 && IsDigit(u[0])) && !(|u| > 1 && u[0] == '.' && IsDigit(u[1]))
  {
  }
}
