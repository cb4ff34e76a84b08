/** The JavaScript text/number conversions the screens rely on: `parseInt`,
    `parseFloat`, `String.prototype.trim` emptiness, and the decimal text of
    an integer inside a template literal. `None` stands for NaN. */
module NumberText {
  import opened Types

  predicate IsDigit(c: char) { '0' <= c <= '9' }

  function DigitValue(c: char): (d: nat)
    requires IsDigit(c)
    ensures d < 10
  {
    c as int - '0' as int
  }

  /** The white-space characters JavaScript skips before a number and strips
      in `trim`: the ASCII ones, no-break space, byte-order mark, the
      line/paragraph separators and the other Unicode space separators
      (U+1680, U+2000 to U+200A, U+202F, U+205F, U+3000). */
  predicate IsSpace(c: char)
  {
    c == ' ' || c == '\t' || c == '\n' || c == '\r' || c == '\U{000B}' || c == '\U{000C}'
    || c == '\U{00A0}' || c == '\U{FEFF}' || c == '\U{2028}' || c == '\U{2029}'
    || c == '\U{1680}' || ('\U{2000}' <= c <= '\U{200A}')
    || c == '\U{202F}' || c == '\U{205F}' || c == '\U{3000}'
  }

  /** `s.trim()` is the empty string. */
  predicate IsBlank(s: string)
  {
    forall i :: 0 <= i < |s| ==> IsSpace(s[i])
  }

  function SkipSpaces(s: string): (r: string)
    ensures |r| <= |s| && r == s[|s| - |r|..]
    ensures r == [] || !IsSpace(r[0])
    ensures IsBlank(s[..|s| - |r|])
  {
    if s != [] && IsSpace(s[0]) then SkipSpaces(s[1..]) else s
  }

  /** The longest prefix made of decimal digits. */
  function LeadingDigits(s: string): (r: string)
    ensures |r| <= |s| && r == s[..|r|]
    ensures forall i :: 0 <= i < |r| ==> IsDigit(r[i])
    ensures |r| == |s| || !IsDigit(s[|r|])
  {
    if s != [] && IsDigit(s[0]) then [s[0]] + LeadingDigits(s[1..]) else []
  }

  /** The value of a string of decimal digits, most significant first. */
  function DigitsValue(ds: string): (v: nat)
    requires forall i :: 0 <= i < |ds| ==> IsDigit(ds[i])
  {
    if ds == [] then 0
    else DigitsValue(ds[..|ds| - 1]) * 10 + DigitValue(ds[|ds| - 1])
  }

  function Pow10(k: nat): (p: nat)
    ensures p >= 1
  {
    if k == 0 then 1 else 10 * Pow10(k - 1)
  }

  /** Splits an optional sign off the front: whether it is a minus, and the
      rest. */
  function SplitSign(s: string): (bool, string)
  {
    if s != [] && s[0] == '-' then (true, s[1..])
    else if s != [] && s[0] == '+' then (false, s[1..])
    else (false, s)
  }

  /** `parseInt(s)` in base 10: leading spaces, an optional sign, then the
      longest run of digits; NaN (None) when there is no digit. */
  function ParseInt(s: string): (r: Option<int>)
    ensures r.Some? <==> |LeadingDigits(SplitSign(SkipSpaces(s)).1)| > 0
  {
    var (negative, rest) := SplitSign(SkipSpaces(s));
    var ds := LeadingDigits(rest);
    if ds == [] then None
    else if negative then Some(-(DigitsValue(ds) as int))
    else Some(DigitsValue(ds) as int)
  }

  /** The fraction digits after a decimal point at the front of `after`;
      none when there is no point. */
  function FractionDigits(after: string): (frac: string)
    ensures forall i :: 0 <= i < |frac| ==> IsDigit(frac[i])
  {
    if after != [] && after[0] == '.' then LeadingDigits(after[1..]) else []
  }

  /** The value of whole digits followed by fraction digits. */
  function DecimalValue(whole: string, frac: string): real
    requires forall i :: 0 <= i < |whole| ==> IsDigit(whole[i])
    requires forall i :: 0 <= i < |frac| ==> IsDigit(frac[i])
  {
    DigitsValue(whole) as real + DigitsValue(frac) as real / Pow10(|frac|) as real
  }

  lemma DecimalValueWhole(whole: string)
    requires forall i :: 0 <= i < |whole| ==> IsDigit(whole[i])
    ensures DecimalValue(whole, []) == DigitsValue(whole) as real
  {
    var v := DigitsValue(whole) as real;
    var none: string := [];
    assert DigitsValue(none) == 0;
    assert Pow10(|none|) == 1;
    assert DecimalValue(whole, none) == v + 0.0 / 1.0;
  }

  /** `parseFloat(s)` for decimal notation: leading spaces, an optional sign,
      integer digits, and optionally a point followed by fraction digits;
      NaN (None) when neither part has a digit. */
  function ParseFloat(s: string): (r: Option<real>)
  {
    var (negative, rest) := SplitSign(SkipSpaces(s));
    var whole := LeadingDigits(rest);
    var frac := FractionDigits(rest[|whole|..]);
    if whole == [] && frac == [] then None
    else if negative then Some(-DecimalValue(whole, frac))
    else Some(DecimalValue(whole, frac))
  }

  function DigitChar(d: nat): (c: char)
    requires d < 10
    ensures IsDigit(c) && DigitValue(c) == d
  {
    ('0' as int + d) as char
  }

  /** The decimal text of a natural number, without leading zeros. */
  function NatText(n: nat): (s: string)
    ensures |s| > 0 && forall i :: 0 <= i < |s| ==> IsDigit(s[i])
    ensures s[0] == '0' <==> n == 0
    ensures |s| == 1 || s[0] != '0'
  {
    if n < 10 then [DigitChar(n)] else NatText(n / 10) + [DigitChar(n % 10)]
  }

  /** The decimal text JavaScript gives an integer: a minus sign for negatives. */
  function IntText(n: int): string
  {
    if n < 0 then "-" + NatText(-n) else NatText(n)
  }

  lemma {:induction false} NatTextValue(n: nat)
    ensures DigitsValue(NatText(n)) == n
  {
    if n >= 10 {
      var s := NatText(n);
      assert s[..|s| - 1] == NatText(n / 10);
      NatTextValue(n / 10);
    }
  }

  lemma LeadingDigitsOfDigits(s: string)
    requires forall i :: 0 <= i < |s| ==> IsDigit(s[i])
    ensures LeadingDigits(s) == s
  {
    var r := LeadingDigits(s);
    assert |r| == |s|;
  }

  /** A string of digits reads as its value with `parseInt`. */
  lemma {:induction false} ParseIntOfDigits(ds: string)
    requires |ds| > 0 && forall i :: 0 <= i < |ds| ==> IsDigit(ds[i])
    ensures ParseInt(ds) == Some(DigitsValue(ds) as int)
  {
    assert IsDigit(ds[0]);
    LeadingDigitsOfDigits(ds);
    ParseIntUnsigned(ds);
  }

  lemma {:induction false} ParseIntOfNegatedDigits(ds: string)
    requires |ds| > 0 && forall i :: 0 <= i < |ds| ==> IsDigit(ds[i])
    ensures ParseInt("-" + ds) == Some(-(DigitsValue(ds) as int))
  {
    var t := "-" + ds;
    assert t[0] == '-' && t[1..] == ds;
    StartsNegative(t);
    LeadingDigitsOfDigits(ds);
  }

  /** A text starting with a minus sign has no space to skip. */
  lemma StartsNegative(s: string)
    requires s != [] && s[0] == '-'
    ensures SkipSpaces(s) == s && SplitSign(s) == (true, s[1..])
  {
  }

  /** The leading digits end at the first character that is not a digit. */
  lemma {:induction false} LeadingDigitsStop(ds: string, rest: string)
    requires forall i :: 0 <= i < |ds| ==> IsDigit(ds[i])
    requires rest == [] || !IsDigit(rest[0])
    ensures LeadingDigits(ds + rest) == ds
  {
    if ds != [] {
      assert (ds + rest)[1..] == ds[1..] + rest;
      LeadingDigitsStop(ds[1..], rest);
    } else {
      assert ds + rest == rest;
    }
  }

  /** A text starting with a digit or a point has no space or sign to skip. */
  lemma StartsUnsigned(s: string)
    requires s != [] && (IsDigit(s[0]) || s[0] == '.')
    ensures SkipSpaces(s) == s && SplitSign(s) == (false, s)
  {
  }

  /** `parseInt` of an unsigned text is the value of its leading digits. */
  lemma {:induction false} ParseIntUnsigned(s: string)
    requires s != [] && (IsDigit(s[0]) || s[0] == '.')
    ensures ParseInt(s) == if LeadingDigits(s) == [] then None else Some(DigitsValue(LeadingDigits(s)) as int)
  {
    StartsUnsigned(s);
  }

  /** `parseInt` stops at a decimal point: digits, a point and anything after
      it read as the digits alone. */
  lemma {:induction false} ParseIntStopsAtPoint(ds: string, rest: string)
    requires |ds| > 0 && forall i :: 0 <= i < |ds| ==> IsDigit(ds[i])
    ensures ParseInt(ds + "." + rest) == Some(DigitsValue(ds) as int)
  {
    var t := ds + "." + rest;
    assert t == ds + ("." + rest);
    LeadingDigitsStop(ds, "." + rest);
    assert t[0] == ds[0];
    ParseIntUnsigned(t);
  }

  /** A text starting with a decimal point has no digits for `parseInt`. */
  lemma {:induction false} ParseIntOfLeadingPoint(rest: string)
    ensures ParseInt("." + rest) == None
  {
    var t := "." + rest;
    assert t[0] == '.';
    ParseIntUnsigned(t);
  }

  /** Leading white space, of any of the kinds `trim` strips, is skipped
      up to the first other character. */
  lemma {:induction false} SkipSpacesOfBlankPrefix(sp: string, s: string)
    requires IsBlank(sp) && (s == [] || !IsSpace(s[0]))
    ensures SkipSpaces(sp + s) == s
    decreases |sp|
  {
    if sp == [] {
      assert sp + s == s;
    } else {
      assert IsSpace((sp + s)[0]) && (sp + s)[1..] == sp[1..] + s;
      SkipSpacesOfBlankPrefix(sp[1..], s);
    }
  }

  /** `parseInt` ignores leading white space. */
  lemma ParseIntAfterSpaces(sp: string, s: string)
    requires IsBlank(sp) && (s == [] || !IsSpace(s[0]))
    ensures ParseInt(sp + s) == ParseInt(s)
  {
    SkipSpacesOfBlankPrefix(sp, s);
    SkipSpacesOfNonSpace(s);
    ParseIntOfSkipped(sp + s, s);
  }

  /** Digits after any white space, an ideographic space for one, read as
      their value. */
  lemma ParseIntOfSpacedDigits(sp: string, ds: string)
    requires IsBlank(sp)
    requires |ds| > 0 && forall i :: 0 <= i < |ds| ==> IsDigit(ds[i])
    ensures ParseInt(sp + ds) == Some(DigitsValue(ds) as int)
  {
    assert IsDigit(ds[0]);
    ParseIntAfterSpaces(sp, ds);
    ParseIntOfDigits(ds);
  }

  lemma SkipSpacesOfNonSpace(s: string)
    requires s == [] || !IsSpace(s[0])
    ensures SkipSpaces(s) == s
  {
  }

  /** `parseInt` reads only what follows the leading white space. */
  lemma ParseIntOfSkipped(a: string, b: string)
    requires SkipSpaces(a) == SkipSpaces(b)
    ensures ParseInt(a) == ParseInt(b)
  {
  }

  /** Text made only of white space reads as NaN either way. */
  lemma ParseOfBlank(s: string)
    requires IsBlank(s)
    ensures ParseInt(s) == None && ParseFloat(s) == None
  {
    assert SkipSpaces(s) == [];
    assert SplitSign([]) == (false, []);
  }

  /** A string of digits reads as its value with `parseFloat` too. */
  lemma {:induction false} ParseFloatOfDigits(ds: string)
    requires |ds| > 0 && forall i :: 0 <= i < |ds| ==> IsDigit(ds[i])
    ensures ParseFloat(ds) == Some(DigitsValue(ds) as real)
  {
    assert SkipSpaces(ds) == ds by { assert IsDigit(ds[0]); }
    assert SplitSign(ds) == (false, ds);
    var whole := LeadingDigits(ds);
    LeadingDigitsOfDigits(ds);
    assert whole == ds;
    var frac := FractionDigits(ds[|whole|..]);
    assert frac == [] by { assert ds[|whole|..] == []; }
    DecimalValueWhole(ds);
    assert DecimalValue(whole, frac) == DigitsValue(ds) as real;
  }

  /** Where `parseFloat` differs from `parseInt`: digits, a point and
      fraction digits read as the whole value with its fraction. */
  lemma {:induction false} ParseFloatOfDecimal(ds: string, fs: string)
    requires |ds| > 0 && forall i :: 0 <= i < |ds| ==> IsDigit(ds[i])
    requires forall i :: 0 <= i < |fs| ==> IsDigit(fs[i])
    ensures ParseFloat(ds + "." + fs) == Some(DecimalValue(ds, fs))
  {
    var t := ds + ("." + fs);
    assert ds + "." + fs == t;
    assert t[0] == ds[0];
    StartsUnsigned(t);
    LeadingDigitsStop(ds, "." + fs);
    assert t[|ds|..] == "." + fs;
    assert ("." + fs)[1..] == fs;
    LeadingDigitsOfDigits(fs);
  }

  /** Reading back the text of an integer with `parseInt` gives the integer. */
  lemma IntTextRoundTrip(n: int)
    ensures ParseInt(IntText(n)) == Some(n)
  {
    var m: nat := if n < 0 then -n else n;
    NatTextValue(m);
    if n < 0 {
      ParseIntOfNegatedDigits(NatText(m));
    } else {
      ParseIntOfDigits(NatText(m));
    }
  }
}
