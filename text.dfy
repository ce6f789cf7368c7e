/**
 * String helpers shared by the calculator and the three forms: character classes,
 * the regular-expression deletions `replace(/x/g, '')`, `String.prototype.trim`,
 * base-10 numerals with en-US thousands grouping, and the prefix parsers
 * `parseInt(s, 10)` and `parseFloat(s)` of ECMA-262 (sections 19.2.5 and 19.2.4).
 */
module Text {
  import opened Wrappers

  /** A radix-10 digit, and what `\d` matches in a JavaScript regular expression: ASCII 0-9 only. */
  predicate IsDigit(c: char) { '0' <= c <= '9' }

  /**
   * The ECMAScript WhiteSpace and LineTerminator code points: what `trim` removes,
   * what `\s` matches and what `parseInt`/`parseFloat` skip before the numeral.
   */
  predicate IsSpace(c: char) {
    || c == '\t' || c == '\n' || c == '\U{B}' || c == '\U{C}' || c == '\r' || c == ' '
    || c == '\U{A0}' || c == '\U{1680}' || ('\U{2000}' <= c <= '\U{200A}')
    || c == '\U{2028}' || c == '\U{2029}' || c == '\U{202F}' || c == '\U{205F}'
    || c == '\U{3000}' || c == '\U{FEFF}'
  }

  predicate NotComma(c: char) { c != ',' }

  predicate AllDigits(s: string) { forall i | 0 <= i < |s| :: IsDigit(s[i]) }

  /** `s.replace(/[^keep]/g, '')`: the characters of `s` that `keep` accepts, in order. */
  function Keep(s: string, keep: char -> bool): (r: string)
    ensures |r| <= |s|
    ensures forall i | 0 <= i < |r| :: keep(r[i])
  {
    if s == [] then [] else (if keep(s[0]) then [s[0]] else []) + Keep(s[1..], keep)
  }

  lemma {:induction false} KeepConcat(a: string, b: string, keep: char -> bool)
    ensures Keep(a + b, keep) == Keep(a, keep) + Keep(b, keep)
  {
    if a == [] {
      assert a + b == b;
    } else {
      assert (a + b)[0] == a[0];
      assert (a + b)[1..] == a[1..] + b;
      KeepConcat(a[1..], b, keep);
    }
  }

  /** Deleting characters that are not there changes nothing. */
  lemma {:induction false} KeepAll(s: string, keep: char -> bool)
    requires forall i | 0 <= i < |s| :: keep(s[i])
    ensures Keep(s, keep) == s
  {
    if s != [] {
      KeepAll(s[1..], keep);
      assert s == [s[0]] + s[1..];
    }
  }

  /** Two filters that agree on every character of `s` keep the same characters. */
  lemma {:induction false} KeepAgree(s: string, f: char -> bool, g: char -> bool)
    requires forall i | 0 <= i < |s| :: f(s[i]) == g(s[i])
    ensures Keep(s, f) == Keep(s, g)
  {
    if s != [] {
      KeepAgree(s[1..], f, g);
    }
  }

  /** The digits of `s`: `s.replace(/\D/g, '')`. */
  function DigitsOf(s: string): (r: string)
    ensures AllDigits(r) && |r| <= |s|
  {
    Keep(s, IsDigit)
  }

  lemma DigitsOfDigits(s: string)
    requires AllDigits(s)
    ensures DigitsOf(s) == s
  {
    KeepAll(s, IsDigit);
  }

  /** `s.trimStart()`: drops the leading white space. */
  function TrimStart(s: string): string {
    if s != [] && IsSpace(s[0]) then TrimStart(s[1..]) else s
  }

  /** `s.trimEnd()`: drops the trailing white space. */
  function TrimEnd(s: string): string {
    if s != [] && IsSpace(s[|s| - 1]) then TrimEnd(s[..|s| - 1]) else s
  }

  /** What `trimStart` keeps is a suffix, all it drops is white space, and what it keeps does not start with white space. */
  lemma {:induction false} TrimStartSpec(s: string)
    ensures var r := TrimStart(s);
      && |r| <= |s| && r == s[|s| - |r|..]
      && (forall i | 0 <= i < |s| - |r| :: IsSpace(s[i]))
      && (r == [] || !IsSpace(r[0]))
  {
    if s != [] && IsSpace(s[0]) {
      var t := s[1..];
      TrimStartSpec(t);
      var r := TrimStart(t);
      assert TrimStart(s) == r;
      assert t[|t| - |r|..] == s[|s| - |r|..];
      forall i | 0 <= i < |s| - |r|
        ensures IsSpace(s[i])
      {
        if i > 0 {
          assert s[i] == t[i - 1];
        }
      }
    }
  }

  /** What `trimEnd` keeps is a prefix, all it drops is white space, and what it keeps does not end with white space. */
  lemma {:induction false} TrimEndSpec(s: string)
    ensures var r := TrimEnd(s);
      && |r| <= |s| && r == s[..|r|]
      && (forall i | |r| <= i < |s| :: IsSpace(s[i]))
      && (r == [] || !IsSpace(r[|r| - 1]))
  {
    if s != [] && IsSpace(s[|s| - 1]) {
      TrimEndSpec(s[..|s| - 1]);
    }
  }

  lemma TrimStartNoSpace(s: string)
    requires s != [] && !IsSpace(s[0])
    ensures TrimStart(s) == s
  {
  }

  /** `s.trim()`. */
  function Trim(s: string): string {
    TrimEnd(TrimStart(s))
  }

  /** A string is blank, so that `!s.trim()` holds in JavaScript, exactly when every character is white space. */
  lemma TrimEmptyIff(s: string)
    ensures Trim(s) == [] <==> forall i | 0 <= i < |s| :: IsSpace(s[i])
  {
    var t := TrimStart(s);
    TrimStartSpec(s);
    TrimEndSpec(t);
    if t != [] {
      assert TrimEnd(t) != [];
      assert t[0] == s[|s| - |t|];
    }
  }

  function DigitValue(c: char): (d: nat)
    requires IsDigit(c)
    ensures d < 10
  {
    (c as int) - ('0' as int)
  }

  function DigitChar(d: nat): (c: char)
    requires d < 10
    ensures IsDigit(c) && DigitValue(c) == d
  {
    (('0' as int) + d) as char
  }

  /** The number a digit string denotes (leading zeros allowed). */
  function DecimalValue(ds: string): nat
    requires AllDigits(ds)
  {
    if ds == [] then 0 else 10 * DecimalValue(ds[..|ds| - 1]) + DigitValue(ds[|ds| - 1])
  }

  /** A canonical numeral: digits only, at least one, and no leading zero except for "0" itself. */
  predicate Canonical(ds: string) {
    AllDigits(ds) && |ds| >= 1 && (ds[0] == '0' ==> |ds| == 1)
  }

  /** The canonical base-10 numeral of `n`, as `String(n)` writes it. */
  function Decimal(n: nat): (r: string)
    ensures Canonical(r)
    ensures DecimalValue(r) == n
  {
    if n < 10 then [DigitChar(n)]
    else
      var p := Decimal(n / 10);
      var r := p + [DigitChar(n % 10)];
      assert r[..|r| - 1] == p;
      r
  }

  lemma {:induction false} LeadingDigitPositive(ds: string)
    requires AllDigits(ds) && |ds| >= 1 && ds[0] != '0'
    ensures DecimalValue(ds) >= 1
  {
    if |ds| > 1 {
      LeadingDigitPositive(ds[..|ds| - 1]);
    }
  }

  /** Reading a canonical numeral and writing the number back gives the numeral again. */
  lemma {:induction false} DecimalOfValue(ds: string)
    requires Canonical(ds)
    ensures Decimal(DecimalValue(ds)) == ds
  {
    if |ds| > 1 {
      var p := ds[..|ds| - 1];
      var c := ds[|ds| - 1];
      LeadingDigitPositive(p);
      DecimalOfValue(p);
      var n := DecimalValue(ds);
      assert n == 10 * DecimalValue(p) + DigitValue(c);
      assert n / 10 == DecimalValue(p) && n % 10 == DigitValue(c);
      assert DigitChar(DigitValue(c)) == c;
      assert Decimal(n) == Decimal(n / 10) + [DigitChar(n % 10)];
      assert ds == p + [c];
    }
  }

  /** The en-US grouping of a numeral: a comma before every group of three digits counted from the right. */
  function Group(ds: string): string {
    if |ds| <= 3 then ds else Group(ds[..|ds| - 3]) + "," + ds[|ds| - 3..]
  }

  lemma {:induction false} GroupLength(ds: string)
    requires |ds| >= 1
    ensures |Group(ds)| == |ds| + (|ds| - 1) / 3
  {
    if |ds| > 3 {
      GroupLength(ds[..|ds| - 3]);
    }
  }

  /** The step of `Group`: the grouping of the numeral without its last three digits, a comma, and those digits. */
  lemma GroupStep(ds: string)
    requires |ds| > 3
    ensures Group(ds) == Group(ds[..|ds| - 3]) + [','] + ds[|ds| - 3..]
  {
  }

  /**
   * The commas of a grouped numeral: each stands a multiple of four positions from
   * the right end, and nothing else is a comma, so the groups are three digits wide
   * and the leftmost group has one to three digits.
   */
  lemma {:induction false} GroupCommas(ds: string)
    requires AllDigits(ds) && |ds| >= 1
    ensures |Group(ds)| % 4 != 0
    ensures forall p | 0 <= p < |Group(ds)| :: Group(ds)[p] == ',' <==> (|Group(ds)| - p) % 4 == 0
    ensures forall p | 0 <= p < |Group(ds)| :: Group(ds)[p] == ',' || IsDigit(Group(ds)[p])
  {
    GroupLength(ds);
    if |ds| > 3 {
      var pre, tail := ds[..|ds| - 3], ds[|ds| - 3..];
      GroupCommas(pre);
      GroupStep(ds);
      CommasAppend(Group(pre), tail);
    }
  }

  /** Appending a comma and three digits to a well-grouped string keeps it well grouped. */
  lemma CommasAppend(g: string, tail: string)
    requires AllDigits(tail) && |tail| == 3
    requires |g| % 4 != 0
    requires forall p | 0 <= p < |g| :: g[p] == ',' <==> (|g| - p) % 4 == 0
    requires forall p | 0 <= p < |g| :: g[p] == ',' || IsDigit(g[p])
    ensures var r := g + [','] + tail;
      && |r| % 4 != 0
      && (forall p | 0 <= p < |r| :: r[p] == ',' <==> (|r| - p) % 4 == 0)
      && (forall p | 0 <= p < |r| :: r[p] == ',' || IsDigit(r[p]))
  {
    var r := g + [','] + tail;
    assert |r| == |g| + 4;
    forall p | 0 <= p < |r|
      ensures (r[p] == ',' <==> (|r| - p) % 4 == 0) && (r[p] == ',' || IsDigit(r[p]))
    {
      if p < |g| {
        assert r[p] == g[p];
        ModShift(|g| - p);
      } else if p > |g| {
        assert r[p] == tail[p - |g| - 1];
      }
    }
  }

  lemma ModShift(k: int)
    ensures (k + 4) % 4 == k % 4
  {
  }

  /** Removing the commas of a grouped numeral gives the numeral back. */
  lemma {:induction false} GroupUngroup(ds: string)
    requires AllDigits(ds)
    ensures Keep(Group(ds), NotComma) == ds
  {
    if |ds| <= 3 {
      KeepAll(ds, NotComma);
    } else {
      var pre, tail := ds[..|ds| - 3], ds[|ds| - 3..];
      GroupUngroup(pre);
      GroupStep(ds);
      UngroupAppend(Group(pre), pre, tail);
      assert ds == pre + tail;
    }
  }

  /** Dropping the commas of a grouping, a comma and more digits leaves the digits of both. */
  lemma UngroupAppend(g: string, pre: string, tail: string)
    requires Keep(g, NotComma) == pre
    requires AllDigits(tail)
    ensures Keep(g + [','] + tail, NotComma) == pre + tail
  {
    KeepConcat(g + [','], tail, NotComma);
    KeepConcat(g, [','], NotComma);
    KeepAll(tail, NotComma);
    assert Keep([','], NotComma) == [];
    assert pre + [] == pre;
  }

  /** The longest prefix of `s` made of decimal digits. */
  function DigitPrefix(s: string): (r: string)
    ensures AllDigits(r) && r <= s
    ensures |r| < |s| ==> !IsDigit(s[|r|])
  {
    if s != [] && IsDigit(s[0]) then [s[0]] + DigitPrefix(s[1..]) else []
  }

  lemma {:induction false} DigitPrefixOfDigits(ds: string, rest: string)
    requires AllDigits(ds)
    requires rest == [] || !IsDigit(rest[0])
    ensures DigitPrefix(ds + rest) == ds
  {
    if ds != [] {
      assert (ds + rest)[1..] == ds[1..] + rest;
      DigitPrefixOfDigits(ds[1..], rest);
    }
  }

  /** The text after an optional leading sign, and whether that sign is a minus. */
  function Unsigned(t: string): string {
    if |t| > 0 && (t[0] == '-' || t[0] == '+') then t[1..] else t
  }

  predicate IsNegative(t: string) { |t| > 0 && t[0] == '-' }

  /**
   * `parseInt(s, 10)` (ECMA-262 section 19.2.5): skip leading white space, read an
   * optional sign, then the longest run of decimal digits. `None` stands for `NaN`,
   * the result when no digit follows. A negative zero is read as 0.
   */
  function ParseInt(s: string): Option<int> {
    var t := TrimStart(s);
    var z := DigitPrefix(Unsigned(t));
    if z == [] then None
    else
      var v: int := DecimalValue(z);
      Some(if IsNegative(t) then -v else v)
  }

  /**
   * `parseInt` gives `NaN` exactly when, after the leading space and sign, no digit
   * comes first; otherwise its magnitude is the value of the leading digit run.
   */
  lemma ParseIntNoneIff(s: string)
    ensures var u := Unsigned(TrimStart(s));
      && (ParseInt(s).None? <==> !(|u| > 0 && IsDigit(u[0])))
      && (ParseInt(s).Some? ==>
            ParseInt(s).value == (if IsNegative(TrimStart(s)) then -1 else 1) * DecimalValue(DigitPrefix(u)))
  {
    var u := Unsigned(TrimStart(s));
    if |u| > 0 && IsDigit(u[0]) {
      assert DigitPrefix(u) != [];
    }
  }

  /** `parseInt` reads a digit string up to the first non-digit after it. */
  lemma ParseIntOfDigits(ds: string, rest: string)
    requires AllDigits(ds) && |ds| >= 1
    requires rest == [] || !IsDigit(rest[0])
    ensures ParseInt(ds + rest) == Some(DecimalValue(ds))
  {
    var s := ds + rest;
    assert s[0] == ds[0];
    TrimStartNoSpace(s);
    assert Unsigned(s) == s;
    DigitPrefixOfDigits(ds, rest);
  }

  /** `parseInt` reads a minus sign followed by a digit string as the negated number. */
  lemma ParseIntOfNegated(ds: string, rest: string, n: string)
    requires AllDigits(ds) && |ds| >= 1
    requires rest == [] || !IsDigit(rest[0])
    requires |n| > 0 && n[0] == '-' && n[1..] == ds + rest
    ensures ParseInt(n) == Some(-(DecimalValue(ds) as int))
  {
    NegativeSign(n);
    DigitPrefixOfDigits(ds, rest);
    ParseIntNegative(n, ds);
  }

  /** `parseInt` of a text with no leading space, a minus sign and the digits `z` first. */
  lemma ParseIntNegative(n: string, z: string)
    requires TrimStart(n) == n && IsNegative(n)
    requires DigitPrefix(Unsigned(n)) == z && z != []
    ensures ParseInt(n) == Some(-(DecimalValue(z) as int))
  {
  }

  /** A leading minus sign is not white space, and it is the sign `parseInt` reads. */
  lemma NegativeSign(n: string)
    requires |n| > 0 && n[0] == '-'
    ensures TrimStart(n) == n && Unsigned(n) == n[1..] && IsNegative(n)
  {
    TrimStartNoSpace(n);
  }

  function Pow10(k: nat): (r: nat)
    ensures r >= 1
  {
    if k == 0 then 1 else 10 * Pow10(k - 1)
  }

  /**
   * The value of a `parseFloat` exponent part at the start of `s`: `e` or `E`, an
   * optional sign and at least one digit; 0 when `s` does not start with one.
   */
  function Exponent(s: string): int {
    if |s| > 0 && (s[0] == 'e' || s[0] == 'E') then
      var digits := DigitPrefix(Unsigned(s[1..]));
      if digits == [] then 0
      else if IsNegative(s[1..]) then -(DecimalValue(digits) as int)
      else DecimalValue(digits)
    else 0
  }

  /** The value of the decimal numeral with digits `w` before the point and `f` after it. */
  function PointValue(w: string, f: string): real
    requires AllDigits(w) && AllDigits(f)
  {
    DecimalValue(w) as real + DecimalValue(f) as real / Pow10(|f|) as real
  }

  function Scale(m: real, e: int): real {
    if e >= 0 then m * Pow10(e) as real else m / Pow10(-e) as real
  }

  /**
   * `parseFloat(s)` (ECMA-262 section 19.2.4) over exact rationals: skip leading
   * white space, read an optional sign, digits, an optional `.` with digits, and an
   * optional exponent. `None` stands for `NaN`, the result when the mantissa has no
   * digit at all.
   */
  function ParseFloat(s: string): Option<real> {
    var t := TrimStart(s);
    var u := Unsigned(t);
    var whole := DigitPrefix(u);
    var afterWhole := u[|whole|..];
    var hasDot := |afterWhole| > 0 && afterWhole[0] == '.';
    var frac := if hasDot then DigitPrefix(afterWhole[1..]) else [];
    if whole == [] && frac == [] then None
    else
      var afterMantissa := if hasDot then afterWhole[1 + |frac|..] else afterWhole;
      var magnitude := Scale(PointValue(whole, frac), Exponent(afterMantissa));
      Some(if IsNegative(t) then -magnitude else magnitude)
  }

  /** Text that can follow a number without extending it: no digit and no exponent mark. */
  predicate EndsNumber(rest: string) {
    rest == [] || (!IsDigit(rest[0]) && rest[0] != 'e' && rest[0] != 'E')
  }

  /** `parseFloat` reads digits, a point and digits up to the first character that cannot extend them. */
  lemma ParseFloatOfDecimal(w: string, f: string, rest: string)
    requires AllDigits(w) && AllDigits(f) && |w| + |f| >= 1
    requires EndsNumber(rest)
    ensures ParseFloat(w + "." + f + rest) == Some(PointValue(w, f))
  {
    var s := w + "." + f + rest;
    assert s[0] == (if w == [] then '.' else w[0]);
    TrimStartNoSpace(s);
    assert Unsigned(s) == s;
    ParseFloatOfSigned(s, w, f, rest);
  }

  /** `parseFloat` reads a minus sign followed by a decimal numeral as the negated value. */
  lemma ParseFloatOfNegated(w: string, f: string, rest: string, n: string)
    requires AllDigits(w) && AllDigits(f) && |w| + |f| >= 1
    requires EndsNumber(rest)
    requires |n| > 0 && n[0] == '-' && n[1..] == w + "." + f + rest
    ensures ParseFloat(n) == Some(-PointValue(w, f))
  {
    NegativeSign(n);
    ParseFloatOfSigned(n, w, f, rest);
  }

  /** `parseFloat` of a text with no leading space whose unsigned part is a decimal numeral and `rest`. */
  lemma ParseFloatOfSigned(t: string, w: string, f: string, rest: string)
    requires AllDigits(w) && AllDigits(f) && |w| + |f| >= 1
    requires EndsNumber(rest)
    requires TrimStart(t) == t && Unsigned(t) == w + "." + f + rest
    ensures ParseFloat(t) == Some(if IsNegative(t) then -PointValue(w, f) else PointValue(w, f))
  {
    var a := "." + f + rest;
    PointSplit(w, f, rest);
    assert Exponent(rest) == 0;
    assert Scale(PointValue(w, f), 0) == PointValue(w, f);
    ParseFloatPoint(t, w, a, f, rest);
  }

  /** How `parseFloat` splits a numeral with a point: the digits `w`, then the point, the digits `f` and `rest`. */
  lemma PointSplit(w: string, f: string, rest: string)
    requires AllDigits(w) && AllDigits(f) && EndsNumber(rest)
    ensures var u, a := w + "." + f + rest, "." + f + rest;
      DigitPrefix(u) == w && u[|w|..] == a && DigitPrefix(a[1..]) == f && a[1 + |f|..] == rest
  {
    var a := "." + f + rest;
    assert w + "." + f + rest == w + a;
    DigitPrefixOfDigits(w, a);
    FractionSplit(f, rest);
  }

  /** After the point, the digits `f` and then `rest`. */
  lemma FractionSplit(f: string, rest: string)
    requires AllDigits(f) && EndsNumber(rest)
    ensures var a := "." + f + rest; DigitPrefix(a[1..]) == f && a[1 + |f|..] == rest
  {
    var a := "." + f + rest;
    assert a[1..] == f + rest;
    DigitPrefixOfDigits(f, rest);
  }

  /** `parseFloat` of a text whose mantissa, as `parseFloat` splits it, is `w`, a point and `f`. */
  lemma ParseFloatPoint(t: string, w: string, a: string, f: string, rest: string)
    requires TrimStart(t) == t
    requires DigitPrefix(Unsigned(t)) == w && Unsigned(t)[|w|..] == a
    requires |a| > 0 && a[0] == '.' && DigitPrefix(a[1..]) == f && a[1 + |f|..] == rest
    requires |w| + |f| >= 1 && Exponent(rest) == 0
    requires Scale(PointValue(w, f), 0) == PointValue(w, f)
    ensures ParseFloat(t) == Some(if IsNegative(t) then -PointValue(w, f) else PointValue(w, f))
  {
  }

  /**
   * `parseFloat` gives `NaN` exactly when, after the leading space and sign, neither a
   * digit nor a point followed by a digit comes first.
   */
  lemma ParseFloatNoneIff(s: string)
    ensures var u := Unsigned(TrimStart(s));
      ParseFloat(s).None? <==>
        !(|u| > 0 && IsDigit(u[0])) && !(|u| > 1 && u[0] == '.' && IsDigit(u[1]))
  {
    var u := Unsigned(TrimStart(s));
    var whole := DigitPrefix(u);
    if |u| > 0 && IsDigit(u[0]) {
      assert whole != [];
    } else {
      assert whole == [];
      assert u[|whole|..] == u;
      if |u| > 0 && u[0] == '.' {
        assert |u| > 1 && IsDigit(u[1]) <==> DigitPrefix(u[1..]) != [];
      }
    }
  }
}
