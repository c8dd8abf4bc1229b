/** The few JavaScript string operations the calculator relies on, written out:
    `split('/')[0]`, `includes`, `replace` with a one-character pattern, and
    the part of `parseFloat` that a decimal field can exercise. */
module Strings {
  import opened Wrappers

  /** `s.split('/')[0]`: the text before the first slash, or all of `s` when
      there is no slash. The three clauses determine the result uniquely. */
  function FirstSegment(s: string): (r: string)
    ensures r <= s
    ensures '/' !in r
    ensures |r| < |s| ==> s[|r|] == '/'
  {
    if s == [] || s[0] == '/' then [] else [s[0]] + FirstSegment(s[1..])
  }

  /** The leading token is the only slash-free prefix that is followed by a
      slash. */
  lemma FirstSegmentIs(s: string, p: string)
    requires p <= s && '/' !in p && |p| < |s| && s[|p|] == '/'
    ensures FirstSegment(s) == p
  {
  }

  /** `s.startsWith(p)`, compared one character at a time. */
  predicate StartsWith(s: string, p: string)
  {
    p == [] || (s != [] && s[0] == p[0] && StartsWith(s[1..], p[1..]))
  }

  lemma {:induction false} StartsWithIsPrefix(s: string, p: string)
    ensures StartsWith(s, p) <==> p <= s
  {
    if p != [] && s != [] {
      StartsWithIsPrefix(s[1..], p[1..]);
      assert p <= s <==> (s[0] == p[0] && p[1..] <= s[1..]);
    }
  }

  /** `s.includes(sub)`: `sub` starts at some position of `s`. */
  predicate Includes(s: string, sub: string)
  {
    StartsWith(s, sub) || (s != [] && Includes(s[1..], sub))
  }

  /** A match at a known position is a match. */
  lemma {:induction false} IncludesAt(s: string, sub: string, i: nat)
    requires i <= |s| && StartsWith(s[i..], sub)
    ensures Includes(s, sub)
  {
    if i > 0 {
      assert s[1..][i - 1..] == s[i..];
      IncludesAt(s[1..], sub, i - 1);
    }
  }

  lemma {:induction false} IncludesIff(s: string, sub: string)
    ensures Includes(s, sub) <==> exists i :: 0 <= i <= |s| && sub <= s[i..]
  {
    StartsWithIsPrefix(s, sub);
    assert s[0..] == s;
    if s != [] {
      IncludesIff(s[1..], sub);
      forall i | 0 <= i <= |s[1..]| ensures s[1..][i..] == s[i + 1..] { }
      if exists i :: 0 <= i <= |s| && sub <= s[i..] {
        var i :| 0 <= i <= |s| && sub <= s[i..];
        if i > 0 {
          assert sub <= s[1..][i - 1..];
        }
      }
    }
  }

  /** A fragment starting with a slash is absent when no slash of `s` is
      followed by the fragment's second character. */
  lemma {:induction false} SlashNotFollowedBy(s: string, sub: string)
    requires |sub| >= 2 && sub[0] == '/'
    requires forall i :: 0 <= i < |s| && s[i] == '/' ==> i + 1 < |s| && s[i + 1] != sub[1]
    ensures !Includes(s, sub)
  {
    if s != [] {
      assert !StartsWith(s, sub) by {
        if s[0] == '/' { assert s[1] != sub[1]; }
      }
      forall i | 0 <= i < |s[1..]| && s[1..][i] == '/'
        ensures i + 1 < |s[1..]| && s[1..][i + 1] != sub[1]
      {
        assert s[i + 1] == '/';
      }
      SlashNotFollowedBy(s[1..], sub);
    }
  }

  /** `s.replace(from, to)` for one-character strings: only the FIRST
      occurrence of `from` is replaced, later ones are kept. */
  function ReplaceFirst(s: string, from: char, to: char): (r: string)
    ensures |r| == |s|
    ensures from !in s ==> r == s
  {
    if s == [] then []
    else if s[0] == from then [to] + s[1..]
    else [s[0]] + ReplaceFirst(s[1..], from, to)
  }

  lemma {:induction false} ReplaceFirstAt(s: string, from: char, to: char, k: nat)
    requires k < |s| && s[k] == from && from !in s[..k]
    ensures ReplaceFirst(s, from, to) == s[..k] + [to] + s[k + 1..]
  {
    if k > 0 {
      assert s[0] in s[..k];
      assert s[1..][..k - 1] == s[1..k];
      ReplaceFirstAt(s[1..], from, to, k - 1);
    }
  }

  predicate IsDigit(c: char) { '0' <= c <= '9' }

  /** The characters `parseFloat` skips before the number (the ASCII ones:
      tab, line feed, vertical tab, form feed, carriage return and space). */
  predicate IsSpace(c: char)
  {
    c == ' ' || c == '\t' || c == '\n' || c == '\U{000B}' || c == '\U{000C}' || c == '\r'
  }

  function TrimStart(s: string): (r: string)
    ensures r == [] || !IsSpace(r[0])
    ensures exists k :: 0 <= k <= |s| && r == s[k..] && forall j :: 0 <= j < k ==> IsSpace(s[j])
  {
    if s != [] && IsSpace(s[0]) then
      var r := TrimStart(s[1..]);
      assert forall j :: 0 < j <= |s| ==> s[1..][j - 1..] == s[j..];
      r
    else
      assert s[0..] == s;
      s
  }

  /** A decimal numeral opens `s`: a digit, or a point followed by a digit. */
  predicate StartsNumeral(s: string)
  {
    (s != [] && IsDigit(s[0])) || (|s| >= 2 && s[0] == '.' && IsDigit(s[1]))
  }

  /** The longest numeral prefix of `s` read as digits, an optional point and
      digits; `acc` is the integer part read so far, `seen` says a digit was. */
  function WholePart(s: string, acc: nat, seen: bool): (r: Option<real>)
    ensures r.Some? ==> r.value >= acc as real
  {
    if s != [] && IsDigit(s[0]) then WholePart(s[1..], acc * 10 + (s[0] as int - '0' as int), true)
    else if s != [] && s[0] == '.' then FractionPart(s[1..], acc, 0, 1, seen)
    else if seen then Some(acc as real)
    else None
  }

  /** `whole` and `num / den`, the value of a numeral with a fraction. */
  function Fraction(whole: nat, num: nat, den: nat): (r: real)
    requires den > 0
    ensures r >= whole as real
  {
    whole as real + num as real / den as real
  }

  /** The digits after the point: `num / den` is the fraction read so far. */
  function FractionPart(s: string, whole: nat, num: nat, den: nat, seen: bool): (r: Option<real>)
    requires den > 0
    ensures r.Some? ==> r.value >= whole as real
  {
    if s != [] && IsDigit(s[0]) then FractionPart(s[1..], whole, num * 10 + (s[0] as int - '0' as int), den * 10, true)
    else if seen then Some(Fraction(whole, num, den))
    else None
  }

  /** An unsigned decimal numeral at the start of `s`, trailing text ignored. */
  function ParseDecimal(s: string): (r: Option<real>)
    ensures r.Some? ==> r.value >= 0.0
  {
    WholePart(s, 0, false)
  }

  /** `parseFloat(s)`, with `None` for NaN: leading blanks, an optional sign,
      then a decimal numeral; whatever follows the numeral is ignored. */
  function ParseFloat(s: string): (r: Option<real>)
  {
    var t := TrimStart(s);
    if t != [] && t[0] == '-' then
      match ParseDecimal(t[1..])
      case None => None
      case Some(x) => Some(-x)
    else if t != [] && t[0] == '+' then ParseDecimal(t[1..])
    else ParseDecimal(t)
  }

  lemma {:induction false} FractionPartDefined(s: string, whole: nat, num: nat, den: nat, seen: bool)
    requires den > 0
    ensures FractionPart(s, whole, num, den, seen).Some? <==> seen || (s != [] && IsDigit(s[0]))
  {
    if s != [] && IsDigit(s[0]) {
      FractionPartDefined(s[1..], whole, num * 10 + (s[0] as int - '0' as int), den * 10, true);
    }
  }

  lemma {:induction false} WholePartDefined(s: string, acc: nat, seen: bool)
    ensures WholePart(s, acc, seen).Some? <==> seen || StartsNumeral(s)
  {
    if s != [] && IsDigit(s[0]) {
      WholePartDefined(s[1..], acc * 10 + (s[0] as int - '0' as int), true);
    } else if s != [] && s[0] == '.' {
      FractionPartDefined(s[1..], acc, 0, 1, seen);
    }
  }

  /** `parseFloat` yields a number exactly when, after the blanks and an
      optional sign, a numeral begins; otherwise it yields NaN. */
  lemma ParseFloatDefined(s: string)
    ensures var t := TrimStart(s);
      ParseFloat(s).Some? <==>
        if t != [] && (t[0] == '-' || t[0] == '+') then StartsNumeral(t[1..]) else StartsNumeral(t)
  {
    var t := TrimStart(s);
    if t != [] && (t[0] == '-' || t[0] == '+') {
      WholePartDefined(t[1..], 0, false);
    } else {
      WholePartDefined(t, 0, false);
    }
  }

  /** A minus sign negates what follows it. */
  lemma ParseFloatNegative(s: string)
    ensures ParseFloat(['-'] + s) == (if ParseDecimal(s).Some? then Some(-ParseDecimal(s).value) else None)
  {
    var t := ['-'] + s;
    assert !IsSpace(t[0]);
    assert TrimStart(t) == t;
    assert t[1..] == s;
  }

  predicate AllDigits(s: string)
  {
    forall i :: 0 <= i < |s| ==> IsDigit(s[i])
  }

  function Pow10(n: nat): (p: nat)
    ensures p >= 1
  {
    if n == 0 then 1 else 10 * Pow10(n - 1)
  }

  /** The positional value of a digit string: the first digit counts
      10^(length - 1) times. */
  function DigitsValue(s: string): nat
    requires AllDigits(s)
  {
    if s == [] then 0 else (s[0] as int - '0' as int) * Pow10(|s| - 1) + DigitsValue(s[1..])
  }

  lemma ShiftDigit(acc: nat, d: nat, p: nat, q: nat, rest: nat)
    requires q == 10 * p
    ensures (acc * 10 + d) * p + rest == acc * q + (d * p + rest)
  {
    assert (acc * 10 + d) * p == acc * (10 * p) + d * p;
  }


  lemma TimesTen(x: nat, p: nat, q: nat)
    requires q == 10 * p
    ensures x * 10 * p == x * q
  {
    assert x * 10 * p == x * (10 * p);
  }

  /** Reading a run of digits shifts what was read before by one place per
      digit and adds the run's positional value; reading then goes on with
      whatever follows the run. */
  lemma {:induction false} WholePartThroughDigits(s: string, tail: string, acc: nat, seen: bool)
    requires AllDigits(s)
    ensures WholePart(s + tail, acc, seen) == WholePart(tail, acc * Pow10(|s|) + DigitsValue(s), seen || s != [])
  {
    if s == [] {
      assert s + tail == tail;
    } else {
      var d: nat := s[0] as int - '0' as int;
      var n := |s| - 1;
      assert IsDigit(s[0]);
      assert (s + tail)[1..] == s[1..] + tail;
      assert WholePart(s + tail, acc, seen) == WholePart(s[1..] + tail, acc * 10 + d, true);
      assert AllDigits(s[1..]) by {
        forall i | 0 <= i < |s[1..]| ensures IsDigit(s[1..][i]) { assert s[1..][i] == s[i + 1]; }
      }
      WholePartThroughDigits(s[1..], tail, acc * 10 + d, true);
      assert DigitsValue(s) == d * Pow10(n) + DigitsValue(s[1..]);
      ShiftDigit(acc, d, Pow10(n), Pow10(|s|), DigitsValue(s[1..]));
    }
  }

  /** Fraction digits append to the numerator and to the denominator alike. */
  lemma {:induction false} FractionPartOfDigits(s: string, whole: nat, num: nat, den: nat, seen: bool)
    requires AllDigits(s) && den > 0 && (s != [] || seen)
    ensures FractionPart(s, whole, num, den, seen)
         == Some(Fraction(whole, num * Pow10(|s|) + DigitsValue(s), den * Pow10(|s|)))
  {
    if s == [] {
      assert num * Pow10(0) == num && den * Pow10(0) == den;
    } else {
      var d: nat := s[0] as int - '0' as int;
      var n := |s| - 1;
      var p, q := Pow10(n), Pow10(|s|);
      assert IsDigit(s[0]);
      assert AllDigits(s[1..]) by {
        forall i | 0 <= i < |s[1..]| ensures IsDigit(s[1..][i]) { assert s[1..][i] == s[i + 1]; }
      }
      FractionPartOfDigits(s[1..], whole, num * 10 + d, den * 10, true);
      assert q == 10 * p;
      assert (num * 10 + d) * p + DigitsValue(s[1..]) == num * q + DigitsValue(s) by {
        assert DigitsValue(s) == d * p + DigitsValue(s[1..]);
        ShiftDigit(num, d, p, q, DigitsValue(s[1..]));
      }
      TimesTen(den, p, q);
    }
  }


  /** Text that opens with a digit is not trimmed and carries no sign. */
  lemma ParseFloatOfUnsigned(s: string)
    requires s != [] && IsDigit(s[0])
    ensures ParseFloat(s) == WholePart(s, 0, false)
  {
    assert TrimStart(s) == s;
  }

  /** `parseFloat` of an unsigned run of digits is its positional value. */
  lemma ParseFloatOfDigits(s: string)
    requires s != [] && AllDigits(s)
    ensures ParseFloat(s) == Some(DigitsValue(s) as real)
  {
    ParseFloatOfUnsigned(s);
    WholePartThroughDigits(s, [], 0, false);
    assert s + [] == s;
  }

  /** Reading digits up to a point hands their value to the fraction reader. */
  lemma WholePartReachesPoint(a: string, b: string)
    requires a != [] && AllDigits(a)
    ensures WholePart(a + ['.'] + b, 0, false) == FractionPart(b, DigitsValue(a), 0, 1, true)
  {
    var tail := ['.'] + b;
    var v := DigitsValue(a);
    assert a + ['.'] + b == a + tail;
    WholePartThroughDigits(a, tail, 0, false);
    assert 0 * Pow10(|a|) + v == v;
    assert tail[0] == '.' && tail[1..] == b;
  }

  /** `parseFloat` of digits, a point and digits is the integer part plus
      the fraction digits over the matching power of ten. */
  lemma ParseFloatOfDecimal(a: string, b: string)
    requires a != [] && AllDigits(a) && AllDigits(b)
    ensures ParseFloat(a + ['.'] + b) == Some(Fraction(DigitsValue(a), DigitsValue(b), Pow10(|b|)))
  {
    var s := a + ['.'] + b;
    assert s[0] == a[0];
    ParseFloatOfUnsigned(s);
    WholePartReachesPoint(a, b);
    FractionPartOfDigits(b, DigitsValue(a), 0, 1, true);
    assert 0 * Pow10(|b|) + DigitsValue(b) == DigitsValue(b);
    assert 1 * Pow10(|b|) == Pow10(|b|);
  }


}
