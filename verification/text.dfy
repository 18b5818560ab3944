/**
 * Character-level helpers the application relies on: decimal rendering
 * (`String(n)`, `padStart`), decimal digit parsing, JavaScript's `trim`, and
 * the code-unit ordering of strings used by `<=` on strings.
 */
module Text {

  predicate IsDigit(c: char) { '0' <= c <= '9' }

  predicate AllDigits(s: string) { forall i :: 0 <= i < |s| ==> IsDigit(s[i]) }

  function DigitChar(d: int): (c: char)
    requires 0 <= d <= 9
    ensures IsDigit(c)
  {
    (48 + d) as char
  }

  function DigitValue(c: char): (d: int)
    requires IsDigit(c)
    ensures 0 <= d <= 9
  {
    c as int - 48
  }

  function Pow10(k: nat): (p: nat)
    ensures p >= 1
  {
    if k == 0 then 1 else 10 * Pow10(k - 1)
  }

  /** The decimal rendering of `n` without leading zeros, as JavaScript's `String(n)`. */
  function NatToString(n: nat): (s: string)
    ensures |s| >= 1 && AllDigits(s)
    decreases n
  {
    if n < 10 then [DigitChar(n)] else NatToString(n / 10) + [DigitChar(n % 10)]
  }

  /** JavaScript's `String(i)` for an integer: a minus sign, then the digits of the magnitude. */
  function IntToString(i: int): string
  {
    if i < 0 then "-" + NatToString(-i) else NatToString(i)
  }

  /** JavaScript's `s.padStart(width, fill)` for a one-character filler. */
  function PadStart(s: string, width: nat, fill: char): (r: string)
    ensures |r| == if |s| >= width then |s| else width
    ensures r[|r| - |s|..] == s
    ensures forall i :: 0 <= i < |r| - |s| ==> r[i] == fill
  {
    if |s| >= width then s else seq(width - |s|, _ => fill) + s
  }

  /** `n` rendered with at least `width` digits, zero-filled on the left. */
  function ZeroPad(n: nat, width: nat): (r: string)
    ensures AllDigits(r)
  {
    PadStart(NatToString(n), width, '0')
  }

  /** The value of a string of decimal digits; the empty string is worth 0. */
  function DigitsValue(s: string): nat
    requires AllDigits(s)
    decreases |s|
  {
    if |s| == 0 then 0 else DigitsValue(s[..|s| - 1]) * 10 + DigitValue(s[|s| - 1])
  }

  /** Rendering then reading back a natural number gives the number. */
  lemma {:induction false} NatToStringValue(n: nat)
    ensures DigitsValue(NatToString(n)) == n
    decreases n
  {
    if n >= 10 {
      var s := NatToString(n);
      NatToStringValue(n / 10);
      assert s[..|s| - 1] == NatToString(n / 10);
    }
  }

  /** A string of `k` digits is worth less than 10^k. */
  lemma {:induction false} DigitsValueBound(s: string)
    requires AllDigits(s)
    ensures DigitsValue(s) < Pow10(|s|)
    decreases |s|
  {
    if |s| > 0 {
      DigitsValueBound(s[..|s| - 1]);
    }
  }

  /** Zeros in front of a digit string do not change its value. */
  lemma {:induction false} LeadingZerosValue(z: nat, s: string)
    requires AllDigits(s)
    ensures AllDigits(seq(z, _ => '0') + s)
    ensures DigitsValue(seq(z, _ => '0') + s) == DigitsValue(s)
    decreases |s|
  {
    var t := seq(z, _ => '0') + s;
    assert AllDigits(t) by {
      forall i | 0 <= i < |t| ensures IsDigit(t[i]) {
        if i >= z { assert t[i] == s[i - z]; }
      }
    }
    if |s| == 0 {
      ZerosValue(z);
      assert t == seq(z, _ => '0');
    } else {
      assert t[..|t| - 1] == seq(z, _ => '0') + s[..|s| - 1];
      LeadingZerosValue(z, s[..|s| - 1]);
    }
  }

  lemma {:induction false} ZerosValue(z: nat)
    ensures AllDigits(seq(z, _ => '0'))
    ensures DigitsValue(seq(z, _ => '0')) == 0
  {
    if z > 0 {
      assert seq(z, _ => '0')[..z - 1] == seq(z - 1, _ => '0');
      ZerosValue(z - 1);
    }
  }

  /** Reading back a zero-padded rendering gives the number. */
  lemma ZeroPadValue(n: nat, width: nat)
    ensures DigitsValue(ZeroPad(n, width)) == n
  {
    var s := NatToString(n);
    NatToStringValue(n);
    if |s| < width {
      LeadingZerosValue(width - |s|, s);
    }
  }

  /** A number below 10^w has at most w digits, and one at least 10^(w-1) has at least w. */
  lemma {:induction false} NatToStringLength(n: nat, w: nat)
    requires 1 <= w
    ensures n < Pow10(w) ==> |NatToString(n)| <= w
    ensures n >= Pow10(w - 1) ==> |NatToString(n)| >= w
    decreases n
  {
    if n >= 10 {
      if w > 1 {
        NatToStringLength(n / 10, w - 1);
      } else {
        assert Pow10(1) == 10;
      }
    } else if w > 1 {
      Pow10Grows(w - 1);
    }
  }

  lemma {:induction false} Pow10Grows(k: nat)
    requires k >= 1
    ensures Pow10(k) >= 10
  {
    if k > 1 { Pow10Grows(k - 1); }
  }

  /** A number below 10^width is rendered by `ZeroPad` with exactly `width` digits. */
  lemma ZeroPadLength(n: nat, width: nat)
    requires 1 <= width && n < Pow10(width)
    ensures |ZeroPad(n, width)| == width
  {
    NatToStringLength(n, width);
  }

  // ---------------------------------------------------------------------------
  // Whitespace and `trim`

  /** The characters JavaScript's `String.prototype.trim` removes (WhiteSpace and LineTerminator). */
  predicate IsJsWhitespace(c: char)
  {
    c == '\t' || c == '\n' || c == '\U{000B}' || c == '\U{000C}' || c == '\r' || c == ' '
    || c == '\U{00A0}' || c == '\U{1680}' || ('\U{2000}' <= c <= '\U{200A}')
    || c == '\U{2028}' || c == '\U{2029}' || c == '\U{202F}' || c == '\U{205F}'
    || c == '\U{3000}' || c == '\U{FEFF}'
  }

  predicate AllWhitespace(s: string) { forall i :: 0 <= i < |s| ==> IsJsWhitespace(s[i]) }

  /** The number of whitespace characters at the start of `s`. */
  function LeadingWhitespace(s: string): (k: nat)
    ensures k <= |s|
    ensures AllWhitespace(s[..k])
    ensures k < |s| ==> !IsJsWhitespace(s[k])
  {
    if |s| == 0 || !IsJsWhitespace(s[0]) then 0
    else
      var k := 1 + LeadingWhitespace(s[1..]);
      assert s[..k] == [s[0]] + s[1..][..k - 1];
      k
  }

  /** The number of whitespace characters at the end of `s`. */
  function TrailingWhitespace(s: string): (k: nat)
    ensures k <= |s|
    ensures AllWhitespace(s[|s| - k..])
    ensures k < |s| ==> !IsJsWhitespace(s[|s| - k - 1])
  {
    if |s| == 0 || !IsJsWhitespace(s[|s| - 1]) then 0
    else
      var k := 1 + TrailingWhitespace(s[..|s| - 1]);
      assert s[|s| - k..] == s[..|s| - 1][|s| - k..] + [s[|s| - 1]];
      k
  }

  /** JavaScript's `s.trim()`: `s` without its leading and trailing whitespace. */
  function Trim(s: string): (r: string)
    ensures exists i, j :: (0 <= i <= j <= |s| && r == s[i..j]
                            && AllWhitespace(s[..i]) && AllWhitespace(s[j..]))
    ensures |r| > 0 ==> !IsJsWhitespace(r[0]) && !IsJsWhitespace(r[|r| - 1])
  {
    var i := LeadingWhitespace(s);
    var rest := s[i..];
    var k := TrailingWhitespace(rest);
    var r := rest[..|rest| - k];
    assert r == s[i..i + |rest| - k];
    assert s[i + |rest| - k..] == rest[|rest| - k..];
    r
  }

  /** A string is blank after trimming exactly when it consists of whitespace only. */
  lemma TrimEmptyIffWhitespace(s: string)
    ensures Trim(s) == [] <==> AllWhitespace(s)
  {
    var i := LeadingWhitespace(s);
    if AllWhitespace(s) {
      assert i == |s|;
    } else {
      assert i < |s|;
      var rest := s[i..];
      var k := TrailingWhitespace(rest);
      assert rest[0] == s[i];
    }
  }

  /** Trimming a trimmed string changes nothing. */
  lemma TrimIdempotent(s: string)
    ensures Trim(Trim(s)) == Trim(s)
  {
    var r := Trim(s);
    if |r| > 0 {
      assert LeadingWhitespace(r) == 0;
      assert TrailingWhitespace(r) == 0;
      assert r[0..][..|r| - 0] == r;
    }
  }

  // ---------------------------------------------------------------------------
  // Ordering of strings

  /** JavaScript's `a < b` on strings of code units: lexicographic, a proper prefix first. */
  predicate LexLess(a: string, b: string)
    decreases |a|
  {
    |b| > 0 && (|a| == 0 || a[0] < b[0] || (a[0] == b[0] && LexLess(a[1..], b[1..])))
  }

  /** JavaScript's `a <= b` on strings. */
  predicate LexLessEq(a: string, b: string) { a == b || LexLess(a, b) }

  /** Comparing two strings that start with equally long parts decides on the first parts unless they agree. */
  lemma {:induction false} LexLessConcat(p: string, s: string, q: string, t: string)
    requires |p| == |q|
    ensures LexLess(p + s, q + t) <==> LexLess(p, q) || (p == q && LexLess(s, t))
    decreases |p|
  {
    if |p| > 0 {
      assert (p + s)[0] == p[0] && (q + t)[0] == q[0];
      assert (p + s)[1..] == p[1..] + s && (q + t)[1..] == q[1..] + t;
      LexLessConcat(p[1..], s, q[1..], t);
      if p[0] == q[0] && p[1..] == q[1..] { assert p == q; }
    } else {
      assert p + s == s && q + t == t;
    }
  }

  /** Between digit strings of equal length, the string order is the numeric order. */
  lemma {:induction false} LexLessDigits(a: string, b: string)
    requires |a| == |b| && AllDigits(a) && AllDigits(b)
    ensures LexLess(a, b) <==> DigitsValue(a) < DigitsValue(b)
    decreases |a|
  {
    if |a| > 0 {
      var n := |a|;
      var a', b' := a[..n - 1], b[..n - 1];
      LexLessDigits(a', b');
      assert a == a' + [a[n - 1]] && b == b' + [b[n - 1]];
      LexLessConcat(a', [a[n - 1]], b', [b[n - 1]]);
      if a' == b' {
        assert DigitsValue(a') == DigitsValue(b');
      } else if LexLess(a', b') {
        assert DigitsValue(a') + 1 <= DigitsValue(b');
      } else {
        if DigitsValue(a') == DigitsValue(b') {
          DigitsValueInjective(a', b');
          assert false;
        }
      }
    }
  }

  /** A number times ten plus a digit determines both the number and the digit. */
  lemma TenPlusDigit(v: int, d: int, w: int, e: int)
    requires 0 <= d <= 9 && 0 <= e <= 9 && v * 10 + d == w * 10 + e
    ensures v == w && d == e
  {
  }

  /** Digit strings of one length with the same value are the same string. */
  lemma {:induction false} DigitsValueInjective(a: string, b: string)
    requires |a| == |b| && AllDigits(a) && AllDigits(b) && DigitsValue(a) == DigitsValue(b)
    ensures a == b
    decreases |a|
  {
    if |a| > 0 {
      var n := |a|;
      var a', b' := a[..n - 1], b[..n - 1];
      assert AllDigits(a') && AllDigits(b');
      assert DigitsValue(a) == DigitsValue(a') * 10 + DigitValue(a[n - 1]);
      assert DigitsValue(b) == DigitsValue(b') * 10 + DigitValue(b[n - 1]);
      TenPlusDigit(DigitsValue(a'), DigitValue(a[n - 1]), DigitsValue(b'), DigitValue(b[n - 1]));
      DigitsValueInjective(a', b');
      assert a[n - 1] == b[n - 1];
      assert a == a' + [a[n - 1]] && b == b' + [b[n - 1]];
    }
  }
}
