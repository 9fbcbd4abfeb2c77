/**
 * JavaScript string and number conversions that the pages rely on:
 * `String.prototype.trim`, `parseInt` on the text of a number field, and
 * the decimal text of an integer.
 */
module JsText {
  import opened Common
  import opened Decimal

  // ---------------------------------------------------------------- trim

  /** ECMAScript white space and line terminators, which `String.prototype.trim` strips. */
  predicate IsJsSpace(c: char)
  {
    c == '\t' || c == '\n' || c == '\U{000B}' || c == '\U{000C}' || c == '\r' || c == ' ' ||
    c == '\U{00A0}' || c == '\U{1680}' || ('\U{2000}' <= c <= '\U{200A}') ||
    c == '\U{2028}' || c == '\U{2029}' || c == '\U{202F}' || c == '\U{205F}' || c == '\U{3000}' ||
    c == '\U{FEFF}'
  }

  predicate AllSpace(s: string) { forall i :: 0 <= i < |s| ==> IsJsSpace(s[i]) }

  function TrimStart(s: string): (r: string)
    ensures |r| <= |s| && r == s[|s| - |r|..]
    ensures r != [] ==> !IsJsSpace(r[0])
    ensures forall k :: 0 <= k < |s| - |r| ==> IsJsSpace(s[k])
  {
    if s != [] && IsJsSpace(s[0]) then
      TrimStart(s[1..])
    else
      s
  }

  function TrimEnd(s: string): (r: string)
    ensures |r| <= |s| && r == s[..|r|]
    ensures r != [] ==> !IsJsSpace(r[|r| - 1])
    ensures forall k :: |r| <= k < |s| ==> IsJsSpace(s[k])
  {
    if s != [] && IsJsSpace(s[|s| - 1]) then
      TrimEnd(s[..|s| - 1])
    else
      s
  }

  /** `s.trim()`: neither end of the result is white space. */
  function Trim(s: string): (r: string)
    ensures |r| <= |s|
    ensures r != [] ==> !IsJsSpace(r[0]) && !IsJsSpace(r[|r| - 1])
  {
    TrimEnd(TrimStart(s))
  }

  lemma TrimStartCutsSpaceOnly(s: string)
    ensures AllSpace(s[..|s| - |TrimStart(s)|])
  {
    var i := |s| - |TrimStart(s)|;
    forall k | 0 <= k < i ensures IsJsSpace(s[..i][k]) {
      assert s[..i][k] == s[k];
    }
  }

  lemma TrimEndCutsSpaceOnly(t: string)
    ensures AllSpace(t[|TrimEnd(t)|..])
  {
    var n := |TrimEnd(t)|;
    forall k | 0 <= k < |t| - n ensures IsJsSpace(t[n..][k]) {
      assert t[n..][k] == t[n + k];
    }
  }

  /** What `trim` removes is white space on either side of the result. */
  lemma TrimCutsSpaceOnly(s: string) returns (i: nat, j: nat)
    ensures i <= j <= |s| && Trim(s) == s[i..j]
    ensures AllSpace(s[..i]) && AllSpace(s[j..])
  {
    var t := TrimStart(s);
    var r := TrimEnd(t);
    i := |s| - |t|;
    j := i + |r|;
    TrimStartCutsSpaceOnly(s);
    TrimEndCutsSpaceOnly(t);
    assert t == s[i..];
    assert s[j..] == t[|r|..];
  }

  lemma {:induction false} TrimStartSkipsSpace(w: string, x: string)
    requires AllSpace(w)
    ensures TrimStart(w + x) == TrimStart(x)
    decreases |w|
  {
    if w != [] {
      var s := w + x;
      assert s[0] == w[0] && IsJsSpace(s[0]);
      assert s[1..] == w[1..] + x;
      calc {
        TrimStart(s);
        TrimStart(s[1..]);
        { TrimStartSkipsSpace(w[1..], x); }
        TrimStart(x);
      }
    } else {
      assert w + x == x;
    }
  }

  lemma {:induction false} TrimEndSkipsSpace(x: string, w: string)
    requires AllSpace(w)
    ensures TrimEnd(x + w) == TrimEnd(x)
    decreases |w|
  {
    if w != [] {
      var s := x + w;
      assert s[|s| - 1] == w[|w| - 1] && IsJsSpace(s[|s| - 1]);
      assert s[..|s| - 1] == x + w[..|w| - 1];
      calc {
        TrimEnd(s);
        TrimEnd(s[..|s| - 1]);
        { TrimEndSkipsSpace(x, w[..|w| - 1]); }
        TrimEnd(x);
      }
    } else {
      assert x + w == x;
    }
  }

  /** Trailing space survives `TrimStart` and is then removed by `TrimEnd`. */
  lemma {:induction false} TrimStartAppend(s: string, w: string)
    requires AllSpace(w)
    ensures TrimEnd(TrimStart(s + w)) == TrimEnd(TrimStart(s))
    decreases |s|
  {
    if s == [] {
      assert s + w == w;
      TrimStartSkipsSpace(w, []);
      assert w + [] == w;
    } else if IsJsSpace(s[0]) {
      assert (s + w)[1..] == s[1..] + w;
      TrimStartAppend(s[1..], w);
    } else {
      TrimEndSkipsSpace(s, w);
    }
  }

  /** White space around the input does not change what is trimmed. */
  lemma TrimIgnoresSurroundingSpace(w1: string, s: string, w2: string)
    requires AllSpace(w1) && AllSpace(w2)
    ensures Trim(w1 + s + w2) == Trim(s)
  {
    var u := s + w2;
    assert w1 + s + w2 == w1 + u;
    TrimStartSkipsSpace(w1, u);
    assert TrimStart(w1 + s + w2) == TrimStart(u);
    assert Trim(w1 + s + w2) == TrimEnd(TrimStart(u));
    TrimStartAppend(s, w2);
    assert TrimEnd(TrimStart(u)) == TrimEnd(TrimStart(s));
  }

  // ---------------------------------------------------------------- parseInt

  /** The longest run of decimal digits at the start of `s`. */
  function DigitPrefix(s: string): (p: string)
    ensures |p| <= |s| && p == s[..|p|] && AllDigits(p)
    ensures |p| < |s| ==> !IsDigit(s[|p|])
  {
    if s != [] && IsDigit(s[0]) then [s[0]] + DigitPrefix(s[1..]) else []
  }

  /** The number the leading decimal digits of `u` denote; `None` when there are none. */
  function Magnitude(u: string): (r: Option<int>)
    ensures r.Some? ==> r.value >= 0
  {
    var d := DigitPrefix(u);
    if d == [] then None else Some(Value(d))
  }

  function Negate(m: Option<int>): Option<int>
  {
    match m
    case None => None
    case Some(v) => Some(-v)
  }

  /**
   * `parseInt(s)` for the text of a number field: an optional sign, then
   * the longest run of decimal digits, the rest ignored. `None` is `NaN`,
   * the result when no digit follows.
   */
  function ParseInt(s: string): Option<int>
  {
    if s != [] && s[0] == '-' then Negate(Magnitude(s[1..]))
    else if s != [] && s[0] == '+' then Magnitude(s[1..])
    else Magnitude(s)
  }

  /** `parseInt(s) || 0`: `NaN` (and zero) become zero. */
  function ParseIntOrZero(s: string): int
  {
    OrZero(ParseInt(s))
  }

  /** `String(n)` for an integer: a minus sign before the decimal digits of a negative one. */
  function NumberText(n: int): (s: string)
    ensures s != [] && (n >= 0 <==> IsDigit(s[0]))
  {
    if n < 0 then "-" + ToDecimal(-n) else ToDecimal(n)
  }

  /** The digits before a non-digit are the longest digit prefix. */
  lemma DigitPrefixAppend(d: string, rest: string)
    requires AllDigits(d) && (rest == [] || !IsDigit(rest[0]))
    ensures DigitPrefix(d + rest) == d
  {
    assert (d + rest)[..|d|] == d;
  }

  /** Text that starts with a digit is read without a sign. */
  lemma ParseIntFromDigit(s: string)
    requires s != [] && IsDigit(s[0])
    ensures ParseInt(s) == Magnitude(s)
  {
  }

  /** Text that starts with a minus sign is read as the negated magnitude after it. */
  lemma ParseIntFromMinus(s: string)
    requires s != [] && s[0] == '-'
    ensures ParseInt(s) == Negate(Magnitude(s[1..]))
  {
  }

  /** Decimal digits with a non-digit, or nothing, after them. */
  lemma MagnitudeOfDecimal(d: string, rest: string)
    requires d != [] && AllDigits(d) && (rest == [] || !IsDigit(rest[0]))
    ensures Magnitude(d + rest) == Some(Value(d))
  {
    DigitPrefixAppend(d, rest);
  }

  /** `parseInt` stops at the first character that is not a digit. */
  lemma ParseIntStopsAtNonDigit(n: nat, rest: string)
    requires rest == [] || !IsDigit(rest[0])
    ensures ParseInt(ToDecimal(n) + rest) == Some(n)
  {
    var d := ToDecimal(n);
    var s := d + rest;
    ValueOfToDecimal(n);
    MagnitudeOfDecimal(d, rest);
    assert s[0] == d[0];
    ParseIntFromDigit(s);
  }

  /** A minus sign before digits negates their value. */
  lemma ParseIntOfNegativeDigits(d: string)
    requires d != [] && AllDigits(d)
    ensures ParseInt("-" + d) == Some(-(Value(d) as int))
  {
    var s := "-" + d;
    assert d + [] == d;
    MagnitudeOfDecimal(d, []);
    assert s[1..] == d;
    ParseIntFromMinus(s);
  }

  /** The digits of a natural number are read back as that number. */
  lemma ParseIntOfDecimal(m: nat)
    ensures ParseInt(ToDecimal(m)) == Some(m)
  {
    var d := ToDecimal(m);
    ParseIntStopsAtNonDigit(m, []);
    assert d + [] == d;
  }

  /** The text of a negative integer is read back as that integer. */
  lemma ParseIntOfNegative(m: nat)
    requires m > 0
    ensures ParseInt("-" + ToDecimal(m)) == Some(-(m as int))
  {
    ParseIntOfNegativeDigits(ToDecimal(m));
    ValueOfToDecimal(m);
  }

  /**
   * Reading back an integer's text gives the integer: a number field filled
   * with `String(n)` and read with `parseInt(…) || 0` yields `n`. An empty
   * field reads as zero.
   */
  lemma ParseIntOfNumberText(n: int)
    ensures ParseInt(NumberText(n)) == Some(n)
    ensures ParseIntOrZero(NumberText(n)) == n
    ensures ParseIntOrZero("") == 0
  {
    if n < 0 {
      ParseIntOfNegative(-n);
    } else {
      ParseIntOfDecimal(n);
    }
  }
}
