/** Python's `int(text)` and `str(n)` for base-10 integers. */
module PyInt {
  import opened Wrappers
  import opened PyText

  function DigitValue(c: char): nat
    requires IsDigit(c)
  {
    c as int - '0' as int
  }

  function DigitChar(d: nat): (c: char)
    requires d < 10
    ensures IsDigit(c) && DigitValue(c) == d
  {
    ('0' as int + d) as char
  }

  predicate AllDigits(ds: string) { forall i :: 0 <= i < |ds| ==> IsDigit(ds[i]) }

  /** The value of a string of decimal digits, most significant first. */
  function DecimalValue(ds: string): nat
    requires AllDigits(ds)
  {
    if ds == [] then 0 else DecimalValue(ds[..|ds| - 1]) * 10 + DigitValue(ds[|ds| - 1])
  }

  /** `str(n)` for `n >= 0`: no sign, no leading zeros. */
  function NatToString(n: nat): (r: string)
    ensures IsDigits(r)
  {
    if n < 10 then [DigitChar(n)] else NatToString(n / 10) + [DigitChar(n % 10)]
  }

  /** `str(n)`. */
  function IntToString(n: int): (r: string)
  {
    if n < 0 then "-" + NatToString(-n) else NatToString(n)
  }

  /** The digits part that `int()` accepts in base 10: digits, where single
      underscores may stand between two digits ("1_000", but not "_1", "1_" or "1__0"). */
  predicate DigitGroups(b: string)
  {
    && |b| > 0 && IsDigit(b[0]) && IsDigit(b[|b| - 1])
    && (forall i :: 0 <= i < |b| ==> IsDigit(b[i]) || b[i] == '_')
    && NoDoubleUnderscore(b)
  }

  predicate NoDoubleUnderscore(b: string)
  {
    |b| < 2 || (!(b[0] == '_' && b[1] == '_') && NoDoubleUnderscore(b[1..]))
  }

  lemma {:induction false} NoDoubleUnderscoreOfDigits(ds: string)
    requires AllDigits(ds)
    ensures NoDoubleUnderscore(ds)
    decreases |ds|
  {
    if |ds| >= 2 {
      NoDoubleUnderscoreOfDigits(ds[1..]);
    }
  }

  /** The digits of `b` with the underscores left out. */
  function DropUnderscores(b: string): (r: string)
    requires forall i :: 0 <= i < |b| ==> IsDigit(b[i]) || b[i] == '_'
    ensures AllDigits(r)
  {
    if b == [] then []
    else (if b[0] == '_' then [] else [b[0]]) + DropUnderscores(b[1..])
  }

  /** The whitespace `int()` skips around a number: every `str.isspace`
      character except the four separators U+001C to U+001F. CPython turns
      each non-ASCII whitespace character into a space and leaves every ASCII
      character as it is, and then skips only the C `isspace` set (tab, the
      line breaks, vertical tab, form feed and space). */
  predicate IsIntSpace(c: char) { IsSpace(c) && !('\U{1C}' <= c <= '\U{1F}') }

  /** The text with `int()`'s leading whitespace dropped. */
  function IntTrimLeft(s: string): (r: string)
    ensures |r| <= |s| && r == s[|s| - |r|..]
    ensures r == [] || !IsIntSpace(r[0])
    decreases |s|
  {
    if s != [] && IsIntSpace(s[0]) then IntTrimLeft(s[1..]) else s
  }

  /** The text with `int()`'s trailing whitespace dropped. */
  function IntTrimRight(s: string): (r: string)
    ensures |r| <= |s| && r == s[..|r|]
    ensures r == [] || !IsIntSpace(r[|r| - 1])
    decreases |s|
  {
    if s != [] && IsIntSpace(s[|s| - 1]) then IntTrimRight(s[..|s| - 1]) else s
  }

  /** What `int()` reads after skipping whitespace at both ends. */
  function IntText(s: string): string
  {
    IntTrimRight(IntTrimLeft(s))
  }

  /** `int(s)`: surrounding whitespace is ignored, then an optional sign and
      the digit groups; anything else raises `ValueError` (`None` here). */
  function ParseInt(s: string): Option<int>
  {
    ParseStripped(IntText(s))
  }

  /** Text that neither begins nor ends with `int()`'s whitespace is read as it is. */
  lemma IntTextOfBare(t: string)
    requires t == [] || (!IsIntSpace(t[0]) && !IsIntSpace(t[|t| - 1]))
    ensures IntText(t) == t
  {
  }

  /** Leading whitespace is skipped. */
  lemma {:induction false} IntTrimLeftPadded(p: string, t: string)
    requires forall i :: 0 <= i < |p| ==> IsIntSpace(p[i])
    ensures IntTrimLeft(p + t) == IntTrimLeft(t)
    decreases |p|
  {
    if p != [] {
      assert (p + t)[0] == p[0] && (p + t)[1..] == p[1..] + t;
      IntTrimLeftPadded(p[1..], t);
    } else {
      assert p + t == t;
    }
  }

  /** Trailing whitespace is skipped. */
  lemma {:induction false} IntTrimRightPadded(t: string, q: string)
    requires forall i :: 0 <= i < |q| ==> IsIntSpace(q[i])
    ensures IntTrimRight(t + q) == IntTrimRight(t)
    decreases |q|
  {
    if q != [] {
      assert (t + q)[|t + q| - 1] == q[|q| - 1] && (t + q)[..|t + q| - 1] == t + q[..|q| - 1];
      IntTrimRightPadded(t, q[..|q| - 1]);
    } else {
      assert t + q == t;
    }
  }

  /** `int()` on text with the whitespace already stripped. */
  function ParseStripped(t: string): Option<int>
  {
    var signed := |t| > 0 && (t[0] == '-' || t[0] == '+');
    var body := if signed then t[1..] else t;
    if !DigitGroups(body) then None
    else
      var v: int := DecimalValue(DropUnderscores(body));
      Some(if signed && t[0] == '-' then -v else v)
  }

  lemma {:induction false} DropUnderscoresOfDigits(b: string)
    requires AllDigits(b)
    ensures DropUnderscores(b) == b
    decreases |b|
  {
    if b != [] {
      DropUnderscoresOfDigits(b[1..]);
    }
  }

  lemma {:induction false} DecimalValueOfNatToString(n: nat)
    ensures DecimalValue(NatToString(n)) == n
    decreases n
  {
    if n >= 10 {
      var r := NatToString(n);
      assert r[..|r| - 1] == NatToString(n / 10);
      DecimalValueOfNatToString(n / 10);
    }
  }

  /** Digits alone are their own digit groups. */
  lemma DigitGroupsOfDigits(ds: string)
    requires IsDigits(ds)
    ensures DigitGroups(ds) && DropUnderscores(ds) == ds
  {
    NoDoubleUnderscoreOfDigits(ds);
    DropUnderscoresOfDigits(ds);
  }

  /** A number written with digits only parses to its value. */
  lemma ParseIntOfDigits(ds: string)
    requires IsDigits(ds)
    ensures ParseInt(ds) == Some(DecimalValue(ds) as int)
  {
    DigitNotSpace(ds[0]);
    DigitNotSpace(ds[|ds| - 1]);
    IntTextOfBare(ds);
    ParseStrippedDigits(ds);
  }

  /** Digits with `int()`'s whitespace on either side parse to their value. */
  lemma ParseIntOfPadded(p: string, ds: string, q: string)
    requires IsDigits(ds)
    requires forall i :: 0 <= i < |p| ==> IsIntSpace(p[i])
    requires forall i :: 0 <= i < |q| ==> IsIntSpace(q[i])
    ensures ParseInt(p + ds + q) == Some(DecimalValue(ds) as int)
  {
    DigitNotSpace(ds[0]);
    DigitNotSpace(ds[|ds| - 1]);
    assert p + ds + q == p + (ds + q);
    IntTrimLeftPadded(p, ds + q);
    assert (ds + q)[0] == ds[0];
    IntTrimRightPadded(ds, q);
    IntTextOfBare(ds);
    ParseStrippedDigits(ds);
  }

  /** A separator character (U+001C to U+001F) in front of a number is not
      whitespace to `int()`: the text raises `ValueError`. */
  lemma ParseIntRejectsSeparator(c: char, t: string)
    requires '\U{1C}' <= c <= '\U{1F}'
    ensures ParseInt([c] + t) == None
  {
    var s := [c] + t;
    assert IntTrimLeft(s) == s;
    var r := IntText(s);
    assert r != [] by {
      IntTrimRightKeepsFirst(s);
    }
    assert r[0] == c;
  }

  lemma {:induction false} IntTrimRightKeepsFirst(s: string)
    requires s != [] && !IsIntSpace(s[0])
    ensures IntTrimRight(s) != []
    decreases |s|
  {
    if |s| > 1 && IsIntSpace(s[|s| - 1]) {
      IntTrimRightKeepsFirst(s[..|s| - 1]);
    }
  }

  lemma ParseStrippedDigits(ds: string)
    requires IsDigits(ds)
    ensures ParseStripped(ds) == Some(DecimalValue(ds) as int)
  {
    DigitGroupsOfDigits(ds);
  }

  /** A minus sign followed by digits parses to the negated value. */
  lemma ParseIntOfNegative(ds: string)
    requires IsDigits(ds)
    ensures ParseInt("-" + ds) == Some(-(DecimalValue(ds) as int))
  {
    NegativeStripped(ds);
    ParseStrippedNegative(ds);
  }

  lemma NegativeStripped(ds: string)
    requires IsDigits(ds)
    ensures IntText("-" + ds) == "-" + ds
  {
    var t := "-" + ds;
    assert t[0] == '-' && t[|t| - 1] == ds[|ds| - 1];
    DigitNotSpace(ds[|ds| - 1]);
    IntTextOfBare(t);
  }

  lemma ParseStrippedNegative(ds: string)
    requires IsDigits(ds)
    ensures ParseStripped("-" + ds) == Some(-(DecimalValue(ds) as int))
  {
    DigitGroupsOfDigits(ds);
    assert ("-" + ds)[1..] == ds;
  }

  /** What `str` writes, `int` reads back unchanged. */
  lemma ParseIntOfIntToString(n: int)
    ensures ParseInt(IntToString(n)) == Some(n)
  {
    var m: nat := if n < 0 then -n else n;
    DecimalValueOfNatToString(m);
    if n < 0 {
      ParseIntOfNegative(NatToString(m));
    } else {
      ParseIntOfDigits(NatToString(m));
    }
  }

  /** Text without a single digit is never a number. */
  lemma ParseIntNeedsADigit(s: string)
    requires forall i :: 0 <= i < |s| ==> !IsDigit(s[i])
    ensures ParseInt(s) == None
  {
    var l := IntTrimLeft(s);
    var t := IntText(s);
    var a := |s| - |l|;
    assert t == l[..|t|] && l == s[a..];
    var body := if |t| > 0 && (t[0] == '-' || t[0] == '+') then t[1..] else t;
    if body != [] {
      var j := if body == t then 0 else 1;
      assert body[0] == t[j] == s[a + j];
    }
  }
}
