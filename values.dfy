/** Python values as they arrive in a plant configuration, and the built-in
    conversions the builders apply to them: truthiness, `int()`, `str()` of an
    integer and iteration by a `for` loop. */
module Values {

  datatype Option<+T> = None | Some(value: T)

  datatype Result<+T, +E> = Ok(value: T) | Err(error: E)

  /** A JSON-shaped Python value. */
  datatype Value =
    | Int(i: int)
    | Real(r: real)
    | Str(s: string)
    | Bool(b: bool)
    | List(items: seq<Value>)
    | Null

  /** Python truthiness, as used by `if v:`. */
  predicate Truthy(v: Value) {
    match v
    case Int(i) => i != 0
    case Real(r) => r != 0.0
    case Str(s) => s != ""
    case Bool(b) => b
    case List(xs) => xs != []
    case Null => false
  }

  /** `int(x)` of a float: truncation toward zero. */
  function Truncate(r: real): (n: int)
    ensures 0.0 <= r ==> n as real <= r < n as real + 1.0
    ensures r < 0.0 ==> n as real - 1.0 < r <= n as real
  {
    if r >= 0.0 then r.Floor else -((-r).Floor)
  }

  predicate IsDigit(c: char) {
    '0' <= c <= '9'
  }

  /** The larger and the smaller of two integers. */
  function Max(a: int, b: int): int {
    if a < b then b else a
  }

  function Min(a: int, b: int): int {
    if a < b then a else b
  }

  predicate AllDigits(s: string) {
    forall i :: 0 <= i < |s| ==> IsDigit(s[i])
  }

  function DigitChar(d: nat): (c: char)
    requires d < 10
    ensures IsDigit(c) && c as int - '0' as int == d
  {
    ('0' as int + d) as char
  }

  /** The number a string of decimal digits denotes. */
  function DigitsValue(s: string): nat
    requires AllDigits(s)
  {
    if s == [] then 0
    else DigitsValue(s[..|s| - 1]) * 10 + (s[|s| - 1] as int - '0' as int)
  }

  /** The shortest decimal rendering of a natural number. */
  function NatToDigits(n: nat): (s: string)
    ensures s != [] && AllDigits(s)
  {
    if n < 10 then [DigitChar(n)] else NatToDigits(n / 10) + [DigitChar(n % 10)]
  }

  lemma {:induction false} DigitsRoundTrip(n: nat)
    ensures DigitsValue(NatToDigits(n)) == n
  {
    var s := NatToDigits(n);
    if n >= 10 {
      DigitsRoundTrip(n / 10);
      assert s[..|s| - 1] == NatToDigits(n / 10);
    }
  }

  /** `str(n)` of an integer, as in the f-string `f"order_{n}"`. */
  function IntToString(n: int): string {
    if n < 0 then "-" + NatToDigits(-n) else NatToDigits(n)
  }

  /** The ASCII characters `int()` strips from both ends of a string:
      space, `\t`, `\n`, `\v`, `\f`, `\r` and the separators `\x1c`-`\x1f`. */
  predicate IsSpace(c: char) {
    c == ' ' || '\t' <= c <= '\r' || 0x1c <= c as int <= 0x1f
  }

  /** `s.strip()` over the characters of IsSpace. */
  function Strip(s: string): (t: string)
    ensures t == [] || (!IsSpace(t[0]) && !IsSpace(t[|t| - 1]))
  {
    if s != [] && IsSpace(s[0]) then Strip(s[1..])
    else if s != [] && IsSpace(s[|s| - 1]) then Strip(s[..|s| - 1])
    else s
  }

  /** Every character is a digit or an underscore. */
  predicate DigitsOrUnderscores(s: string) {
    forall i :: 0 <= i < |s| ==> IsDigit(s[i]) || s[i] == '_'
  }

  /** A decimal literal as `int()` reads it: digits, where a single `_` may
      stand between two digits. */
  predicate DecimalLiteral(s: string) {
    && s != [] && IsDigit(s[0])
    && DigitsOrUnderscores(s)
    && (forall i :: 0 <= i < |s| && s[i] == '_' ==> i + 1 < |s| && IsDigit(s[i + 1]))
  }

  /** The digits of a literal, underscores dropped. */
  function DropUnderscores(s: string): (d: string)
    requires DigitsOrUnderscores(s)
    ensures AllDigits(d)
  {
    if s == [] then []
    else (if s[0] == '_' then [] else [s[0]]) + DropUnderscores(s[1..])
  }

  /** The number a decimal literal denotes. */
  function LiteralValue(s: string): nat
    requires DecimalLiteral(s)
  {
    DigitsValue(DropUnderscores(s))
  }

  /** An optional sign and a decimal literal, the whole of t. */
  function SignedLiteral(t: string): Option<int> {
    if t != [] && (t[0] == '-' || t[0] == '+') then
      var body := t[1..];
      if DecimalLiteral(body) then
        var m: int := LiteralValue(body);
        Some(if t[0] == '-' then -m else m)
      else None
    else if DecimalLiteral(t) then Some(LiteralValue(t))
    else None
  }

  /** `int(s)` of a string: surrounding whitespace is stripped, then an
      optional sign and a decimal literal must make up the rest. */
  function ParseInt(s: string): Option<int> {
    SignedLiteral(Strip(s))
  }

  lemma {:induction false} DropUnderscoresOfDigits(s: string)
    requires AllDigits(s)
    ensures DropUnderscores(s) == s
  {
    if s != [] {
      DropUnderscoresOfDigits(s[1..]);
    }
  }

  /** A string of whitespace strips to nothing. */
  lemma {:induction false} StripSpaces(w: string)
    requires forall i :: 0 <= i < |w| ==> IsSpace(w[i])
    ensures Strip(w) == []
  {
    if w != [] {
      StripSpaces(w[1..]);
    }
  }

  /** Whitespace before the text is stripped. */
  lemma {:induction false} StripLeading(w: string, s: string)
    requires forall i :: 0 <= i < |w| ==> IsSpace(w[i])
    ensures Strip(w + s) == Strip(s)
  {
    if w == [] {
      assert w + s == s;
    } else {
      assert (w + s)[0] == w[0] && (w + s)[1..] == w[1..] + s;
      StripLeading(w[1..], s);
    }
  }

  /** Whitespace after the text is stripped. */
  lemma {:induction false} StripTrailing(s: string, w: string)
    requires forall i :: 0 <= i < |w| ==> IsSpace(w[i])
    ensures Strip(s + w) == Strip(s)
    decreases |s| + |w|
  {
    if s == [] {
      assert s + w == w;
      StripSpaces(w);
    } else if IsSpace(s[0]) {
      assert (s + w)[1..] == s[1..] + w;
      StripTrailing(s[1..], w);
    } else if w != [] {
      var w' := w[..|w| - 1];
      assert (s + w)[..|s + w| - 1] == s + w';
      StripTrailing(s, w');
    } else {
      assert s + w == s;
    }
  }

  /** `int()` ignores whitespace around the literal: `int(" 5\n") == 5`. */
  lemma ParseIntIgnoresSpace(pre: string, s: string, post: string)
    requires forall i :: 0 <= i < |pre| ==> IsSpace(pre[i])
    requires forall i :: 0 <= i < |post| ==> IsSpace(post[i])
    ensures ParseInt(pre + s + post) == ParseInt(s)
  {
    assert pre + s + post == pre + (s + post);
    StripLeading(pre, s + post);
    StripTrailing(s, post);
    assert Strip(pre + s + post) == Strip(s);
  }

  /** Text without whitespace at either end strips to itself. */
  lemma StripUnchanged(s: string)
    requires s != [] && !IsSpace(s[0]) && !IsSpace(s[|s| - 1])
    ensures Strip(s) == s
  {
  }

  lemma {:induction false} DropUnderscoresAppend(a: string, b: string)
    requires DigitsOrUnderscores(a) && DigitsOrUnderscores(b)
    ensures DigitsOrUnderscores(a + b)
    ensures DropUnderscores(a + b) == DropUnderscores(a) + DropUnderscores(b)
  {
    var ab := a + b;
    forall i | 0 <= i < |ab|
      ensures IsDigit(ab[i]) || ab[i] == '_'
    {
      if i < |a| {
        assert ab[i] == a[i];
      } else {
        assert ab[i] == b[i - |a|];
      }
    }
    if a == [] {
      assert ab == b;
    } else {
      var head := if a[0] == '_' then [] else [a[0]];
      assert ab[0] == a[0] && ab[1..] == a[1..] + b;
      DropUnderscoresAppend(a[1..], b);
      assert DropUnderscores(ab) == head + DropUnderscores(a[1..] + b);
      assert DropUnderscores(a) == head + DropUnderscores(a[1..]);
      assert head + (DropUnderscores(a[1..]) + DropUnderscores(b))
          == (head + DropUnderscores(a[1..])) + DropUnderscores(b);
    }
  }

  /** Digits are a literal that denotes their own value. */
  lemma DigitsLiteral(d: string)
    requires d != [] && AllDigits(d)
    ensures DecimalLiteral(d) && DropUnderscores(d) == d
  {
    DropUnderscoresOfDigits(d);
  }

  /** Two runs of digits joined by one underscore are a literal. */
  lemma GroupedIsLiteral(a: string, b: string)
    requires a != [] && b != [] && AllDigits(a) && AllDigits(b)
    ensures DecimalLiteral(a + "_" + b)
  {
    var g := a + "_" + b;
    assert forall i :: 0 <= i < |a| ==> g[i] == a[i];
    assert forall i :: |a| < i < |g| ==> g[i] == b[i - |a| - 1];
    assert g[|a|] == '_' && g[|a| + 1] == b[0];
  }

  /** ... and its digits are the two runs. */
  lemma GroupedDigits(a: string, b: string)
    requires a != [] && b != [] && AllDigits(a) && AllDigits(b)
    ensures DecimalLiteral(a + "_" + b) && DropUnderscores(a + "_" + b) == a + b
  {
    GroupedIsLiteral(a, b);
    DropGroupedDigits(a, b);
  }

  /** Dropping the underscores of a + "_" + b leaves a + b. */
  lemma DropGroupedDigits(a: string, b: string)
    requires AllDigits(a) && AllDigits(b)
    ensures DigitsOrUnderscores(a + "_" + b) && DropUnderscores(a + "_" + b) == a + b
  {
    var u := "_" + b;
    assert a + "_" + b == a + u;
    DropUnderscoresOfDigits(a);
    DropUnderscoresOfDigits(b);
    DropLeadingUnderscore(b);
    assert DigitsOrUnderscores(u) by {
      assert u[0] == '_' && u[1..] == b;
    }
    DropUnderscoresAppend(a, u);
  }

  lemma DropLeadingUnderscore(b: string)
    requires AllDigits(b)
    ensures DropUnderscores("_" + b) == DropUnderscores(b)
  {
    var u := "_" + b;
    assert u[0] == '_' && u[1..] == b;
  }

  /** An unsigned literal without surrounding whitespace parses to its
      value. */
  lemma ParseIntLiteral(s: string)
    requires DecimalLiteral(s) && IsDigit(s[|s| - 1])
    ensures ParseInt(s) == Some(LiteralValue(s))
  {
    StripUnchanged(s);
  }

  /** A single underscore between two runs of digits groups them and does
      not change the value: `int("1_000") == int("1000")`. */
  lemma ParseIntGrouping(a: string, b: string)
    requires a != [] && b != [] && AllDigits(a) && AllDigits(b)
    ensures ParseInt(a + "_" + b) == ParseInt(a + b)
  {
    var g, d := a + "_" + b, a + b;
    GroupedDigits(a, b);
    assert AllDigits(d) by {
      forall i | 0 <= i < |d| ensures IsDigit(d[i]) {
        if i < |a| { assert d[i] == a[i]; } else { assert d[i] == b[i - |a|]; }
      }
    }
    DigitsLiteral(d);
    assert g[|g| - 1] == b[|b| - 1];
    ParseIntLiteral(g);
    ParseIntLiteral(d);
  }

  /** A leading, trailing or doubled underscore makes `int()` raise. */
  lemma ParseIntBadUnderscores()
    ensures ParseInt("_1") == None && ParseInt("1_") == None && ParseInt("1__0") == None
  {
    var s1, s2, s3 := "_1", "1_", "1__0";
    assert s1[0] == '_' && s1[1] == '1';
    StripUnchanged(s1);
    assert s2[0] == '1' && s2[1] == '_';
    StripUnchanged(s2);
    assert !DecimalLiteral(s2) by { assert |s2| == 2 && s2[1] == '_'; }
    assert s3[0] == '1' && s3[1] == '_' && s3[2] == '_' && s3[3] == '0';
    StripUnchanged(s3);
    assert !DecimalLiteral(s3) by { assert s3[1] == '_' && !IsDigit(s3[2]); }
  }

  /** The digits of a natural number read back as that number. */
  lemma ParseDigits(n: nat)
    ensures SignedLiteral(Strip(NatToDigits(n))) == Some(n)
  {
    var d := NatToDigits(n);
    DigitsLiteral(d);
    DigitsRoundTrip(n);
    assert IsDigit(d[0]) && IsDigit(d[|d| - 1]);
    StripUnchanged(d);
    assert LiteralValue(d) == n;
  }

  /** A minus sign before the digits of -n reads back as n. */
  lemma ParseNegatedDigits(n: int)
    requires n < 0
    ensures SignedLiteral(Strip("-" + NatToDigits(-n))) == Some(n)
  {
    var d := NatToDigits(-n);
    var s := "-" + d;
    DigitsLiteral(d);
    DigitsRoundTrip(-n);
    assert IsDigit(d[|d| - 1]);
    assert s[|s| - 1] == d[|d| - 1];
    StripUnchanged(s);
    assert s[0] == '-' && s[1..] == d;
    assert LiteralValue(d) == -n;
  }

  /** Parsing what `str` renders gives the integer back. */
  lemma ParseIntRoundTrip(n: int)
    ensures ParseInt(IntToString(n)) == Some(n)
  {
    if n < 0 {
      ParseNegatedDigits(n);
    } else {
      ParseDigits(n);
    }
  }

  /** Distinct integers render as distinct strings. */
  lemma IntToStringInjective(a: int, b: int)
    requires a != b
    ensures IntToString(a) != IntToString(b)
  {
    ParseIntRoundTrip(a);
    ParseIntRoundTrip(b);
  }

  /** Python `int(v)`; None where `int` raises (ValueError or TypeError). */
  function ToInt(v: Value): Option<int> {
    match v
    case Int(i) => Some(i)
    case Real(r) => Some(Truncate(r))
    case Str(s) => ParseInt(s)
    case Bool(b) => Some(if b then 1 else 0)
    case List(_) => None
    case Null => None
  }

  /** The elements a `for` loop visits in `v`: a list's items, a string's
      one-character strings; None where Python raises "not iterable". */
  function Iterate(v: Value): (r: Option<seq<Value>>)
    ensures v.List? ==> r == Some(v.items)
    ensures v.Str? ==> r.Some? && |r.value| == |v.s|
                       && forall i :: 0 <= i < |v.s| ==> r.value[i] == Str([v.s[i]])
    ensures !v.List? && !v.Str? ==> r == None
  {
    match v
    case List(xs) => Some(xs)
    case Str(s) => Some(seq(|s|, i requires 0 <= i < |s| => Str([s[i]])))
    case _ => None
  }
}
