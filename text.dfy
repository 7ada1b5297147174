/** The pieces of Python's `str` and `int` behaviour the application relies
    on: truthiness, `strip`, `startswith`, `int(...)` on a string, `str(n)`
    and `", ".join(...)`. */
module Text {
  import opened Wrappers

  /** `c.isspace()`: the tab-to-carriage-return controls, the four
      separator controls and space, NEXT LINE, NO-BREAK SPACE, OGHAM SPACE
      MARK, the general-punctuation spaces, the line and paragraph
      separators, NARROW NO-BREAK SPACE, MEDIUM MATHEMATICAL SPACE and
      IDEOGRAPHIC SPACE. */
  predicate IsSpace(c: char) {
    || '\t' <= c <= '\r'
    || '\U{1C}' <= c <= ' '
    || c == '\U{85}' || c == '\U{A0}' || c == '\U{1680}'
    || '\U{2000}' <= c <= '\U{200A}'
    || c == '\U{2028}' || c == '\U{2029}' || c == '\U{202F}' || c == '\U{205F}' || c == '\U{3000}'
  }

  /** The characters `\s` in a `str` pattern and the argument-less
      `strip()` treat as whitespace. */
  const Whitespace: set<char> := set c: char | IsSpace(c)

  /** Python truthiness of an optional string: neither `None` nor `""`. */
  predicate Truthy(s: Option<string>) {
    s.Some? && s.value != ""
  }

  /** Python's `a or b` on optional strings. */
  function Or(a: Option<string>, b: Option<string>): (r: Option<string>)
    ensures Truthy(a) ==> r == a
    ensures !Truthy(a) ==> r == b
  {
    if Truthy(a) then a else b
  }

  predicate IsAscii(s: string) {
    forall i :: 0 <= i < |s| ==> s[i] as int < 128
  }

  predicate StartsWith(s: string, prefix: string) {
    |prefix| <= |s| && s[..|prefix|] == prefix
  }

  /** `s.lstrip(cs)`: drops the longest prefix made of characters in `cs`. */
  function TrimStart(s: string, cs: set<char>): string
  {
    if s != [] && s[0] in cs then TrimStart(s[1..], cs) else s
  }

  /** What `TrimStart` keeps is a suffix, what it drops is all in `cs`, and
      what it keeps does not start with a character of `cs`. */
  lemma {:induction false} TrimStartFacts(s: string, cs: set<char>)
    ensures var r := TrimStart(s, cs);
            && |r| <= |s| && r == s[|s| - |r|..]
            && (forall i :: 0 <= i < |s| - |r| ==> s[i] in cs)
            && (r != [] ==> r[0] !in cs)
            && (s != [] && s[0] in cs ==> |r| < |s|)
  {
    if s != [] && s[0] in cs {
      TrimStartFacts(s[1..], cs);
    }
  }

  /** `s.rstrip(cs)`: drops the longest suffix made of characters in `cs`. */
  function TrimEnd(s: string, cs: set<char>): string
  {
    if s != [] && s[|s| - 1] in cs then TrimEnd(s[..|s| - 1], cs) else s
  }

  /** What `TrimEnd` keeps is a prefix, what it drops is all in `cs`, and
      what it keeps does not end with a character of `cs`. */
  lemma {:induction false} TrimEndFacts(s: string, cs: set<char>)
    ensures var r := TrimEnd(s, cs);
            && |r| <= |s| && r == s[..|r|]
            && (forall i :: |r| <= i < |s| ==> s[i] in cs)
            && (r != [] ==> r[|r| - 1] !in cs)
  {
    if s != [] && s[|s| - 1] in cs {
      TrimEndFacts(s[..|s| - 1], cs);
      assert s[..|s| - 1][..|TrimEnd(s, cs)|] == s[..|TrimEnd(s, cs)|];
    }
  }

  /** `s.strip(cs)`; `s.strip()` is `Trim(s, Whitespace)`. */
  function Trim(s: string, cs: set<char>): (r: string)
    ensures r != [] ==> r[0] !in cs && r[|r| - 1] !in cs
    ensures |r| <= |s|
  {
    TrimStartFacts(s, cs);
    TrimEndFacts(TrimStart(s, cs), cs);
    var r := TrimEnd(TrimStart(s, cs), cs);
    assert r != [] ==> r[0] == TrimStart(s, cs)[0];
    r
  }

  /** Where `Trim(s, cs)` sits inside `s`. */
  lemma TrimSlice(s: string, cs: set<char>) returns (k: nat)
    ensures k + |Trim(s, cs)| <= |s| && Trim(s, cs) == s[k..k + |Trim(s, cs)|]
    ensures forall i :: 0 <= i < k ==> s[i] in cs
    ensures forall i :: k + |Trim(s, cs)| <= i < |s| ==> s[i] in cs
  {
    var t := TrimStart(s, cs);
    TrimStartFacts(s, cs);
    TrimEndFacts(t, cs);
    k := |s| - |t|;
    var r := TrimEnd(t, cs);
    assert r == t[..|r|];
    assert t == s[k..];
    forall i | k + |r| <= i < |s| ensures s[i] in cs {
      assert s[i] == t[i - k];
    }
  }

  /** A string whose two ends are outside `cs` is left alone by `Trim`. */
  lemma TrimKeeps(s: string, cs: set<char>)
    requires s != [] ==> s[0] !in cs && s[|s| - 1] !in cs
    ensures Trim(s, cs) == s
  {
  }

  /** `s.strip()` is empty: Python's `not s.strip()`. */
  predicate IsBlank(s: string) {
    Trim(s, Whitespace) == []
  }

  predicate IsDigit(c: char) {
    '0' <= c <= '9'
  }

  predicate AllDigits(s: string) {
    forall i :: 0 <= i < |s| ==> IsDigit(s[i])
  }

  function DigitValue(c: char): nat
    requires IsDigit(c)
  {
    c as int - '0' as int
  }

  function DigitChar(n: nat): (c: char)
    requires n < 10
    ensures IsDigit(c) && DigitValue(c) == n
  {
    (n + '0' as int) as char
  }

  /** The number a string of decimal digits denotes (leading zeros allowed). */
  function DigitsValue(ds: string): nat
    requires AllDigits(ds)
  {
    if ds == [] then 0 else DigitsValue(ds[..|ds| - 1]) * 10 + DigitValue(ds[|ds| - 1])
  }

  /** `str(n)` for a natural number: its shortest decimal digits. */
  function NatToString(n: nat): (r: string)
    ensures r != [] && AllDigits(r)
    ensures DigitsValue(r) == n
  {
    if n < 10 then [DigitChar(n)]
    else
      var r := NatToString(n / 10) + [DigitChar(n % 10)];
      assert r[..|r| - 1] == NatToString(n / 10);
      r
  }

  /** `str(n)` for an integer. */
  function IntToString(n: int): (r: string)
    ensures r != []
  {
    if n < 0 then "-" + NatToString(-n) else NatToString(n)
  }

  /** The digits and single underscores between digits that `int()` accepts
      after the optional sign: `"1_999"` is accepted, `"_1"`, `"1_"` and
      `"1__9"` are not. */
  predicate DigitGroups(s: string) {
    && s != []
    && IsDigit(s[0])
    && IsDigit(s[|s| - 1])
    && (forall i :: 0 <= i < |s| ==> IsDigit(s[i]) || s[i] == '_')
    && (forall i :: 0 <= i < |s| - 1 ==> !(s[i] == '_' && s[i + 1] == '_'))
  }

  function WithoutUnderscores(s: string): (r: string)
    requires forall i :: 0 <= i < |s| ==> IsDigit(s[i]) || s[i] == '_'
    ensures AllDigits(r)
    ensures AllDigits(s) ==> r == s
  {
    if s == [] then [] else (if s[0] == '_' then [] else [s[0]]) + WithoutUnderscores(s[1..])
  }

  /** The most digits `int()` converts from text: CPython's default
      `sys.get_int_max_str_digits()`. Underscores do not count, leading
      zeros do. */
  const MaxStrDigits := 4300

  /** `int(s)` on a string, `None` where Python raises `ValueError`:
      surrounding whitespace is ignored, one `+` or `-` may lead, the rest
      must be digit groups, and there may be at most `MaxStrDigits` digits. */
  function ParseInt(s: string): (r: Option<int>)
  {
    var t := Trim(s, Whitespace);
    var signed := t != [] && (t[0] == '+' || t[0] == '-');
    var body := if signed then t[1..] else t;
    if !DigitGroups(body) then None
    else
      var ds := WithoutUnderscores(body);
      if |ds| > MaxStrDigits then None
      else
        var n: int := DigitsValue(ds);
        Some(if signed && t[0] == '-' then -n else n)
  }

  /** A digit is never whitespace. */
  lemma DigitNotSpace(c: char)
    requires IsDigit(c)
    ensures c !in Whitespace
  {
  }

  /** `int(ds)` of a non-empty run of digits is the number they denote,
      unless there are more digits than the conversion limit allows. */
  lemma ParseDigits(ds: string)
    requires ds != [] && AllDigits(ds)
    ensures ParseInt(ds) == if |ds| <= MaxStrDigits then Some(DigitsValue(ds)) else None
  {
    DigitNotSpace(ds[0]);
    DigitNotSpace(ds[|ds| - 1]);
    TrimKeeps(ds, Whitespace);
    assert Trim(ds, Whitespace) == ds;
    assert !(ds[0] == '+' || ds[0] == '-') by {
      assert IsDigit(ds[0]);
    }
    assert DigitGroups(ds);
    assert WithoutUnderscores(ds) == ds;
  }

  /** `int(s)` raises when `s` holds a character that is not a digit,
      whitespace, a sign or an underscore. */
  lemma ParseIntRejects(s: string, j: nat)
    requires j < |s|
    requires !IsDigit(s[j]) && s[j] !in Whitespace && s[j] != '+' && s[j] != '-' && s[j] != '_'
    ensures ParseInt(s) == None
  {
    var t := Trim(s, Whitespace);
    var k := TrimSlice(s, Whitespace);
    assert k <= j < k + |t|;
    var i := j - k;
    assert t[i] == s[j];
    var signed := t != [] && (t[0] == '+' || t[0] == '-');
    var body := if signed then t[1..] else t;
    if signed {
      assert i >= 1;
      assert body[i - 1] == s[j];
    } else {
      assert body[i] == s[j];
    }
    assert !DigitGroups(body);
  }

  /** `sep.join(xs)`. */
  function Join(sep: string, xs: seq<string>): (r: string)
    ensures xs == [] ==> r == ""
    ensures |xs| == 1 ==> r == xs[0]
  {
    if xs == [] then "" else if |xs| == 1 then xs[0] else xs[0] + sep + Join(sep, xs[1..])
  }

  /** `a < b` on `str`: the first differing character decides, and a
      proper prefix comes first. SQLite's default `BINARY` collation
      orders ASCII text the same way. */
  predicate LexLess(a: string, b: string) {
    if a == [] then b != []
    else if b == [] then false
    else a[0] < b[0] || (a[0] == b[0] && LexLess(a[1..], b[1..]))
  }

  lemma {:induction false} LexIrreflexive(a: string)
    ensures !LexLess(a, a)
  {
    if a != [] {
      LexIrreflexive(a[1..]);
    }
  }

  /** Comparing two texts made of parts of equal length compares the first
      parts, and the second parts only when the first are equal. */
  lemma {:induction false} LexAppend(a1: string, a2: string, b1: string, b2: string)
    requires |a1| == |b1|
    ensures LexLess(a1 + a2, b1 + b2) <==> LexLess(a1, b1) || (a1 == b1 && LexLess(a2, b2))
  {
    if a1 == [] {
      assert a1 + a2 == a2 && b1 + b2 == b2;
    } else {
      assert (a1 + a2)[0] == a1[0] && (a1 + a2)[1..] == a1[1..] + a2;
      assert (b1 + b2)[0] == b1[0] && (b1 + b2)[1..] == b1[1..] + b2;
      LexAppend(a1[1..], a2, b1[1..], b2);
      if a1[0] == b1[0] && a1[1..] == b1[1..] {
        assert a1 == [a1[0]] + a1[1..] && b1 == [b1[0]] + b1[1..];
      }
    }
  }

  function Pow10(w: nat): nat {
    if w == 0 then 1 else 10 * Pow10(w - 1)
  }

  /** The `w` last decimal digits of `n`, zero-padded on the left. */
  function Numeral(n: nat, w: nat): (r: string)
    ensures |r| == w
  {
    if w == 0 then [] else Numeral(n / 10, w - 1) + [DigitChar(n % 10)]
  }

  /** Zero-padded numerals of one width compare as text exactly as the
      numbers compare, and are equal exactly when the numbers are. */
  lemma {:induction false} NumeralOrder(n: nat, m: nat, w: nat)
    requires n < Pow10(w) && m < Pow10(w)
    ensures LexLess(Numeral(n, w), Numeral(m, w)) <==> n < m
    ensures Numeral(n, w) == Numeral(m, w) <==> n == m
  {
    if w > 0 {
      var a, b := Numeral(n / 10, w - 1), Numeral(m / 10, w - 1);
      var c, e := DigitChar(n % 10), DigitChar(m % 10);
      NumeralOrder(n / 10, m / 10, w - 1);
      LexAppend(a, [c], b, [e]);
      assert LexLess([c], [e]) <==> c < e;
      assert c < e <==> n % 10 < m % 10;
      if a + [c] == b + [e] {
        assert (a + [c])[..|a|] == a && (b + [e])[..|b|] == b;
        assert (a + [c])[|a|] == c && (b + [e])[|b|] == e;
      }
    }
  }
}
