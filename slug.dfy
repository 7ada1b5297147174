/** Blog-post slug normalisation (`normalize_slug`): strip, lower-case,
    turn each whitespace run into one hyphen, drop everything outside
    `a-z`, `0-9` and `-`, collapse hyphen runs and trim hyphens. */
module Slug {
  import opened Text

  /** `c.lower()` as far as the slug can tell: ASCII capitals, plus the two
      non-ASCII characters whose lower case holds an ASCII letter (KELVIN
      SIGN gives `k`; LATIN CAPITAL LETTER I WITH DOT ABOVE gives `i`
      followed by a combining dot, which the character filter later
      deletes, so it is left out here). Every other character is kept: what
      Python maps it to is non-ASCII and deleted by the same filter. */
  function LowerChar(c: char): (r: char)
    ensures SlugChar(c) ==> r == c
  {
    if 'A' <= c <= 'Z' then (c as int + 32) as char
    else if c == '\U{212A}' then 'k'
    else if c == '\U{0130}' then 'i'
    else c
  }

  /** `s.lower()`, character by character. An ASCII capital becomes its
      small letter; whitespace stays whitespace and nothing else becomes
      whitespace; a character comes out as a slug character exactly when it
      was one already, an ASCII capital, KELVIN SIGN or the dotted capital I. */
  function Lower(s: string): (r: string)
    ensures |r| == |s|
    ensures forall i :: 0 <= i < |s| ==> r[i] == LowerChar(s[i])
    ensures forall i :: 0 <= i < |s| && 'A' <= s[i] <= 'Z' ==> r[i] == (s[i] as int + 32) as char
    ensures forall i :: 0 <= i < |s| ==> (r[i] in Whitespace <==> s[i] in Whitespace)
    ensures forall i :: 0 <= i < |s| ==>
              (SlugChar(r[i]) <==> SlugChar(s[i]) || 'A' <= s[i] <= 'Z' || s[i] == '\U{212A}' || s[i] == '\U{0130}')
  {
    seq(|s|, i requires 0 <= i < |s| => LowerChar(s[i]))
  }

  /** `re.sub(r"\s+", "-", s)`: every maximal whitespace run becomes one hyphen. */
  function SpacesToHyphen(s: string): (r: string)
    ensures forall i :: 0 <= i < |r| ==> r[i] !in Whitespace
    decreases |s|
  {
    if s == [] then []
    else if s[0] in Whitespace then
      TrimStartFacts(s, Whitespace);
      "-" + SpacesToHyphen(TrimStart(s, Whitespace))
    else [s[0]] + SpacesToHyphen(s[1..])
  }

  predicate SlugChar(c: char) {
    'a' <= c <= 'z' || '0' <= c <= '9' || c == '-'
  }

  predicate AllSlugChars(s: string) {
    forall i :: 0 <= i < |s| ==> SlugChar(s[i])
  }

  predicate NoDoubleHyphen(s: string) {
    forall i :: 0 <= i < |s| - 1 ==> !(s[i] == '-' && s[i + 1] == '-')
  }

  /** The shape every stored slug has. */
  predicate IsSlug(s: string) {
    && AllSlugChars(s)
    && NoDoubleHyphen(s)
    && (s != [] ==> s[0] != '-' && s[|s| - 1] != '-')
  }

  /** `re.sub(r"[^a-z0-9-]", "", s)`. */
  function KeepSlugChars(s: string): (r: string)
    ensures AllSlugChars(r)
  {
    if s == [] then [] else (if SlugChar(s[0]) then [s[0]] else []) + KeepSlugChars(s[1..])
  }

  /** The filter works piecewise: what survives of `a + b` is what survives
      of `a` followed by what survives of `b`. With the one-character case,
      which is its definition, this says the slug characters of the input
      are kept in their order and everything else is dropped. */
  lemma {:induction false} KeepSlugCharsAppend(a: string, b: string)
    ensures KeepSlugChars(a + b) == KeepSlugChars(a) + KeepSlugChars(b)
  {
    if a == [] {
      assert a + b == b;
    } else {
      assert (a + b)[0] == a[0] && (a + b)[1..] == a[1..] + b;
      KeepSlugCharsAppend(a[1..], b);
    }
  }

  /** A character survives the filter exactly when it is in the input and
      is a slug character. */
  lemma {:induction false} KeepSlugCharsMembers(s: string, c: char)
    ensures c in KeepSlugChars(s) <==> c in s && SlugChar(c)
  {
    if s != [] {
      KeepSlugCharsMembers(s[1..], c);
      assert s == [s[0]] + s[1..];
    }
  }

  /** `re.sub(r"-{2,}", "-", s)`: every run of two or more hyphens becomes one. */
  function CollapseHyphens(s: string): (r: string)
    ensures s != [] ==> r != [] && r[0] == s[0]
    ensures NoDoubleHyphen(r)
    ensures AllSlugChars(s) ==> AllSlugChars(r)
  {
    if |s| < 2 then s
    else if s[0] == '-' && s[1] == '-' then CollapseHyphens(s[1..])
    else [s[0]] + CollapseHyphens(s[1..])
  }

  /** `s` with every hyphen removed. */
  function DropHyphens(s: string): string {
    if s == [] then [] else (if s[0] == '-' then [] else [s[0]]) + DropHyphens(s[1..])
  }

  /** Collapsing touches only hyphens: every other character survives in
      order, and hyphens remain exactly when there were some. */
  lemma {:induction false} CollapseHyphensFacts(s: string)
    ensures DropHyphens(CollapseHyphens(s)) == DropHyphens(s)
    ensures '-' in CollapseHyphens(s) <==> '-' in s
  {
    if |s| >= 2 {
      CollapseHyphensFacts(s[1..]);
      var rest := CollapseHyphens(s[1..]);
      if !(s[0] == '-' && s[1] == '-') {
        assert ([s[0]] + rest)[1..] == rest;
      }
      assert s == [s[0]] + s[1..];
    }
  }

  /** Doubling a hyphen anywhere changes nothing: a run of hyphens of any
      length collapses to the same single hyphen. */
  lemma {:induction false} CollapseHyphensDouble(a: string, b: string)
    ensures CollapseHyphens(a + "--" + b) == CollapseHyphens(a + "-" + b)
  {
    if a == [] {
      assert (a + "--" + b)[1..] == a + "-" + b;
    } else {
      var s := a + "--" + b;
      var t := a + "-" + b;
      assert s[1..] == a[1..] + "--" + b;
      assert t[1..] == a[1..] + "-" + b;
      assert s[0] == t[0] && s[1] == t[1];
      CollapseHyphensDouble(a[1..], b);
    }
  }

  /** `normalize_slug(s)`: whatever the input, the result has slug shape. */
  function NormalizeSlug(s: string): (r: string)
    ensures IsSlug(r)
  {
    var c := CollapseHyphens(KeepSlugChars(SpacesToHyphen(Lower(Trim(s, Whitespace)))));
    TrimKeepsShape(c);
    Trim(c, {'-'})
  }

  /** Trimming hyphens from a hyphen-run-free string of slug characters
      yields a slug. */
  lemma TrimKeepsShape(c: string)
    requires AllSlugChars(c) && NoDoubleHyphen(c)
    ensures IsSlug(Trim(c, {'-'}))
  {
    var r := Trim(c, {'-'});
    var k := TrimSlice(c, {'-'});
    assert forall i :: 0 <= i < |r| ==> r[i] == c[k + i];
  }

  lemma {:induction false} SpacesToHyphenKeeps(s: string)
    requires forall i :: 0 <= i < |s| ==> s[i] !in Whitespace
    ensures SpacesToHyphen(s) == s
  {
    if s != [] {
      SpacesToHyphenKeeps(s[1..]);
    }
  }

  /** A whole whitespace run, up to the next non-whitespace character or
      the end, becomes exactly one hyphen. */
  lemma {:induction false} SpacesToHyphenRun(w: string, b: string)
    requires w != [] && forall i :: 0 <= i < |w| ==> w[i] in Whitespace
    requires b == [] || b[0] !in Whitespace
    ensures SpacesToHyphen(w + b) == "-" + SpacesToHyphen(b)
  {
    assert (w + b)[0] == w[0];
    TrimStartRun(w, b);
  }

  lemma {:induction false} TrimStartRun(w: string, b: string)
    requires forall i :: 0 <= i < |w| ==> w[i] in Whitespace
    requires b == [] || b[0] !in Whitespace
    ensures TrimStart(w + b, Whitespace) == b
  {
    if w == [] {
      assert w + b == b;
    } else {
      assert (w + b)[0] == w[0] && (w + b)[1..] == w[1..] + b;
      TrimStartRun(w[1..], b);
    }
  }

  lemma {:induction false} KeepSlugCharsKeeps(s: string)
    requires AllSlugChars(s)
    ensures KeepSlugChars(s) == s
  {
    if s != [] {
      KeepSlugCharsKeeps(s[1..]);
    }
  }

  lemma {:induction false} CollapseHyphensKeeps(s: string)
    requires NoDoubleHyphen(s)
    ensures CollapseHyphens(s) == s
  {
    if |s| >= 2 {
      CollapseHyphensKeeps(s[1..]);
    }
  }

  /** No slug character is whitespace. */
  lemma SlugCharsNotSpace(s: string)
    requires AllSlugChars(s)
    ensures forall i :: 0 <= i < |s| ==> s[i] !in Whitespace
  {
    forall i | 0 <= i < |s| ensures s[i] !in Whitespace {
      assert SlugChar(s[i]);
      assert !IsSpace(s[i]);
    }
  }

  /** The middle stages of the normalisation leave a slug alone. */
  lemma MiddleStagesKeep(s: string)
    requires IsSlug(s)
    ensures CollapseHyphens(KeepSlugChars(SpacesToHyphen(Lower(s)))) == s
  {
    assert Lower(s) == s;
    SlugCharsNotSpace(s);
    SpacesToHyphenKeeps(s);
    KeepSlugCharsKeeps(s);
    CollapseHyphensKeeps(s);
  }

  /** A string that already has slug shape is its own normal form. */
  lemma SlugIsNormal(s: string)
    requires IsSlug(s)
    ensures NormalizeSlug(s) == s
  {
    SlugCharsNotSpace(s);
    if s != [] {
      assert s[0] !in Whitespace && s[|s| - 1] !in Whitespace;
    }
    TrimKeeps(s, Whitespace);
    MiddleStagesKeep(s);
    TrimKeeps(s, {'-'});
  }

  /** Normalising twice is normalising once. */
  lemma NormalizeIdempotent(s: string)
    ensures NormalizeSlug(NormalizeSlug(s)) == NormalizeSlug(s)
  {
    SlugIsNormal(NormalizeSlug(s));
  }

  lemma ExampleLower()
    ensures Lower("My   Show!!") == "my   show!!"
  {
    var r := Lower("My   Show!!");
    assert r[0] == 'm' && r[6] == 'h';
  }

  lemma ExampleGap()
    ensures TrimStart("   show!!", Whitespace) == "show!!"
  {
    assert ' ' in Whitespace && 's' !in Whitespace;
    assert TrimStart("show!!", Whitespace) == "show!!";
    assert " show!!"[1..] == "show!!";
    assert TrimStart(" show!!", Whitespace) == "show!!";
    assert "  show!!"[1..] == " show!!";
    assert TrimStart("  show!!", Whitespace) == "show!!";
    assert "   show!!"[1..] == "  show!!";
  }

  lemma ExampleSpaces()
    ensures SpacesToHyphen("my   show!!") == "my-show!!"
  {
    assert SpacesToHyphen("show!!") == "show!!" by {
      assert forall i :: 0 <= i < |"show!!"| ==> "show!!"[i] !in Whitespace;
      SpacesToHyphenKeeps("show!!");
    }
    assert SpacesToHyphen("   show!!") == "-show!!" by {
      assert ' ' in Whitespace;
      ExampleGap();
    }
    assert 'm' !in Whitespace && 'y' !in Whitespace;
    assert "my   show!!"[1..] == "y   show!!";
    assert "y   show!!"[1..] == "   show!!";
  }

  lemma ExampleKeep()
    ensures KeepSlugChars("my-show!!") == "my-show"
  {
    KeepSlugCharsAppend("my-show", "!!");
    KeepSlugCharsKeeps("my-show");
    assert KeepSlugChars("!!") == [];
    assert "my-show" + "!!" == "my-show!!";
  }

  /** A worked case: surrounding text is lower-cased, the run of spaces
      becomes one hyphen and the punctuation is dropped. */
  lemma NormalizeExample()
    ensures NormalizeSlug("My   Show!!") == "my-show"
  {
    assert 'M' !in Whitespace && '!' !in Whitespace;
    TrimKeeps("My   Show!!", Whitespace);
    ExampleLower();
    ExampleSpaces();
    ExampleKeep();
    CollapseHyphensKeeps("my-show");
    TrimKeeps("my-show", {'-'});
  }
}
