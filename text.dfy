/** Python string primitives used by the cleaners: `str.strip()`, `str.upper()`,
    `str.title()` and `str.split('-')[0]`.

    Case mapping covers ASCII and the Latin-1 letters that have a one-letter
    Latin-1 counterpart in the other case; every other character (`ß`, `ÿ`,
    `µ` and everything outside Latin-1) is left as it is. Whitespace is
    Python's full `str.isspace()` set. */
module Text {

  /** Python's `str.isspace()`. */
  predicate IsSpace(c: char) {
    c == ' ' || ('\t' <= c <= '\r') || ('\U{1c}' <= c <= '\U{1f}') ||
    c == '\U{85}' || c == '\U{a0}' || c == '\U{1680}' || ('\U{2000}' <= c <= '\U{200a}') ||
    c == '\U{2028}' || c == '\U{2029}' || c == '\U{202f}' || c == '\U{205f}' || c == '\U{3000}'
  }

  predicate IsUpperChar(c: char) {
    ('A' <= c <= 'Z') || ('À' <= c <= 'Þ' && c != '×')
  }

  predicate IsLowerChar(c: char) {
    ('a' <= c <= 'z') || ('à' <= c <= 'þ' && c != '÷')
  }

  /** Python's notion of a cased character (`previous_is_cased` in `str.title()`). */
  predicate IsCased(c: char) {
    IsUpperChar(c) || IsLowerChar(c) || c == 'ß' || c == 'ÿ' || c == 'ª' || c == 'µ' || c == 'º'
  }

  function UpperChar(c: char): (r: char)
    ensures !IsLowerChar(r)
    ensures IsSpace(r) <==> IsSpace(c)
    ensures IsCased(r) <==> IsCased(c)
  {
    if IsLowerChar(c) then (c as int - 32) as char else c
  }

  function LowerChar(c: char): (r: char)
    ensures !IsUpperChar(r)
    ensures IsSpace(r) <==> IsSpace(c)
    ensures IsCased(r) <==> IsCased(c)
    ensures UpperChar(r) == UpperChar(c)
  {
    if IsUpperChar(c) then (c as int + 32) as char else c
  }

  /** `s.upper()` */
  function Upper(s: string): (r: string)
    ensures |r| == |s|
    ensures forall i :: 0 <= i < |s| ==> r[i] == UpperChar(s[i])
  {
    seq(|s|, i requires 0 <= i < |s| => UpperChar(s[i]))
  }

  /** `s.title()`: a character is lower-cased when the one before it is cased,
      and upper-cased otherwise. */
  function Title(s: string): (r: string)
    ensures |r| == |s|
    ensures forall i :: 0 <= i < |s| ==>
      r[i] == if i > 0 && IsCased(s[i - 1]) then LowerChar(s[i]) else UpperChar(s[i])
  {
    seq(|s|, i requires 0 <= i < |s| =>
      if i > 0 && IsCased(s[i - 1]) then LowerChar(s[i]) else UpperChar(s[i]))
  }

  function StripLeft(s: string): string {
    if |s| > 0 && IsSpace(s[0]) then StripLeft(s[1..]) else s
  }

  function StripRight(s: string): string {
    if |s| > 0 && IsSpace(s[|s| - 1]) then StripRight(s[..|s| - 1]) else s
  }

  /** `s.strip()` */
  function Strip(s: string): string {
    StripRight(StripLeft(s))
  }

  /** `s.split('-')[0]`: the text before the first hyphen. */
  function BeforeHyphen(s: string): string {
    if s == [] || s[0] == '-' then [] else [s[0]] + BeforeHyphen(s[1..])
  }

  predicate AllSpace(s: string) {
    forall i :: 0 <= i < |s| ==> IsSpace(s[i])
  }

  predicate HasLower(s: string) {
    exists i :: 0 <= i < |s| && IsLowerChar(s[i])
  }

  /** A string with no surrounding whitespace. */
  predicate IsStripped(s: string) {
    s == [] || (!IsSpace(s[0]) && !IsSpace(s[|s| - 1]))
  }

  // ---------------------------------------------------------------------------
  // upper()

  lemma UpperIdempotent(s: string)
    ensures Upper(Upper(s)) == Upper(s)
  {
  }

  lemma UpperHasNoLower(s: string)
    ensures !HasLower(Upper(s))
  {
  }

  /** A key that contains a lower-case letter is never the result of `upper()`. */
  lemma UpperNeverMixedCase(s: string, key: string)
    requires HasLower(key)
    ensures Upper(s) != key
  {
    UpperHasNoLower(s);
  }

  /** `upper()` leaves a string without lower-case letters as it is. */
  lemma UpperOfNoLower(s: string)
    requires !HasLower(s)
    ensures Upper(s) == s
  {
    forall i | 0 <= i < |s| ensures Upper(s)[i] == s[i] {
      assert !IsLowerChar(s[i]);
    }
  }

  lemma UpperNoHyphen(s: string)
    requires '-' !in s
    ensures '-' !in Upper(s)
  {
  }

  lemma UpperConcat(a: string, b: string)
    ensures Upper(a + b) == Upper(a) + Upper(b)
  {
  }

  lemma UpperOfTitle(s: string)
    ensures Upper(Title(s)) == Upper(s)
  {
  }

  // ---------------------------------------------------------------------------
  // strip()

  lemma {:induction false} StripLeftShape(s: string)
    ensures |StripLeft(s)| <= |s|
    ensures StripLeft(s) == s[|s| - |StripLeft(s)|..]
    ensures AllSpace(s[..|s| - |StripLeft(s)|])
    ensures StripLeft(s) == [] || !IsSpace(StripLeft(s)[0])
  {
    if |s| > 0 && IsSpace(s[0]) {
      StripLeftShape(s[1..]);
      var t := StripLeft(s[1..]);
      assert s[|s| - |t|..] == s[1..][|s[1..]| - |t|..];
      forall i | 0 <= i < |s| - |t| ensures IsSpace(s[i]) {
        if i > 0 {
          assert s[i] == s[1..][..|s[1..]| - |t|][i - 1];
        }
      }
    }
  }

  lemma {:induction false} StripRightShape(s: string)
    ensures |StripRight(s)| <= |s|
    ensures StripRight(s) == s[..|StripRight(s)|]
    ensures AllSpace(s[|StripRight(s)|..])
    ensures StripRight(s) == [] || !IsSpace(StripRight(s)[|StripRight(s)| - 1])
  {
    if |s| > 0 && IsSpace(s[|s| - 1]) {
      var u := s[..|s| - 1];
      StripRightShape(u);
      var t := StripRight(u);
      assert s[..|t|] == u[..|t|];
      forall i | |t| <= i < |s| ensures IsSpace(s[i]) {
        if i < |s| - 1 {
          assert s[i] == u[|t|..][i - |t|];
        }
      }
    }
  }

  lemma {:induction false} StripLeftOfNonSpace(s: string)
    requires s == [] || !IsSpace(s[0])
    ensures StripLeft(s) == s
  {
  }

  lemma {:induction false} StripRightOfNonSpace(s: string)
    requires s == [] || !IsSpace(s[|s| - 1])
    ensures StripRight(s) == s
  {
  }

  /** `strip()` removes exactly the surrounding whitespace and nothing else. */
  lemma StripShape(s: string)
    ensures IsStripped(Strip(s))
    ensures exists a, b :: 0 <= a <= b <= |s| && Strip(s) == s[a..b] &&
                           AllSpace(s[..a]) && AllSpace(s[b..])
  {
    var u := StripLeft(s);
    StripLeftShape(s);
    StripRightShape(u);
    var t := StripRight(u);
    var a := |s| - |u|;
    var b := a + |t|;
    assert t == u[..|t|];
    assert Strip(s) == s[a..b];
    forall i | b <= i < |s| ensures IsSpace(s[i]) {
      assert s[i] == u[|t|..][i - b];
    }
    assert AllSpace(s[b..]);
    if t != [] {
      assert t[0] == u[0];
    }
  }

  /** `strip()` of a whitespace-only string is empty. */
  lemma StripAllSpace(s: string)
    requires AllSpace(s)
    ensures Strip(s) == []
  {
    StripLeftAfterSpaces(s, []);
    assert s + [] == s;
  }

  /** `strip()` keeps only characters of its input. */
  lemma StripKeepsChars(s: string, c: char)
    requires c in Strip(s)
    ensures c in s
  {
    StripShape(s);
    var a, b :| 0 <= a <= b <= |s| && Strip(s) == s[a..b];
    var i :| 0 <= i < |Strip(s)| && Strip(s)[i] == c;
    assert s[a + i] == c;
  }

  lemma StripOfStripped(s: string)
    requires IsStripped(s)
    ensures Strip(s) == s
  {
    StripLeftOfNonSpace(s);
    StripRightOfNonSpace(s);
  }

  lemma StripIdempotent(s: string)
    ensures Strip(Strip(s)) == Strip(s)
  {
    StripShape(s);
    StripOfStripped(Strip(s));
  }

  lemma {:induction false} StripLeftAfterSpaces(p: string, q: string)
    requires AllSpace(p)
    ensures StripLeft(p + q) == StripLeft(q)
  {
    if p == [] {
      assert p + q == q;
    } else {
      assert (p + q)[0] == p[0];
      assert (p + q)[1..] == p[1..] + q;
      StripLeftAfterSpaces(p[1..], q);
    }
  }

  lemma {:induction false} StripRightBeforeSpaces(p: string, w: string)
    requires AllSpace(w)
    ensures StripRight(p + w) == StripRight(p)
  {
    if w == [] {
      assert p + w == p;
    } else {
      var w' := w[..|w| - 1];
      assert (p + w)[|p + w| - 1] == w[|w| - 1];
      assert (p + w)[..|p + w| - 1] == p + w';
      StripRightBeforeSpaces(p, w');
    }
  }

  /** A character map that keeps whitespace commutes with each side of `strip()`. */
  lemma {:induction false} StripLeftUpper(s: string)
    ensures StripLeft(Upper(s)) == Upper(StripLeft(s))
  {
    if |s| > 0 && IsSpace(s[0]) {
      assert Upper(s)[1..] == Upper(s[1..]);
      StripLeftUpper(s[1..]);
    }
  }

  lemma {:induction false} StripRightUpper(s: string)
    ensures StripRight(Upper(s)) == Upper(StripRight(s))
  {
    if |s| > 0 && IsSpace(s[|s| - 1]) {
      assert Upper(s)[..|s| - 1] == Upper(s[..|s| - 1]);
      StripRightUpper(s[..|s| - 1]);
    }
  }

  lemma StripUpper(s: string)
    ensures Strip(Upper(s)) == Upper(Strip(s))
  {
    StripLeftUpper(s);
    StripRightUpper(StripLeft(s));
  }

  lemma TitleKeepsStripped(s: string)
    requires IsStripped(s)
    ensures IsStripped(Title(s))
  {
  }

  /** Characters of the prefix are title-cased as in the prefix alone. */
  lemma TitlePrefijo(a: string, b: string, i: int)
    requires 0 <= i < |a|
    ensures Title(a + b)[i] == Title(a)[i]
  {
    assert (a + b)[i] == a[i];
    if i > 0 { assert (a + b)[i - 1] == a[i - 1]; }
  }

  /** After an uncased character the suffix is title-cased as if alone. */
  lemma TitleSufijo(a: string, b: string, j: int)
    requires a != [] && !IsCased(a[|a| - 1]) && 0 <= j < |b|
    ensures Title(a + b)[|a| + j] == Title(b)[j]
  {
    var s := a + b;
    assert s[|a| + j] == b[j];
    assert s[|a| + j - 1] == if j == 0 then a[|a| - 1] else b[j - 1];
  }

  /** `title()` starts afresh after a character that is not cased. */
  lemma TitleAfterUncased(a: string, b: string)
    requires a != [] && !IsCased(a[|a| - 1])
    ensures Title(a + b) == Title(a) + Title(b)
  {
    var t := Title(a + b);
    var u := Title(a) + Title(b);
    forall i | 0 <= i < |t| ensures t[i] == u[i] {
      if i < |a| {
        TitlePrefijo(a, b, i);
      } else {
        TitleSufijo(a, b, i - |a|);
      }
    }
  }

  lemma TitleIdempotent(s: string)
    ensures Title(Title(s)) == Title(s)
  {
  }

  // ---------------------------------------------------------------------------
  // split('-')[0]

  lemma {:induction false} BeforeHyphenShape(s: string)
    ensures |BeforeHyphen(s)| <= |s|
    ensures BeforeHyphen(s) == s[..|BeforeHyphen(s)|]
    ensures '-' !in BeforeHyphen(s)
    ensures |BeforeHyphen(s)| < |s| ==> s[|BeforeHyphen(s)|] == '-'
  {
    if s != [] && s[0] != '-' {
      BeforeHyphenShape(s[1..]);
    }
  }

  lemma {:induction false} BeforeHyphenNoHyphen(s: string)
    requires '-' !in s
    ensures BeforeHyphen(s) == s
  {
    if s != [] {
      assert '-' !in s[1..];
      BeforeHyphenNoHyphen(s[1..]);
      assert s == [s[0]] + s[1..];
    }
  }

  /** The part before the first hyphen of `a + b` is found in `a` when `a` has one. */
  lemma {:induction false} BeforeHyphenConcat(a: string, b: string)
    ensures BeforeHyphen(a + b) == if '-' in a then BeforeHyphen(a) else a + BeforeHyphen(b)
  {
    if a == [] {
      assert a + b == b;
    } else {
      assert (a + b)[0] == a[0];
      assert (a + b)[1..] == a[1..] + b;
      BeforeHyphenConcat(a[1..], b);
      assert a == [a[0]] + a[1..];
      assert '-' in a <==> a[0] == '-' || '-' in a[1..];
    }
  }

  lemma {:induction false} BeforeHyphenUpper(s: string)
    ensures BeforeHyphen(Upper(s)) == Upper(BeforeHyphen(s))
  {
    if s != [] {
      assert Upper(s)[1..] == Upper(s[1..]);
      BeforeHyphenUpper(s[1..]);
      if s[0] != '-' {
        assert Upper(BeforeHyphen(s)) == [UpperChar(s[0])] + Upper(BeforeHyphen(s[1..]));
      }
    }
  }

  lemma AllSpaceNoHyphen(w: string)
    requires AllSpace(w)
    ensures '-' !in w
  {
  }

  /** Stripping before the hyphen split changes nothing once the part is stripped again. */
  lemma StripBeforeHyphenStrip(s: string)
    ensures Strip(BeforeHyphen(Strip(s))) == Strip(BeforeHyphen(s))
  {
    StripLeftShape(s);
    var u := StripLeft(s);
    var p := s[..|s| - |u|];
    assert s == p + u;
    AllSpaceNoHyphen(p);
    BeforeHyphenConcat(p, u);
    StripLeftAfterSpaces(p, BeforeHyphen(u));
    // Strip(BeforeHyphen(s)) == Strip(BeforeHyphen(u))
    StripRightShape(u);
    var v := StripRight(u);
    var w := u[|v|..];
    assert u == v + w;
    AllSpaceNoHyphen(w);
    BeforeHyphenConcat(v, w);
    BeforeHyphenNoHyphen(w);
    if '-' !in v {
      BeforeHyphenNoHyphen(v);
      StripLeftShape(s);
      if v == [] {
        StripLeftAfterSpaces(w, []);
      } else {
        assert v[0] == u[0];
        StripLeftOfNonSpace(v + w);
        StripLeftOfNonSpace(v);
        StripRightBeforeSpaces(v, w);
      }
    }
  }

  /** The event key as the cleaners compute it, under any case variant of the input:
      `upper(strip(split(...)[0]))` only depends on `upper()` of the input. */
  lemma EventKeyUpper(s: string)
    ensures Upper(Strip(BeforeHyphen(s))) == Strip(BeforeHyphen(Upper(Strip(s))))
  {
    StripUpper(BeforeHyphen(s));
    BeforeHyphenUpper(s);
    StripBeforeHyphenStrip(Upper(s));
    StripUpper(s);
  }
}
