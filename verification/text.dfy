/**
  String helpers used by the validator and by the search filter: Python's `str.strip()`
  and a case-insensitive substring test.
*/
module Text {

  /** The characters for which Python 3's `str.isspace()` holds; `str.strip()` with no
      argument removes exactly these from both ends. */
  predicate IsSpace(c: char) {
    || ('\t' <= c <= '\r')
    || ('\U{1C}' <= c <= '\U{1F}')
    || c == ' '
    || c == '\U{85}'
    || c == '\U{A0}'
    || c == '\U{1680}'
    || ('\U{2000}' <= c <= '\U{200A}')
    || c == '\U{2028}'
    || c == '\U{2029}'
    || c == '\U{202F}'
    || c == '\U{205F}'
    || c == '\U{3000}'
  }

  predicate AllSpace(s: string) {
    forall i :: 0 <= i < |s| ==> IsSpace(s[i])
  }

  /** Neither end of `s` is whitespace. */
  predicate Trimmed(s: string) {
    s == [] || (!IsSpace(s[0]) && !IsSpace(s[|s| - 1]))
  }

  /** `r` is what is left of `s` once the leading and trailing whitespace is cut off:
      a slice of `s`, flanked by whitespace only, that itself has no whitespace at either end.
      This is the reference meaning of `str.strip()`. */
  ghost predicate IsStripOf(r: string, s: string) {
    exists i, j :: StripsAt(r, s, i, j)
  }

  /** `r` is the slice `s[i..j]`, everything outside it is whitespace, and `r` has none at its ends. */
  ghost predicate StripsAt(r: string, s: string, i: int, j: int) {
    0 <= i <= j <= |s| && r == s[i..j] && AllSpace(s[..i]) && AllSpace(s[j..]) && Trimmed(r)
  }

  /** `str.lstrip()`. */
  function TrimStart(s: string): (r: string)
    ensures |r| <= |s| && r == s[|s| - |r|..]
    ensures AllSpace(s[..|s| - |r|])
    ensures r == [] || !IsSpace(r[0])
  {
    if |s| > 0 && IsSpace(s[0]) then
      var r := TrimStart(s[1..]);
      assert s[..|s| - |r|] == [s[0]] + s[1..][..|s| - 1 - |r|];
      r
    else
      s
  }

  /** `str.rstrip()`. */
  function TrimEnd(s: string): (r: string)
    ensures |r| <= |s| && r == s[..|r|]
    ensures AllSpace(s[|r|..])
    ensures r == [] || !IsSpace(r[|r| - 1])
  {
    if |s| > 0 && IsSpace(s[|s| - 1]) then
      var r := TrimEnd(s[..|s| - 1]);
      assert s[|r|..] == s[..|s| - 1][|r|..] + [s[|s| - 1]];
      r
    else
      s
  }

  /** `str.strip()`. */
  function Strip(s: string): (r: string)
    ensures IsStripOf(r, s)
    ensures |r| <= |s|
  {
    var t := TrimStart(s);
    var r := TrimEnd(t);
    StripWitness(s, t, r);
    r
  }

  /** Where `Strip` cuts: after the leading whitespace that `t` lacks and before the
      trailing whitespace that `r` lacks. */
  lemma StripWitness(s: string, t: string, r: string)
    requires |t| <= |s| && t == s[|s| - |t|..] && AllSpace(s[..|s| - |t|]) && (t == [] || !IsSpace(t[0]))
    requires |r| <= |t| && r == t[..|r|] && AllSpace(t[|r|..]) && (r == [] || !IsSpace(r[|r| - 1]))
    ensures StripsAt(r, s, |s| - |t|, |s| - |t| + |r|)
  {
    var i := |s| - |t|;
    var j := i + |r|;
    assert t == s[i..];
    assert r == t[..|r|];
    assert r == s[i..j];
    assert s[j..] == t[|r|..];
    assert r != [] ==> r[0] == t[0];
  }

  /** A non-space character at index `k` lies at or after the end of a whitespace prefix `s[..i]`. */
  lemma NotInSpacePrefix(s: string, i: int, k: int)
    requires 0 <= i <= |s| && AllSpace(s[..i])
    requires 0 <= k < |s| && !IsSpace(s[k])
    ensures i <= k
  {
    assert forall m :: 0 <= m < i ==> s[..i][m] == s[m];
  }

  /** A non-space character at index `k` lies before a whitespace suffix `s[j..]`. */
  lemma NotInSpaceSuffix(s: string, j: int, k: int)
    requires 0 <= j <= |s| && AllSpace(s[j..])
    requires 0 <= k < |s| && !IsSpace(s[k])
    ensures k < j
  {
    assert forall m :: j <= m < |s| ==> s[j..][m - j] == s[m];
  }

  /** Any two strips of the same string agree, so `IsStripOf` pins down one string. */
  lemma StripOfUnique(r1: string, r2: string, s: string)
    requires IsStripOf(r1, s) && IsStripOf(r2, s)
    ensures r1 == r2
  {
    var i1, j1 :| StripsAt(r1, s, i1, j1);
    var i2, j2 :| StripsAt(r2, s, i2, j2);
    if r1 != [] {
      assert s[i1] == r1[0] && s[j1 - 1] == r1[|r1| - 1];
      NotInSpacePrefix(s, i2, i1);
      NotInSpaceSuffix(s, j2, j1 - 1);
    }
    if r2 != [] {
      assert s[i2] == r2[0] && s[j2 - 1] == r2[|r2| - 1];
      NotInSpacePrefix(s, i1, i2);
      NotInSpaceSuffix(s, j1, j2 - 1);
    }
  }

  /** `Strip` computes exactly the reference strip, in both directions. */
  lemma StripIsStripOf(r: string, s: string)
    ensures IsStripOf(r, s) <==> r == Strip(s)
  {
    if IsStripOf(r, s) {
      StripOfUnique(r, Strip(s), s);
    }
  }

  /** A string with no whitespace at either end is left alone by `Strip`. */
  lemma StripTrimmed(s: string)
    requires Trimmed(s)
    ensures Strip(s) == s
  {
    assert s[..0] == [] && s[|s|..] == [] && s == s[0..|s|];
    assert StripsAt(s, s, 0, |s|);
    StripOfUnique(s, Strip(s), s);
  }

  /** Stripping twice is stripping once. */
  lemma StripIdempotent(s: string)
    ensures Strip(Strip(s)) == Strip(s)
  {
    var r := Strip(s);
    var i, j :| StripsAt(r, s, i, j);
    StripTrimmed(r);
  }

  /** A string of whitespace only strips to the empty string. */
  lemma StripAllSpace(s: string)
    requires AllSpace(s)
    ensures Strip(s) == []
  {
    assert s[..|s|] == s && s[|s|..] == [] && s[|s|..|s|] == [];
    assert StripsAt([], s, |s|, |s|);
    StripOfUnique([], Strip(s), s);
  }

  /** ASCII lower-case folding of one character. */
  function LowerChar(c: char): char {
    if 'A' <= c <= 'Z' then (c as int - 'A' as int + 'a' as int) as char else c
  }

  /** ASCII lower-case folding of a string, character by character. */
  function Lower(s: string): string {
    seq(|s|, i requires 0 <= i < |s| => LowerChar(s[i]))
  }

  lemma LowerIdempotent(s: string)
    ensures Lower(Lower(s)) == Lower(s)
  {
  }

  /** `needle` occurs in `hay` at offset `k`. */
  ghost predicate OccursAt(hay: string, needle: string, k: int) {
    0 <= k && k + |needle| <= |hay| && hay[k..k + |needle|] == needle
  }

  /** Python's `needle in hay`, by scanning the offsets from the left. */
  function Contains(hay: string, needle: string): bool
    decreases |hay|
  {
    if |needle| <= |hay| && hay[..|needle|] == needle then true
    else if hay == [] then false
    else Contains(hay[1..], needle)
  }

  /** The scan finds an occurrence exactly when one exists. */
  lemma {:induction false} ContainsIffOccurs(hay: string, needle: string)
    ensures Contains(hay, needle) <==> exists k :: OccursAt(hay, needle, k)
    decreases |hay|
  {
    if |needle| <= |hay| && hay[..|needle|] == needle {
      assert OccursAt(hay, needle, 0);
    } else if hay == [] {
    } else {
      ContainsIffOccurs(hay[1..], needle);
      if exists k :: OccursAt(hay[1..], needle, k) {
        var k :| OccursAt(hay[1..], needle, k);
        assert hay[k + 1..k + 1 + |needle|] == hay[1..][k..k + |needle|];
        assert OccursAt(hay, needle, k + 1);
      }
      if exists k :: OccursAt(hay, needle, k) {
        var k :| OccursAt(hay, needle, k);
        if k != 0 {
          assert hay[1..][k - 1..k - 1 + |needle|] == hay[k..k + |needle|];
          assert OccursAt(hay[1..], needle, k - 1);
        }
      }
    }
  }

  /** Some slice of `hay` starting at `k` folds to the same string as `needle`. */
  ghost predicate FoldedAt(hay: string, needle: string, k: int) {
    0 <= k && k + |needle| <= |hay| && Lower(hay[k..k + |needle|]) == Lower(needle)
  }

  /** The `icontains` lookup: substring test after folding both sides to lower case. */
  function IContains(hay: string, needle: string): bool {
    Contains(Lower(hay), Lower(needle))
  }

  /** `icontains` holds exactly when some slice of `hay` folds to the same string as `needle`. */
  lemma IContainsIffFoldedOccurrence(hay: string, needle: string)
    ensures IContains(hay, needle) <==> exists k :: FoldedAt(hay, needle, k)
  {
    ContainsIffOccurs(Lower(hay), Lower(needle));
    var h, n := Lower(hay), Lower(needle);
    forall k | 0 <= k && k + |needle| <= |hay|
      ensures OccursAt(h, n, k) <==> FoldedAt(hay, needle, k)
    {
      assert h[k..k + |needle|] == Lower(hay[k..k + |needle|]);
    }
    if IContains(hay, needle) {
      var k :| OccursAt(h, n, k);
      assert FoldedAt(hay, needle, k);
    }
  }
}
