// The regular-expression steps the slug generators share, written as
// functions over strings, and the hyphen shape they leave behind.
module Slug {
  /** `[a-z0-9]`. */
  predicate IsSlugChar(c: char) {
    'a' <= c <= 'z' || '0' <= c <= '9'
  }

  predicate SlugOrDash(c: char) {
    IsSlugChar(c) || c == '-'
  }

  /** Only `[a-z0-9-]`, and never two hyphens in a row. */
  predicate Plain(s: string) {
    && (forall i :: 0 <= i < |s| ==> SlugOrDash(s[i]))
    && (forall i :: 0 <= i < |s| - 1 ==> !(s[i] == '-' && s[i + 1] == '-'))
  }

  /** The shape every slug has: plain, with no hyphen at either end. */
  predicate Shaped(s: string) {
    Plain(s) && (s == [] || (s[0] != '-' && s[|s| - 1] != '-'))
  }

  /** The longest suffix of `s` that starts with a character of `[a-z0-9]`
      (or is empty). */
  function DropNonSlug(s: string): (r: string)
    ensures |r| <= |s| && r == s[|s| - |r|..]
    ensures r == [] || IsSlugChar(r[0])
    ensures forall i :: 0 <= i < |s| - |r| ==> !IsSlugChar(s[i])
  {
    if s == [] || IsSlugChar(s[0]) then s else DropNonSlug(s[1..])
  }

  /** `re.sub(r'[^a-z0-9]+', '-', s)`: every maximal run of other characters
      becomes one hyphen. */
  function DashRuns(s: string): (r: string)
    ensures Plain(r)
    ensures |r| <= |s|
    ensures r == [] <==> s == []
    ensures s != [] ==> r[0] == (if IsSlugChar(s[0]) then s[0] else '-')
    decreases |s|
  {
    if s == [] then []
    else if IsSlugChar(s[0]) then [s[0]] + DashRuns(s[1..])
    else
      var rest := DropNonSlug(s);
      assert rest == DropNonSlug(s[1..]);
      ['-'] + DashRuns(rest)
  }

  /** On a plain string the substitution changes nothing. */
  lemma {:induction false} DashRunsOfPlain(s: string)
    requires Plain(s)
    ensures DashRuns(s) == s
    decreases |s|
  {
    if s != [] {
      assert Plain(s[1..]);
      if IsSlugChar(s[0]) {
        DashRunsOfPlain(s[1..]);
      } else {
        assert s[1..] == [] || IsSlugChar(s[1]);
        assert DropNonSlug(s[1..]) == s[1..];
        DashRunsOfPlain(s[1..]);
      }
    }
  }

  /** `s` without its leading hyphens. */
  function TrimDashStart(s: string): (r: string)
    ensures |r| <= |s| && r == s[|s| - |r|..]
    ensures r == [] || r[0] != '-'
    ensures s != [] && s[0] == '-' ==> |r| < |s|
    ensures s != [] && s[0] != '-' ==> r == s
  {
    if s == [] || s[0] != '-' then s else TrimDashStart(s[1..])
  }

  /** `s` without its trailing hyphens. */
  function TrimDashEnd(s: string): (r: string)
    ensures |r| <= |s| && r == s[..|r|]
    ensures r == [] || r[|r| - 1] != '-'
    ensures s != [] && s[|s| - 1] != '-' ==> r == s
  {
    if s == [] || s[|s| - 1] != '-' then s else TrimDashEnd(s[..|s| - 1])
  }

  /** `s.strip('-')`, which is also what `re.sub(r'^-+|-+$', '', s)` does to
      a string without line breaks. */
  function StripDash(s: string): string {
    TrimDashEnd(TrimDashStart(s))
  }

  /** A piece of a plain string is plain. */
  lemma PlainSlice(s: string, i: int, j: int)
    requires Plain(s) && 0 <= i <= j <= |s|
    ensures Plain(s[i..j])
  {
    var t := s[i..j];
    forall k | 0 <= k < |t| - 1 ensures !(t[k] == '-' && t[k + 1] == '-') {
      assert t[k] == s[i + k] && t[k + 1] == s[i + k + 1];
    }
  }

  /** Stripping a plain string gives the slug shape. */
  lemma StripShaped(s: string)
    requires Plain(s)
    ensures Shaped(StripDash(s))
    ensures |StripDash(s)| <= |s|
  {
    var a := TrimDashStart(s);
    PlainSlice(s, |s| - |a|, |s|);
    var b := TrimDashEnd(a);
    PlainSlice(a, 0, |b|);
    if b != [] {
      assert b[0] == a[0];
    }
  }

  /** A string already in shape is left as it is. */
  lemma StripOfShaped(s: string)
    requires Shaped(s)
    ensures StripDash(s) == s
  {
  }

  /** `re.sub(r'-+', '-', s)`: every run of hyphens becomes one. */
  function CollapseDash(s: string): (r: string)
    ensures |r| <= |s|
    ensures s != [] && s[0] != '-' ==> r != [] && r[0] == s[0]
    ensures forall i :: 0 <= i < |r| - 1 ==> !(r[i] == '-' && r[i + 1] == '-')
    decreases |s|
  {
    if s == [] then []
    else if s[0] == '-' then
      var rest := TrimDashStart(s);
      ['-'] + CollapseDash(rest)
    else [s[0]] + CollapseDash(s[1..])
  }

  /** A string with no hyphen is left as it is. */
  lemma {:induction false} CollapseWithoutDash(s: string)
    requires '-' !in s
    ensures CollapseDash(s) == s
  {
    if s != [] {
      assert '-' !in s[1..];
      CollapseWithoutDash(s[1..]);
    }
  }

  /** A text of `[a-z0-9]` only passes all three substitutions unchanged. */
  lemma SlugCharsUnchanged(s: string)
    requires forall i :: 0 <= i < |s| ==> IsSlugChar(s[i])
    ensures CollapseDash(StripDash(DashRuns(s))) == s
    ensures Shaped(s) && '-' !in s
  {
    assert Plain(s);
    assert Shaped(s) by {
      if s != [] {
        assert IsSlugChar(s[0]) && IsSlugChar(s[|s| - 1]);
      }
    }
    DashRunsOfPlain(s);
    StripOfShaped(s);
    assert '-' !in s by {
      assert forall i :: 0 <= i < |s| ==> s[i] != '-';
    }
    CollapseWithoutDash(s);
  }
}
