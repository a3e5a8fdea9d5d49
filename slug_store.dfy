// The stored `slug` of courses, course categories and website pages:
// `_compute_slug` recomputes it from the name only when there is a name,
// and the `unique(slug)` constraint refuses a table holding one slug twice
// (an unset slug is SQL NULL, which the constraint ignores).
module SlugStore {
  import opened Wrappers
  import LatinSlug

  /** The slug a record keeps or gets: unchanged without a name. */
  function NewSlug(name: string, slug: Option<string>): (r: Option<string>)
    ensures name == "" ==> r == slug
    ensures name != "" ==> r == Some(LatinSlug.GeneratedSlug(name))
  {
    if name == "" then slug else Some(LatinSlug.GeneratedSlug(name))
  }

  function Recomputed(names: seq<string>, slugs: seq<Option<string>>): (r: seq<Option<string>>)
    requires |names| == |slugs|
    ensures |r| == |slugs| && forall i :: 0 <= i < |r| ==> r[i] == NewSlug(names[i], slugs[i])
  {
    seq(|slugs|, i requires 0 <= i < |slugs| => NewSlug(names[i], slugs[i]))
  }

  /** `unique(slug)`. */
  predicate Unique(slugs: seq<Option<string>>) {
    forall i, j :: 0 <= i < j < |slugs| && slugs[i].Some? ==> slugs[i] != slugs[j]
  }

  /** `_compute_slug` over the records, in order, with `_generate_slug`
      run for each named one. */
  method ComputeSlugs(names: seq<string>, slugs: seq<Option<string>>) returns (r: seq<Option<string>>)
    requires |names| == |slugs|
    ensures r == Recomputed(names, slugs)
  {
    r := slugs;
    var k := 0;
    while k < |slugs|
      invariant 0 <= k <= |slugs| && |r| == |slugs|
      invariant forall i :: 0 <= i < k ==> r[i] == NewSlug(names[i], slugs[i])
      invariant forall i :: k <= i < |slugs| ==> r[i] == slugs[i]
    {
      if names[k] != "" {
        var s := LatinSlug.GenerateSlug(names[k]);
        r := r[k := Some(s)];
      }
      k := k + 1;
    }
  }

  /** Renaming a record to its own slug keeps that slug. */
  lemma RenamedToSlug(name: string, slug: Option<string>)
    requires LatinSlug.GeneratedSlug(name) != ""
    ensures NewSlug(LatinSlug.GeneratedSlug(name), slug) == Some(LatinSlug.GeneratedSlug(name))
  {
    LatinSlug.Idempotent(name);
  }

  /** Two named records whose names differ only in letter case or accents
      get the same slug, so the constraint refuses to hold both. */
  lemma SameSlugClash(names: seq<string>, slugs: seq<Option<string>>, i: nat, j: nat)
    requires |names| == |slugs| && i < j < |names|
    requires names[i] != "" && names[j] != ""
    requires LatinSlug.GeneratedSlug(names[i]) == LatinSlug.GeneratedSlug(names[j])
    ensures !Unique(Recomputed(names, slugs))
  {
    var r := Recomputed(names, slugs);
    assert r[i] == r[j] && r[i].Some?;
  }
}
