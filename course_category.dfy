// Course categories (`luc_khi.course.category`): the stored slug and its
// uniqueness, and the one-level display name.
module CourseCategory {
  import opened Wrappers
  import Text
  import SlugStore

  /** A category; `parent` is the position of the parent in the table. */
  datatype Category = Category(id: nat, name: string, parent: Option<nat>, slug: Option<string>)

  const SlugTaken := "URL slug must be unique!"

  function Names(cs: seq<Category>): (r: seq<string>)
    ensures |r| == |cs| && forall i :: 0 <= i < |cs| ==> r[i] == cs[i].name
  {
    seq(|cs|, i requires 0 <= i < |cs| => cs[i].name)
  }

  function Slugs(cs: seq<Category>): (r: seq<Option<string>>)
    ensures |r| == |cs| && forall i :: 0 <= i < |cs| ==> r[i] == cs[i].slug
  {
    seq(|cs|, i requires 0 <= i < |cs| => cs[i].slug)
  }

  function WithSlugs(cs: seq<Category>, slugs: seq<Option<string>>): (r: seq<Category>)
    requires |slugs| == |cs|
    ensures |r| == |cs| && forall i :: 0 <= i < |cs| ==> r[i] == cs[i].(slug := slugs[i])
    ensures Slugs(r) == slugs
  {
    seq(|cs|, i requires 0 <= i < |cs| => cs[i].(slug := slugs[i]))
  }

  /** Every parent is a category of the table. */
  predicate ParentsIn(cs: seq<Category>) {
    forall i :: 0 <= i < |cs| && cs[i].parent.Some? ==> cs[i].parent.value < |cs|
  }

  /** The name `name_get` shows for category `i`. */
  function DisplayName(cs: seq<Category>, i: nat): string
    requires ParentsIn(cs) && i < |cs|
  {
    match cs[i].parent
    case None => cs[i].name
    case Some(p) => cs[p].name + " / " + cs[i].name
  }

  function DisplayNames(cs: seq<Category>): (r: seq<(nat, string)>)
    requires ParentsIn(cs)
    ensures |r| == |cs| && forall i :: 0 <= i < |cs| ==> r[i] == (cs[i].id, DisplayName(cs, i))
  {
    seq(|cs|, i requires 0 <= i < |cs| => (cs[i].id, DisplayName(cs, i)))
  }

  /** A root shows its own name; a child shows its parent's name, ' / ' and
      its own. */
  lemma DisplayNameShape(cs: seq<Category>, i: nat)
    requires ParentsIn(cs) && i < |cs|
    ensures cs[i].parent.None? ==> DisplayName(cs, i) == cs[i].name
    ensures cs[i].parent.Some? ==>
      Text.StartsWith(DisplayName(cs, i), cs[cs[i].parent.value].name)
      && Text.EndsWith(DisplayName(cs, i), " / " + cs[i].name)
  {
    if cs[i].parent.Some? {
      var p := cs[cs[i].parent.value].name;
      var d := DisplayName(cs, i);
      assert d == p + (" / " + cs[i].name);
      assert d[..|p|] == p;
      assert d[|d| - |" / " + cs[i].name|..] == " / " + cs[i].name;
    }
  }

  /** Only one level is shown: renaming a grandparent, or any category other
      than the category and its parent, leaves the display name as it is. */
  lemma OneLevel(cs: seq<Category>, i: nat, j: nat, name: string)
    requires ParentsIn(cs) && i < |cs| && j < |cs|
    requires j != i && cs[i].parent != Some(j)
    ensures ParentsIn(cs[j := cs[j].(name := name)])
    ensures DisplayName(cs[j := cs[j].(name := name)], i) == DisplayName(cs, i)
  {
  }

  /** The course-category table, which keeps its slugs unique. */
  class CategoryTable {
    var categories: seq<Category>

    predicate Valid()
      reads this
    {
      ParentsIn(categories) && SlugStore.Unique(Slugs(categories))
    }

    constructor()
      ensures categories == [] && Valid()
    {
      categories := [];
    }

    /** `_compute_slug` on every category; a result holding a slug twice is
        refused and the table is left as it was. */
    method ComputeSlugs() returns (r: Result<()>)
      requires Valid()
      modifies this
      ensures Valid()
      ensures var s := SlugStore.Recomputed(Names(old(categories)), Slugs(old(categories)));
        && (r.Ok? <==> SlugStore.Unique(s))
        && (r.Ok? ==> categories == WithSlugs(old(categories), s))
        && (r.Err? ==> r.error == SlugTaken && categories == old(categories))
    {
      var s := SlugStore.ComputeSlugs(Names(categories), Slugs(categories));
      if !SlugStore.Unique(s) {
        return Err(SlugTaken);
      }
      categories := WithSlugs(categories, s);
      return Ok(());
    }

    /** `name_get`: one `(id, name)` pair per category, in order. */
    method NameGet() returns (result: seq<(nat, string)>)
      requires Valid()
      ensures result == DisplayNames(categories)
    {
      result := [];
      var k := 0;
      while k < |categories|
        invariant 0 <= k <= |categories| && |result| == k
        invariant forall i :: 0 <= i < k ==> result[i] == (categories[i].id, DisplayName(categories, i))
      {
        var c := categories[k];
        var name := if c.parent.Some? then categories[c.parent.value].name + " / " + c.name else c.name;
        result := result + [(c.id, name)];
        k := k + 1;
      }
    }
  }
}
