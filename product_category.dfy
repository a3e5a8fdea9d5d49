// Shop product categories (`luc_khi.product.category`): the full path name,
// the drop-map slug, the meta-title defaults and the element colour.
module ProductCategory {
  import opened Wrappers
  import Text
  import VietSlug
  import SiteCommon

  /** A category with its chain of parents. */
  datatype Category = Category(name: string, parent: Option<Category>, element: string)

  /** `_compute_complete_name`: a root is its name, a child is its parent's
      full name, ' / ' and its own name. */
  function CompleteName(c: Category): string
    decreases c
  {
    match c.parent
    case None => c.name
    case Some(p) => CompleteName(p) + " / " + c.name
  }

  /** The names from the root down to `c`. */
  function Path(c: Category): (r: seq<string>)
    ensures r != [] && r[|r| - 1] == c.name
    decreases c
  {
    match c.parent
    case None => [c.name]
    case Some(p) => Path(p) + [c.name]
  }

  lemma {:induction false} JoinSnoc(parts: seq<string>, x: string, sep: string)
    requires parts != []
    ensures Text.Join(parts + [x], sep) == Text.Join(parts, sep) + sep + x
    decreases |parts|
  {
    var ps := parts + [x];
    if |parts| > 1 {
      assert ps[1..] == parts[1..] + [x];
      JoinSnoc(parts[1..], x, sep);
    } else {
      assert ps[1..] == [x];
    }
  }

  /** The full name is the ancestors' names, root first, joined by ' / '. */
  lemma {:induction false} CompleteNameIsPath(c: Category)
    ensures CompleteName(c) == Text.Join(Path(c), " / ")
    decreases c
  {
    match c.parent
    case None =>
    case Some(p) =>
      CompleteNameIsPath(p);
      JoinSnoc(Path(p), c.name, " / ");
  }

  /** A root's full name starts the full name of every descendant. */
  lemma RootNameFirst(c: Category)
    ensures Text.StartsWith(CompleteName(c), Path(c)[0])
  {
    CompleteNameIsPath(c);
    Text.JoinStartsWithFirst(Path(c), " / ");
  }

  /** The values `create` passes on. */
  function CreateVals(vals: map<string, string>): map<string, string> {
    SiteCommon.MetaTitleOnCreate(vals)
  }

  /** The values `write` passes on. */
  function WriteVals(vals: map<string, string>): map<string, string> {
    SiteCommon.MetaTitleOnWrite(vals)
  }

  /** `get_element_color`. */
  function ElementColor(c: Category): string {
    SiteCommon.ElementColor(c.element)
  }
}
