// Website pages (`luc_khi.website.page`): the unique page key, the stored
// slug and the page URL.
module WebsitePage {
  import opened Wrappers
  import Text
  import SlugStore

  datatype Page = Page(id: nat, name: string, title: string, pageKey: string, slug: Option<string>)

  const KeyTaken := "Page key must be unique!"
  const PagePrefix := "/page/"

  /** The URL of `action_view_website`. */
  function Url(p: Page): (r: string)
    ensures Text.StartsWith(r, PagePrefix) && r[|PagePrefix|..] == p.pageKey
  {
    PagePrefix + p.pageKey
  }

  /** Different keys give different URLs. */
  lemma UrlInjective(p: Page, q: Page)
    requires Url(p) == Url(q)
    ensures p.pageKey == q.pageKey
  {
    assert Url(p)[|PagePrefix|..] == p.pageKey;
    assert Url(q)[|PagePrefix|..] == q.pageKey;
  }

  /** `unique(page_key)`. */
  predicate KeysUnique(ps: seq<Page>) {
    forall i, j :: 0 <= i < j < |ps| ==> ps[i].pageKey != ps[j].pageKey
  }

  function Names(ps: seq<Page>): (r: seq<string>)
    ensures |r| == |ps| && forall i :: 0 <= i < |ps| ==> r[i] == ps[i].name
  {
    seq(|ps|, i requires 0 <= i < |ps| => ps[i].name)
  }

  function Slugs(ps: seq<Page>): (r: seq<Option<string>>)
    ensures |r| == |ps| && forall i :: 0 <= i < |ps| ==> r[i] == ps[i].slug
  {
    seq(|ps|, i requires 0 <= i < |ps| => ps[i].slug)
  }

  function WithSlugs(ps: seq<Page>, slugs: seq<Option<string>>): (r: seq<Page>)
    requires |slugs| == |ps|
    ensures |r| == |ps| && forall i :: 0 <= i < |ps| ==> r[i] == ps[i].(slug := slugs[i])
  {
    seq(|ps|, i requires 0 <= i < |ps| => ps[i].(slug := slugs[i]))
  }

  function KeyUsed(ps: seq<Page>, key: string): (r: bool)
    ensures r <==> exists i :: 0 <= i < |ps| && ps[i].pageKey == key
  {
    if ps == [] then false
    else if ps[0].pageKey == key then true
    else
      assert forall i :: 1 <= i < |ps| ==> ps[i] == ps[1..][i - 1];
      KeyUsed(ps[1..], key)
  }

  /** The page table, which keeps its keys unique. */
  class PageTable {
    var pages: seq<Page>

    predicate Valid()
      reads this
    {
      KeysUnique(pages)
    }

    constructor()
      ensures pages == [] && Valid()
    {
      pages := [];
    }

    /** `create`: refused when the key is taken; the slug is computed from
        the name. */
    method Create(id: nat, name: string, title: string, pageKey: string) returns (r: Result<nat>)
      requires Valid()
      modifies this
      ensures Valid()
      ensures r.Err? <==> KeyUsed(old(pages), pageKey)
      ensures r.Err? ==> r.error == KeyTaken && pages == old(pages)
      ensures r.Ok? ==>
        r.value == |old(pages)| && pages == old(pages) + [Page(id, name, title, pageKey, SlugStore.NewSlug(name, None))]
    {
      if KeyUsed(pages, pageKey) {
        return Err(KeyTaken);
      }
      var slug := SlugStore.ComputeSlugs([name], [None]);
      pages := pages + [Page(id, name, title, pageKey, slug[0])];
      return Ok(|pages| - 1);
    }

    /** `_compute_slug` on every page. */
    method ComputeSlugs()
      requires Valid()
      modifies this
      ensures Valid()
      ensures pages == WithSlugs(old(pages), SlugStore.Recomputed(Names(old(pages)), Slugs(old(pages))))
    {
      var s := SlugStore.ComputeSlugs(Names(pages), Slugs(pages));
      pages := WithSlugs(pages, s);
    }

    /** In a valid table no two pages share a URL. */
    lemma UrlsDistinct(i: nat, j: nat)
      requires Valid() && i < j < |pages|
      ensures Url(pages[i]) != Url(pages[j])
    {
      if Url(pages[i]) == Url(pages[j]) {
        UrlInjective(pages[i], pages[j]);
      }
    }
  }
}
