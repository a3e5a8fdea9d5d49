// The listing pages of the shop and the blog: a search for one row more
// than a page holds, at offset (page - 1) * per-page, tells whether more
// pages follow.
module Paging {
  import opened Wrappers

  function Min(a: int, b: int): int {
    if a <= b then a else b
  }

  /** `search(domain, offset=offset, limit=count)` over the rows `all`
      in the search order. */
  function Window<T>(all: seq<T>, offset: nat, count: nat): (r: seq<T>)
    ensures |r| == Min(count, |all| - Min(offset, |all|))
  {
    all[Min(offset, |all|)..Min(offset + count, |all|)]
  }

  /** The offset of page `page`: `(page - 1) * perPage`. */
  function Offset(page: nat, perPage: nat): (r: nat)
    requires page > 0
    ensures r + perPage == page * perPage
  {
    (page - 1) * perPage
  }

  /** A page count of `ceil(shown / perPage)` for at most one page of rows. */
  lemma CeilOfOnePage(shown: nat, perPage: nat)
    requires 0 < perPage && shown <= perPage
    ensures (shown + perPage - 1) / perPage == (if shown == 0 then 0 else 1)
  {
    if shown > 0 {
      assert perPage <= shown + perPage - 1 < 2 * perPage;
    }
  }

  datatype Listing<T> = Listing(shown: seq<T>, hasMore: bool, pageCount: nat)

  /** The database refuses a negative offset, the result of page 0. */
  const NegativeOffset := "OFFSET must not be negative"

  /** The listing of page `page` with `perPage` rows a page: `perPage + 1`
      rows are fetched, the extra one only says that more follow, and the
      page count is taken from the rows shown. */
  function Paginate<T>(all: seq<T>, page: nat, perPage: nat): (r: Result<Listing<T>>)
    requires perPage > 0
    ensures r.Err? <==> page == 0
    ensures r.Ok? ==>
      var offset := Offset(page, perPage);
      && r.value.shown == Window(all, offset, perPage)
      && |r.value.shown| <= perPage
      && (r.value.hasMore <==> |all| > offset + perPage)
      && r.value.pageCount == (if r.value.shown == [] then 0 else 1)
  {
    if page == 0 then Err(NegativeOffset)
    else
      var offset := Offset(page, perPage);
      var fetched := Window(all, offset, perPage + 1);
      var hasMore := |fetched| > perPage;
      var shown := if hasMore then fetched[..|fetched| - 1] else fetched;
      assert shown == Window(all, offset, perPage);
      CeilOfOnePage(|shown|, perPage);
      Ok(Listing(shown, hasMore, (|shown| + perPage - 1) / perPage))
  }

  /** The rows of pages 1 to k, one after another. */
  function PagesUpTo<T>(all: seq<T>, k: nat, perPage: nat): seq<T>
    requires perPage > 0
  {
    if k == 0 then [] else PagesUpTo(all, k - 1, perPage) + Paginate(all, k, perPage).value.shown
  }

  /** Paging through the listing shows every row once, in order: pages 1 to
      k hold exactly the first k * perPage rows. */
  lemma {:induction false} PagesCover<T>(all: seq<T>, k: nat, perPage: nat)
    requires perPage > 0
    ensures PagesUpTo(all, k, perPage) == all[..Min(k * perPage, |all|)]
  {
    if k > 0 {
      PagesCover(all, k - 1, perPage);
      var o := Offset(k, perPage);
      if k > 1 {
        assert Offset(k - 1, perPage) + perPage == o;
      }
      assert all[..Min(o, |all|)] + all[Min(o, |all|)..Min(o + perPage, |all|)] == all[..Min(o + perPage, |all|)];
    }
  }

  /** A page is the last one exactly when it reaches the end of the rows. */
  lemma LastPage<T>(all: seq<T>, page: nat, perPage: nat)
    requires perPage > 0 && page > 0
    ensures !Paginate(all, page, perPage).value.hasMore <==> PagesUpTo(all, page, perPage) == all
  {
    PagesCover(all, page, perPage);
    if Min(page * perPage, |all|) < |all| {
      assert |PagesUpTo(all, page, perPage)| < |all|;
    }
  }
}
