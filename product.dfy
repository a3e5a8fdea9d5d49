// Shop products (`product.template` extended): the drop-map slug, the
// create/write defaults, the view counter and the recommendation search.
module ShopProduct {
  import SiteCommon
  import VietSlug

  /** The part of a product the shop logic reads and writes. Text fields
      left unset are "". */
  datatype Product = Product(
    id: nat,
    name: string,
    element: string,
    compatibleElements: string,
    websitePublished: bool,
    viewCount: int,
    slug: string)

  /** The values `create` passes on: the meta title defaults first, then the
      short description taken from the description. */
  function CreateVals(vals: map<string, string>): map<string, string> {
    SiteCommon.SummaryOnCreate(SiteCommon.MetaTitleOnCreate(vals), "short_description", "description")
  }

  /** A product created from a long description gets a short description of
      its first 150 characters and '...', and always a meta title. */
  lemma CreateFillsDefaults(vals: map<string, string>)
    requires SiteCommon.Get(vals, "short_description", "") == "" && SiteCommon.Get(vals, "description", "") != ""
    ensures var r := CreateVals(vals);
      && "meta_title" in r && "short_description" in r
      && r["short_description"] == SiteCommon.Truncated(vals["description"])
      && (|vals["description"]| > 150 ==> |r["short_description"]| == 153)
  {
    var m := SiteCommon.MetaTitleOnCreate(vals);
    assert SiteCommon.Get(m, "short_description", "") == "" && SiteCommon.Get(m, "description", "") == vals["description"];
  }

  /** The values `write` passes on. */
  function WriteVals(vals: map<string, string>): map<string, string> {
    SiteCommon.MetaTitleOnWrite(vals)
  }

  /** `get_element_color`. */
  function ElementColor(p: Product): string {
    SiteCommon.ElementColor(p.element)
  }

  /** The search domain of `get_recommended_products`. */
  predicate Recommendable(self: Product, p: Product) {
    && p.id != self.id
    && p.websitePublished
    && (p.element == self.element || p.compatibleElements == self.element || p.compatibleElements == "all")
  }

  function Matching(self: Product, catalogue: seq<Product>): (r: seq<Product>)
    ensures forall p :: p in r <==> p in catalogue && Recommendable(self, p)
  {
    if catalogue == [] then []
    else (if Recommendable(self, catalogue[0]) then [catalogue[0]] else []) + Matching(self, catalogue[1..])
  }

  /** `get_recommended_products(limit)` over the products in search order:
      nothing for a product without an element, otherwise the first `limit`
      products of the domain. */
  function Recommended(self: Product, catalogue: seq<Product>, limit: nat): (r: seq<Product>)
    ensures self.element == "" ==> r == []
    ensures |r| <= limit
    ensures forall p :: p in r ==> p in catalogue && Recommendable(self, p) && p.id != self.id
    ensures self.element != "" && |r| < limit ==> forall p :: p in catalogue && Recommendable(self, p) ==> p in r
    // the first `limit` matches, in search order
    ensures self.element != "" ==> r == var m := Matching(self, catalogue); if |m| <= limit then m else m[..limit]
  {
    if self.element == "" then []
    else
      var m := Matching(self, catalogue);
      var r := if |m| <= limit then m else m[..limit];
      assert forall p :: p in r ==> p in m;
      r
  }

  /** The matches of a catalogue are those of its first part, then those of
      the rest: the search keeps the catalogue's order. */
  lemma {:induction false} MatchingConcat(self: Product, a: seq<Product>, b: seq<Product>)
    ensures Matching(self, a + b) == Matching(self, a) + Matching(self, b)
  {
    if a != [] {
      assert (a + b)[0] == a[0];
      assert (a + b)[1..] == a[1..] + b;
      MatchingConcat(self, a[1..], b);
    } else {
      assert a + b == b;
    }
  }

  /** Products placed after `limit` matches never displace them: the
      recommendation of a longer catalogue is that of its first part. */
  lemma RecommendedKeepsEarlier(self: Product, a: seq<Product>, b: seq<Product>, limit: nat)
    requires |Matching(self, a)| >= limit
    ensures Recommended(self, a + b, limit) == Recommended(self, a, limit)
  {
    MatchingConcat(self, a, b);
    var m := Matching(self, a);
    assert (m + Matching(self, b))[..limit] == m[..limit];
  }

  /** The products table. */
  class ProductTable {
    var products: seq<Product>

    constructor(products: seq<Product>)
      ensures this.products == products
    {
      this.products := products;
    }

    /** `increment_view_count`: one more view, nothing else changes. */
    method IncrementViewCount(i: nat)
      requires i < |products|
      modifies this
      ensures products == old(products)[i := old(products)[i].(viewCount := old(products)[i].viewCount + 1)]
    {
      products := products[i := products[i].(viewCount := products[i].viewCount + 1)];
    }

    /** Recomputes the stored slug of every product from its name. */
    method ComputeSlugs()
      modifies this
      ensures |products| == |old(products)|
      ensures forall i :: 0 <= i < |products| ==>
        products[i] == old(products)[i].(slug := VietSlug.NameSlug(old(products)[i].name))
    {
      var k := 0;
      while k < |products|
        invariant 0 <= k <= |products| && |products| == |old(products)|
        invariant forall i :: 0 <= i < k ==> products[i] == old(products)[i].(slug := VietSlug.NameSlug(old(products)[i].name))
        invariant forall i :: k <= i < |products| ==> products[i] == old(products)[i]
      {
        products := products[k := products[k].(slug := VietSlug.NameSlug(products[k].name))];
        k := k + 1;
      }
    }
  }
}
