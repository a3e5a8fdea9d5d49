// The shop endpoints: the product listing, the element analysis of a
// product selection, the add-to-cart guard and the order-confirmation
// defaults.
module ShopController {
  import opened Wrappers
  import Text
  import Tally
  import Paging
  import LucKhiOrder

  const ProductsPerPage := 20

  /** `shop_listing`: page `page` of the matching products, in the search
      order the host applies. */
  function ShopListing<T>(products: seq<T>, page: nat): (r: Result<Paging.Listing<T>>)
    ensures r.Err? <==> page == 0
    ensures r.Ok? ==> |r.value.shown| <= ProductsPerPage && r.value.pageCount <= 1
    ensures r.Ok? ==> r.value.shown == Paging.Window(products, (page - 1) * ProductsPerPage, ProductsPerPage)
    ensures r.Ok? ==> (r.value.hasMore <==> |products| > (page - 1) * ProductsPerPage + ProductsPerPage)
  {
    Paging.Paginate(products, page, ProductsPerPage)
  }

  /** `element.code.lower()` for every code. */
  function LowerAll(codes: seq<string>): (r: seq<string>)
    ensures |r| == |codes| && forall i :: 0 <= i < |r| ==> r[i] == Text.Lower(codes[i])
  {
    seq(|codes|, i requires 0 <= i < |codes| => Text.Lower(codes[i]))
  }

  /** The lower-cased element codes of the selected products, in order. */
  function Codes(products: seq<seq<string>>): seq<string> {
    LowerAll(Tally.Flatten(products))
  }

  lemma LowerAllSnoc(codes: seq<string>, c: string)
    ensures LowerAll(codes + [c]) == LowerAll(codes) + [Text.Lower(c)]
  {
  }

  /** The loops of `luc_khi_analysis` over each product's element codes,
      lower-casing each code before it is counted. */
  method CountCodes(products: seq<seq<string>>) returns (items: seq<(string, nat)>)
    ensures items == Tally.Counted(Codes(products))
  {
    var codes: seq<string> := [];
    var g := 0;
    while g < |products|
      invariant 0 <= g <= |products|
      invariant codes == LowerAll(Tally.Flatten(products[..g]))
    {
      var c := 0;
      ghost var before := Tally.Flatten(products[..g]);
      while c < |products[g]|
        invariant 0 <= c <= |products[g]|
        invariant codes == LowerAll(before + products[g][..c])
      {
        LowerAllSnoc(before + products[g][..c], products[g][c]);
        assert before + products[g][..c + 1] == before + products[g][..c] + [products[g][c]];
        codes := codes + [Text.Lower(products[g][c])];
        c := c + 1;
      }
      assert products[g][..c] == products[g];
      Tally.FlattenStep(products, g);
      g := g + 1;
    }
    assert products[..g] == products;
    items := Tally.Count(codes);
  }

  function ElementName(code: string): string {
    if code == "kim" then "Kim (Kim loại)"
    else if code == "moc" then "Mộc (Cây cối)"
    else if code == "thuy" then "Thủy (Nước)"
    else if code == "hoa" then "Hỏa (Lửa)"
    else if code == "tho" then "Thổ (Đất)"
    else if code == "phong" then "Phong (Gió)"
    else code
  }

  function ElementDescription(code: string): string {
    if code == "kim" then "Bạn có xu hướng mạnh mẽ, quyết đoán và có khả năng tổ chức tốt."
    else if code == "moc" then "Bạn là người sáng tạo, linh hoạt và luôn hướng đến sự phát triển."
    else if code == "thuy" then "Bạn thông minh, có khả năng thích nghi tốt và giao tiếp khéo léo."
    else if code == "hoa" then "Bạn đầy năng lượng, đam mê và có khả năng truyền cảm hứng cho người khác."
    else if code == "tho" then "Bạn là người ổn định, đáng tin cậy và tạo được nền tảng vững chắc."
    else if code == "phong" then "Bạn yêu tự do, thích thay đổi và có khả năng kết nối tốt."
    else ""
  }

  /** One entry of `element_breakdown` (its percentage is not modelled). */
  datatype BreakdownEntry = BreakdownEntry(element: string, count: nat)

  /** `element_breakdown`: one entry per counted code, in count order. */
  function Breakdown(items: seq<(string, nat)>): (r: seq<BreakdownEntry>)
    ensures |r| == |items|
    ensures forall i :: 0 <= i < |r| ==> r[i] == BreakdownEntry(ElementName(items[i].0), items[i].1)
  {
    seq(|items|, i requires 0 <= i < |items| => BreakdownEntry(ElementName(items[i].0), items[i].1))
  }

  datatype AnalysisReply =
    | AnalysisError(error: string)
    | Analysed(dominant: string, counts: seq<(string, nat)>, dominantName: string,
               description: string, breakdown: seq<BreakdownEntry>)

  const NoProducts := "No products selected"
  const NoElements := "No Lục Khí elements found in selected products"

  /** What `luc_khi_analysis` answers for the element codes of the selected
      products (one sequence per product). */
  function AnalysisOf(products: seq<seq<string>>): AnalysisReply {
    if products == [] then AnalysisError(NoProducts)
    else
      var counts := Tally.Counted(Codes(products));
      if counts == [] then AnalysisError(NoElements)
      else
        var d := counts[Tally.FirstMax(counts)].0;
        Analysed(d, counts, ElementName(d), ElementDescription(d), Breakdown(counts))
  }

  /** `luc_khi_analysis`. */
  method LucKhiAnalysis(products: seq<seq<string>>) returns (reply: AnalysisReply)
    ensures reply == AnalysisOf(products)
  {
    if products == [] {
      return AnalysisError(NoProducts);
    }
    var counts := CountCodes(products);
    if counts == [] {
      return AnalysisError(NoElements);
    }
    var d := counts[Tally.FirstMax(counts)].0;
    reply := Analysed(d, counts, ElementName(d), ElementDescription(d), Breakdown(counts));
  }

  /** The analysis fails exactly when nothing was selected or no selected
      product has an element; otherwise every code is counted, the counts
      add up to the number of codes, the dominant code is the first with the
      largest count, and the breakdown has one entry per distinct code. */
  lemma AnalysisFacts(products: seq<seq<string>>)
    ensures AnalysisOf(products).AnalysisError? <==> products == [] || Codes(products) == []
    ensures AnalysisOf(products).Analysed? ==>
      var r := AnalysisOf(products);
      var m := Tally.FirstMax(r.counts);
      && r.dominant == r.counts[m].0 && r.dominant in Codes(products)
      && Tally.Total(r.counts) == |Codes(products)|
      && (forall i :: 0 <= i < |r.counts| ==> r.counts[i].1 == Tally.CountOf(Codes(products), r.counts[i].0) <= r.counts[m].1)
      && (forall i :: 0 <= i < m ==> r.counts[i].1 < r.counts[m].1)
      && |r.breakdown| == |Tally.FirstSeen(Codes(products))|
  {
    var codes := Codes(products);
    Tally.CountsAddUp(codes);
    Tally.CountedEntries(codes);
    if codes != [] {
      assert codes[0] in Tally.FirstSeen(codes);
    }
  }

  const ProductNotFound := "Product not found"

  /** The guard of `add_to_cart`: `published` maps each existing product to
      its `website_published` flag. */
  function AddToCartGuard(productId: nat, published: map<nat, bool>): (r: Result<nat>)
    ensures r.Ok? <==> productId in published && published[productId]
    ensures r.Ok? ==> r.value == productId
    ensures r.Err? ==> r.error == ProductNotFound
  {
    if productId !in published || !published[productId] then Err(ProductNotFound) else Ok(productId)
  }

  /** `confirm_order`: both Vietnamese invoice flags end up set, and nothing
      else changes. */
  method ConfirmOrder(order: LucKhiOrder.SaleOrder)
    modifies order
    ensures order.invoiceVat && order.electronicInvoice
    ensures order.analysis == old(order.analysis) && order.recommendations == old(order.recommendations)
  {
    if !order.invoiceVat {
      order.invoiceVat := true;
    }
    if !order.electronicInvoice {
      order.electronicInvoice := true;
    }
  }
}
