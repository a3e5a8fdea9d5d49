// Sale orders of the shop (`sale.order` extended): the Vietnamese address,
// the element analysis run on confirmation, the recommendation HTML and the
// per-line benefit onchange.
module LucKhiOrder {
  import opened Wrappers
  import Text
  import Tally

  /** The shipping partner's fields the address reads; a missing country is `None`. */
  datatype Shipping = Shipping(street: string, country: Option<string>)

  /** The parts `_compute_vietnam_address` collects, in order, skipping
      missing ones. */
  function AddressParts(shipping: Shipping, ward: string, district: string, province: Option<string>): (r: seq<string>)
    ensures |r| == (if shipping.street != "" then 1 else 0) + (if ward != "" then 1 else 0)
      + (if district != "" then 1 else 0) + (if province.Some? then 1 else 0) + (if shipping.country.Some? then 1 else 0)
    ensures shipping.street != "" ==> r[0] == shipping.street
  {
    (if shipping.street != "" then [shipping.street] else []) + AfterStreet(ward, district, province, shipping.country)
  }

  function AfterStreet(ward: string, district: string, province: Option<string>, country: Option<string>): (r: seq<string>)
    ensures |r| == (if ward != "" then 1 else 0) + (if district != "" then 1 else 0)
      + (if province.Some? then 1 else 0) + (if country.Some? then 1 else 0)
  {
    (if ward != "" then ["Phường/Xã " + ward] else [])
    + (if district != "" then ["Quận/Huyện " + district] else [])
    + (if province.Some? then [province.value] else [])
    + (if country.Some? then [country.value] else [])
  }

  /** `customer_address_vietnam`: '' without a shipping partner. */
  function VietnamAddress(shipping: Option<Shipping>, ward: string, district: string, province: Option<string>): string {
    match shipping
    case None => ""
    case Some(s) => Text.Join(AddressParts(s, ward, district, province), ", ")
  }

  /** With every part present the address reads street, ward, district,
      province, country. */
  lemma FullAddress(street: string, ward: string, district: string, province: string, country: string)
    requires street != "" && ward != "" && district != ""
    ensures VietnamAddress(Some(Shipping(street, Some(country))), ward, district, Some(province)) ==
      street + ", Phường/Xã " + ward + ", Quận/Huyện " + district + ", " + province + ", " + country
  {
    var parts := AddressParts(Shipping(street, Some(country)), ward, district, Some(province));
    assert parts == [street, "Phường/Xã " + ward, "Quận/Huyện " + district, province, country];
    JoinFive(street, "Phường/Xã " + ward, "Quận/Huyện " + district, province, country, ", ");
    assert ", " + "Phường/Xã " == ", Phường/Xã ";
    assert ", " + "Quận/Huyện " == ", Quận/Huyện ";
  }

  lemma JoinFive(a: string, b: string, c: string, d: string, e: string, sep: string)
    ensures Text.Join([a, b, c, d, e], sep) == a + sep + b + sep + c + sep + d + sep + e
  {
    assert Text.Join([d, e], sep) == d + sep + e by { assert [d, e][1..] == [e]; }
    assert Text.Join([c, d, e], sep) == c + sep + (d + sep + e) by { assert [c, d, e][1..] == [d, e]; }
    assert Text.Join([b, c, d, e], sep) == b + sep + (c + sep + (d + sep + e)) by {
      assert [b, c, d, e][1..] == [c, d, e];
    }
    assert Text.Join([a, b, c, d, e], sep) == a + sep + (b + sep + (c + sep + (d + sep + e))) by {
      assert [a, b, c, d, e][1..] == [b, c, d, e];
    }
  }

  /** A partner with only a street gets just the street; none at all gets ''. */
  lemma SparseAddress(street: string)
    ensures VietnamAddress(Some(Shipping(street, None)), "", "", None) == street
    ensures VietnamAddress(Some(Shipping("", None)), "", "", None) == ""
    ensures VietnamAddress(None, "x", "y", Some("z")) == ""
  {
    if street != "" {
      assert AddressParts(Shipping(street, None), "", "", None) == [street];
    }
  }

  /** The address starts with the street whenever there is one. */
  lemma AddressStartsWithStreet(s: Shipping, ward: string, district: string, province: Option<string>)
    requires s.street != ""
    ensures Text.StartsWith(VietnamAddress(Some(s), ward, district, province), s.street)
  {
    Text.JoinStartsWithFirst(AddressParts(s, ward, district, province), ", ");
  }

  /** The elements of the order lines' products, skipping lines without one
      ("" is a product without an element). */
  function LineElements(lines: seq<string>): (r: seq<string>)
    ensures forall e :: e in r <==> e in lines && e != ""
    ensures |r| <= |lines|
  {
    if lines == [] then []
    else (if lines[0] != "" then [lines[0]] else []) + LineElements(lines[1..])
  }

  /** What `_generate_luc_khi_analysis` reports: the dominant element and the
      count per element in order of first appearance. */
  datatype Analysis = Analysis(dominant: string, counts: seq<(string, nat)>)

  /** One entry of the recommendation table. */
  datatype Advice = Advice(title: string, products: seq<string>, advice: string)

  const KimAdvice := Advice(
    "Yếu tố Kim - Cần sự cân bằng với Mộc và Thủy",
    ["Sản phẩm gỗ mộc", "Đồ trang trí nước", "Vật dụng kim loại tinh xảo"],
    "Người có yếu tố Kim mạnh nên bổ sung các yếu tố Mộc để tăng sự sáng tạo và Thủy để tăng sự linh hoạt.")

  const MocAdvice := Advice(
    "Yếu tố Mộc - Cần sự hỗ trợ từ Thổ và Hỏa",
    ["Đồ gốm sứ", "Sản phẩm ánh sáng", "Vật liệu tự nhiên"],
    "Người có yếu tố Mộc mạnh nên bổ sung Thổ để tạo nền tảng vững chắc và Hỏa để tăng năng lượng.")

  const ThuyAdvice := Advice(
    "Yếu tố Thủy - Cần sự cân bằng với Kim và Mộc",
    ["Đồ kim loại", "Sản phẩm gỗ", "Vật dụng trang trí"],
    "Người có yếu tố Thủy mạnh nên bổ sung Kim để tăng sự quyết đoán và Mộc để phát triển.")

  const HoaAdvice := Advice(
    "Yếu tố Hỏa - Cần sự hỗ trợ từ Thổ và Kim",
    ["Đồ gốm", "Sản phẩm kim loại", "Vật liệu cách nhiệt"],
    "Người có yếu tố Hỏa mạnh nên bổ sung Thổ để ổn định và Kim để tăng sự tập trung.")

  const ThoAdvice := Advice(
    "Yếu tố Thổ - Cần sự cân bằng với Kim và Mộc",
    ["Đồ kim loại", "Sản phẩm gỗ", "Vật liệu tự nhiên"],
    "Người có yếu tố Thổ mạnh nên bổ sung Kim để tăng sự linh hoạt và Mộc để phát triển.")

  const PhongAdvice := Advice(
    "Yếu tố Phong - Cần sự hỗ trợ từ tất cả các yếu tố",
    ["Sản phẩm đa dạng", "Bộ sưu tập", "Vật dụng trang trí"],
    "Người có yếu tố Phong mạnh nên cân bằng tất cả các yếu tố khác để tạo sự hài hòa.")

  predicate IsElement(e: string) {
    e == "kim" || e == "moc" || e == "thuy" || e == "hoa" || e == "tho" || e == "phong"
  }

  function AdviceFor(element: string): (r: Option<Advice>)
    ensures r.Some? <==> IsElement(element)
    ensures r.Some? ==> |r.value.products| == 3
  {
    if element == "kim" then Some(KimAdvice)
    else if element == "moc" then Some(MocAdvice)
    else if element == "thuy" then Some(ThuyAdvice)
    else if element == "hoa" then Some(HoaAdvice)
    else if element == "tho" then Some(ThoAdvice)
    else if element == "phong" then Some(PhongAdvice)
    else None
  }

  const Header := "<h4>Gợi ý sản phẩm dựa trên yếu tố Lục Khí của bạn</h4>"

  /** One `<li>` per product, in order. */
  function ListItems(products: seq<string>): string {
    if products == [] then "" else ListItems(products[..|products| - 1]) + "<li>" + products[|products| - 1] + "</li>"
  }

  /** `html` holds `<li>product</li>` somewhere. */
  ghost predicate Listed(html: string, product: string) {
    exists a, b :: html == a + "<li>" + product + "</li>" + b
  }

  /** Every product of the list appears as its own item. */
  lemma {:induction false} ItemListed(products: seq<string>, i: nat)
    requires i < |products|
    ensures Listed(ListItems(products), products[i])
  {
    var init := products[..|products| - 1];
    if i == |products| - 1 {
      assert ListItems(products) == ListItems(init) + "<li>" + products[i] + "</li>" + "";
    } else {
      ItemListed(init, i);
      var a, b :| ListItems(init) == a + "<li>" + init[i] + "</li>" + b;
      var tail := b + "<li>" + products[|products| - 1] + "</li>";
      assert ListItems(products) == a + "<li>" + products[i] + "</li>" + tail;
    }
  }

  /** The text `_generate_luc_khi_recommendations` builds from a table entry. */
  function AdviceHtml(rec: Option<Advice>): string {
    match rec
    case None => Header
    case Some(r) =>
      Header + "<p><strong>" + r.title + "</strong></p>" + "<p>" + r.advice + "</p>"
        + "<h5>Sản phẩm gợi ý:</h5><ul>" + ListItems(r.products) + "</ul>"
  }

  /** The text of `_generate_luc_khi_recommendations(element)`. */
  function RecommendationHtml(element: string): string {
    AdviceHtml(AdviceFor(element))
  }

  /** `_generate_luc_khi_recommendations` for the entry `rec` of the
      table, appending item by item. */
  method BuildRecommendations(rec: Option<Advice>) returns (html: string)
    ensures html == AdviceHtml(rec)
  {
    html := Header;
    if rec.Some? {
      var r := rec.value;
      html := html + "<p><strong>" + r.title + "</strong></p>";
      html := html + "<p>" + r.advice + "</p>";
      html := html + "<h5>Sản phẩm gợi ý:</h5><ul>";
      ghost var start := html;
      var k := 0;
      while k < |r.products|
        invariant 0 <= k <= |r.products|
        invariant html == start + ListItems(r.products[..k])
      {
        assert r.products[..k + 1][..k] == r.products[..k];
        html := html + "<li>" + r.products[k] + "</li>";
        k := k + 1;
      }
      assert r.products[..k] == r.products;
      html := html + "</ul>";
    }
  }

  /** A table entry's text starts with the header and its title. */
  lemma AdviceStartsWithTitle(r: Advice)
    ensures Text.StartsWith(AdviceHtml(Some(r)), Header + "<p><strong>" + r.title + "</strong></p>")
  {
    var head := Header + "<p><strong>" + r.title + "</strong></p>";
    var rest := "<p>" + r.advice + "</p>" + "<h5>Sản phẩm gợi ý:</h5><ul>" + ListItems(r.products) + "</ul>";
    assert AdviceHtml(Some(r)) == head + rest;
    assert (head + rest)[..|head|] == head;
  }

  /** A table entry's text lists every suggested product as its own item. */
  lemma AdviceListsProducts(r: Advice, i: nat)
    requires i < |r.products|
    ensures Listed(AdviceHtml(Some(r)), r.products[i])
  {
    var head := Header + "<p><strong>" + r.title + "</strong></p>" + "<p>" + r.advice + "</p>" + "<h5>Sản phẩm gợi ý:</h5><ul>";
    assert AdviceHtml(Some(r)) == head + ListItems(r.products) + "</ul>";
    ItemListed(r.products, i);
    ListedInside(head, ListItems(r.products), "</ul>", r.products[i]);
  }

  /** An item stays listed whatever text surrounds it. */
  lemma ListedInside(pre: string, mid: string, post: string, product: string)
    requires Listed(mid, product)
    ensures Listed(pre + mid + post, product)
  {
    var a, b :| mid == a + "<li>" + product + "</li>" + b;
    assert pre + mid + post == (pre + a) + "<li>" + product + "</li>" + (b + post);
  }

  /** An unknown element gets only the header; a known one gets its title
      after the header and an item per suggested product. */
  lemma RecommendationContent(element: string)
    ensures !IsElement(element) ==> RecommendationHtml(element) == Header
    ensures IsElement(element) ==>
      && Text.StartsWith(RecommendationHtml(element), Header + "<p><strong>" + AdviceFor(element).value.title + "</strong></p>")
      && forall i :: 0 <= i < |AdviceFor(element).value.products| ==>
           Listed(RecommendationHtml(element), AdviceFor(element).value.products[i])
  {
    if IsElement(element) {
      var r := AdviceFor(element).value;
      AdviceStartsWithTitle(r);
      forall i | 0 <= i < |r.products| ensures Listed(RecommendationHtml(element), r.products[i]) {
        AdviceListsProducts(r, i);
      }
    }
  }

  /** The order fields the shop logic writes. */
  class SaleOrder {
    var analysis: Option<Analysis>
    var recommendations: string
    var invoiceVat: bool
    var electronicInvoice: bool

    /** A new order: no analysis yet, and both invoice flags on by default. */
    constructor()
      ensures analysis.None? && recommendations == ""
      ensures invoiceVat && electronicInvoice
    {
      analysis := None;
      recommendations := "";
      invoiceVat := true;
      electronicInvoice := true;
    }

    /** `_analyze_luc_khi_profile` over the element of each line's product:
        nothing changes when no line has an element; otherwise the first
        element with the largest count is dominant. */
    method AnalyzeProfile(lines: seq<string>)
      modifies this
      ensures invoiceVat == old(invoiceVat) && electronicInvoice == old(electronicInvoice)
      ensures var counts := Tally.Counted(LineElements(lines));
        && (counts == [] ==> analysis == old(analysis) && recommendations == old(recommendations))
        && (counts != [] ==>
              var d := counts[Tally.FirstMax(counts)].0;
              analysis == Some(Analysis(d, counts)) && recommendations == RecommendationHtml(d))
    {
      if lines == [] {
        return;
      }
      var elements: seq<string> := [];
      var k := 0;
      while k < |lines|
        invariant 0 <= k <= |lines|
        invariant elements == LineElements(lines[..k])
        invariant analysis == old(analysis) && recommendations == old(recommendations)
        invariant invoiceVat == old(invoiceVat) && electronicInvoice == old(electronicInvoice)
      {
        LineElementsSnoc(lines[..k], lines[k]);
        assert lines[..k + 1] == lines[..k] + [lines[k]];
        if lines[k] != "" {
          elements := elements + [lines[k]];
        }
        k := k + 1;
      }
      assert lines[..k] == lines;
      var counts := Tally.Count(elements);
      assert counts == Tally.Counted(LineElements(lines));
      if counts != [] {
        var dominant := counts[Tally.FirstMax(counts)].0;
        analysis := Some(Analysis(dominant, counts));
        recommendations := BuildRecommendations(AdviceFor(dominant));
      }
    }
  }

  lemma {:induction false} LineElementsSnoc(lines: seq<string>, e: string)
    ensures LineElements(lines + [e]) == LineElements(lines) + (if e != "" then [e] else [])
    decreases |lines|
  {
    if lines == [] {
      assert ([] + [e])[1..] == [];
    } else {
      assert (lines + [e])[1..] == lines[1..] + [e];
      LineElementsSnoc(lines[1..], e);
    }
  }

  /** The analysis facts: each element's count is the number of lines
      carrying it, the counts add up to the lines with an element, and the
      dominant element has the largest count, earlier elements strictly less. */
  lemma AnalysisFacts(lines: seq<string>)
    requires Tally.Counted(LineElements(lines)) != []
    ensures var elements := LineElements(lines);
      var counts := Tally.Counted(elements);
      var m := Tally.FirstMax(counts);
      && Tally.Total(counts) == |elements|
      && counts[m].0 in lines && counts[m].0 != ""
      && (forall i :: 0 <= i < |counts| ==> counts[i].1 == Tally.CountOf(elements, counts[i].0) > 0 && counts[i].1 <= counts[m].1)
      && (forall i :: 0 <= i < m ==> counts[i].1 < counts[m].1)
  {
    var elements := LineElements(lines);
    Tally.CountsAddUp(elements);
    Tally.CountedEntries(elements);
  }

  /** The benefits of `_onchange_product_id_luc_khi`. */
  function BenefitOf(element: string): (r: string)
    ensures r != "" <==> IsElement(element)
  {
    if element == "kim" then "Tăng cường sự quyết đoán, tổ chức và khả năng lãnh đạo"
    else if element == "moc" then "Thúc đẩy sự sáng tạo, phát triển và linh hoạt"
    else if element == "thuy" then "Cải thiện sự thông minh, thích nghi và giao tiếp"
    else if element == "hoa" then "Tăng năng lượng, đam mê và khả năng truyền cảm hứng"
    else if element == "tho" then "Tạo sự ổn định, vững chãi và nền tảng"
    else if element == "phong" then "Thúc đẩy sự tự do, thay đổi và kết nối"
    else ""
  }

  /** A line's benefit after its product changes: `product` is the new
      product's element (`Some("")` for a product without one). */
  function OnchangeBenefit(current: string, product: Option<string>): (r: string)
    ensures product.None? || product.value == "" ==> r == current
    ensures product.Some? && product.value != "" ==> r == BenefitOf(product.value)
  {
    match product
    case None => current
    case Some(e) => if e != "" then BenefitOf(e) else current
  }
}
