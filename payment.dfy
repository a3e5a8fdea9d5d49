// The VNPay and MoMo payment endpoints of the shop: the signing strings,
// the signature check on the VNPay return, and the redirect each return
// decides on. HMAC-SHA512, HMAC-SHA256 and URL encoding are parameters.
module Payment {
  import opened Wrappers
  import Text

  /** A Python dict of text parameters as its items; keys are distinct. */
  type Params = seq<(string, string)>

  predicate DistinctKeys(p: Params) {
    forall i, j :: 0 <= i < j < |p| ==> p[i].0 != p[j].0
  }

  /** Keys in strictly increasing order. */
  predicate KeySorted(p: Params) {
    forall i, j :: 0 <= i < j < |p| ==> Text.Less(p[i].0, p[j].0)
  }

  /** `dict.get(key)`. */
  function Lookup(p: Params, key: string): (r: Option<string>)
    ensures r.Some? ==> (key, r.value) in p
    ensures r.None? ==> forall i :: 0 <= i < |p| ==> p[i].0 != key
  {
    if p == [] then None else if p[0].0 == key then Some(p[0].1) else Lookup(p[1..], key)
  }

  /** With distinct keys, the entry for a key is the one `Lookup` finds. */
  lemma {:induction false} LookupFinds(p: Params, key: string, v: string)
    requires DistinctKeys(p) && (key, v) in p
    ensures Lookup(p, key) == Some(v)
  {
    if p[0] != (key, v) {
      assert p[0].0 != key by {
        var i :| 0 <= i < |p| && p[i] == (key, v);
      }
      assert (key, v) in p[1..];
      LookupFinds(p[1..], key, v);
    }
  }

  /** The items without the one for `key`. */
  function Remove(p: Params, key: string): (r: Params)
    ensures forall x :: multiset(r)[x] == (if x.0 == key then 0 else multiset(p)[x])
    ensures forall y :: y in r <==> y in p && y.0 != key
  {
    if p == [] then []
    else
      assert p == [p[0]] + p[1..];
      (if p[0].0 == key then [] else [p[0]]) + Remove(p[1..], key)
  }

  /** `get.pop(key, '')`: the popped value and the remaining items. */
  function Pop(p: Params, key: string): (string, Params) {
    (Lookup(p, key).GetOr(""), Remove(p, key))
  }

  /** Inserting one item into key-sorted items. */
  function Insert(x: (string, string), s: Params): (r: Params)
    requires KeySorted(s) && forall i :: 0 <= i < |s| ==> s[i].0 != x.0
    ensures KeySorted(r) && multiset(r) == multiset(s) + multiset{x}
    ensures forall y :: y in r <==> y == x || y in s
  {
    if s == [] then [x]
    else if Text.Less(x.0, s[0].0) then
      forall j | 0 <= j < |s| ensures Text.Less(x.0, s[j].0) {
        if j > 0 { Text.LessTransitive(x.0, s[0].0, s[j].0); }
      }
      [x] + s
    else
      Text.LessTotal(x.0, s[0].0);
      var rest := Insert(x, s[1..]);
      assert s == [s[0]] + s[1..];
      forall y | y in rest ensures Text.Less(s[0].0, y.0) {
        if y != x {
          var j :| 0 <= j < |s[1..]| && s[1..][j] == y;
          assert s[j + 1] == y;
        }
      }
      [s[0]] + rest
  }

  /** `sorted(params.items())` for distinct keys. */
  function SortByKey(p: Params): (r: Params)
    requires DistinctKeys(p)
    ensures KeySorted(r) && multiset(r) == multiset(p)
  {
    if p == [] then []
    else
      assert p == [p[0]] + p[1..];
      var rest := SortByKey(p[1..]);
      forall i | 0 <= i < |rest| ensures rest[i].0 != p[0].0 {
        assert rest[i] in multiset(p[1..]);
      }
      Insert(p[0], rest)
  }

  /** Two key-sorted item lists with the same items are the same list. */
  lemma {:induction false} SortedUnique(a: Params, b: Params)
    requires KeySorted(a) && KeySorted(b) && multiset(a) == multiset(b)
    ensures a == b
  {
    if a != [] {
      assert a[0] in multiset(b) && b != [];
      assert b[0] in multiset(a);
      if a[0] != b[0] {
        var i :| 0 <= i < |a| && a[i] == b[0];
        var j :| 0 <= j < |b| && b[j] == a[0];
        Text.LessTransitive(a[0].0, b[0].0, a[0].0);
        Text.LessIrreflexive(a[0].0);
      }
      assert a == [a[0]] + a[1..] && b == [b[0]] + b[1..];
      assert multiset(a[1..]) == multiset(a) - multiset{a[0]};
      assert multiset(b[1..]) == multiset(b) - multiset{b[0]};
      SortedUnique(a[1..], b[1..]);
    }
  }

  /** The items as `key=value` texts. */
  function Pairs(p: Params): (r: seq<string>)
    ensures |r| == |p| && forall i :: 0 <= i < |p| ==> r[i] == p[i].0 + "=" + p[i].1
  {
    seq(|p|, i requires 0 <= i < |p| => p[i].0 + "=" + p[i].1)
  }

  /** The hash input: the items sorted by key, as `key=value` joined by '&'. */
  function HashData(p: Params): string
    requires DistinctKeys(p)
  {
    Text.Join(Pairs(SortByKey(p)), "&")
  }

  /** The hash input does not depend on the order the parameters come in. */
  lemma HashDataIgnoresOrder(p: Params, q: Params)
    requires DistinctKeys(p) && DistinctKeys(q) && multiset(p) == multiset(q)
    ensures HashData(p) == HashData(q)
  {
    SortedUnique(SortByKey(p), SortByKey(q));
  }

  /** Parameters already in key order are hashed in that order. */
  lemma HashDataOfSorted(p: Params)
    requires DistinctKeys(p) && KeySorted(p)
    ensures HashData(p) == Text.Join(Pairs(p), "&")
  {
    SortedUnique(SortByKey(p), p);
  }

  /** Where a payment endpoint redirects, and the message it leaves in the
      session. */
  datatype Message = NoMessage | ErrorMessage(text: string) | SuccessMessage(text: string)
  datatype Redirect = Redirect(url: string, message: Message)

  /** The end of a return endpoint: `Crashed` when the request ends on an
      unexpected exception (`int(order_id)` raising, or the payment record
      built after a confirmation), `Refused` when `action_confirm` raises its
      `UserError`; in both the request rolls back and nothing is committed.
      `confirmed` is the order `action_confirm` moved to the state `sale`,
      if any. */
  datatype ReturnOutcome = Crashed | Refused(error: string) | Returned(redirect: Redirect, confirmed: Option<int>)

  /** An existing sale order as a return endpoint sees it. */
  datatype OrderRow = OrderRow(name: string, state: string)

  /** `_can_be_confirmed` of `sale.order`: a quotation, sent or not. */
  predicate CanConfirm(o: OrderRow) {
    o.state == "draft" || o.state == "sent"
  }

  const NotConfirmable := "The following orders are not in a state requiring confirmation: "

  /** The cart order a create endpoint reads. */
  datatype CartOrder = CartOrder(id: nat, name: string)

  /** `get_param(key, default)`: the stored value, or `default` when none
      is stored or the stored one is empty (`value or default`). */
  function ConfigParam(config: map<string, string>, key: string, default: string): (r: string)
    ensures key in config && config[key] != "" ==> r == config[key]
    ensures key !in config || config[key] == "" ==> r == default
  {
    if key in config && config[key] != "" then config[key] else default
  }

  const HashKey := "vnp_SecureHash"
  const VnpayNotConfigured := "VNPay chưa được cấu hình"
  const BadSignature := "Chữ ký không hợp lệ"
  const OrderMissing := "Đơn hàng không tồn tại"
  const PaymentDone := "Thanh toán thành công!"
  const PaymentFailed := "Thanh toán thất bại"
  const DefaultVnpayUrl := "https://sandbox.vnpayment.vn/paymentv2/vpcpay.html"

  /** The parameters of a VNPay payment request, as `vnp_Params` is built;
      `amount` is `int(amount_total * 100)`. */
  function VnpParams(tmnCode: string, order: CartOrder, amount: int, returnUrl: string,
                     ipAddr: string, createDate: string): (r: Params)
    ensures DistinctKeys(r)
    ensures forall i :: 0 <= i < |r| ==> r[i].0 != HashKey
  {
    [("vnp_Version", "2.1.0"), ("vnp_Command", "pay"), ("vnp_TmnCode", tmnCode),
     ("vnp_Amount", Text.IntToString(amount)), ("vnp_CurrCode", "VND"),
     ("vnp_TxnRef", Text.NatToString(order.id)), ("vnp_OrderInfo", "Thanh toan don hang " + order.name),
     ("vnp_OrderType", "billpayment"), ("vnp_Locale", "vn"), ("vnp_ReturnUrl", returnUrl),
     ("vnp_IpAddr", ipAddr), ("vnp_CreateDate", createDate)]
  }

  /** The sorted parameters with the signature added last. */
  function Signed(p: Params, secret: string, hmac: (string, string) -> string): Params
    requires DistinctKeys(p)
  {
    SortByKey(p) + [(HashKey, hmac(secret, HashData(p)))]
  }

  const VnpayReturnPath := "shop/payment/vnpay/return"

  /** The three VNPay settings `vnpay_create_payment` reads, or `None`
      when one of them is empty. */
  function VnpayConfig(config: map<string, string>): (r: Option<(string, string, string)>)
    ensures r.None? <==> (ConfigParam(config, "luc_khi_shop.vnpay_tmn_code", "") == ""
                          || ConfigParam(config, "luc_khi_shop.vnpay_hash_secret", "") == ""
                          || ConfigParam(config, "luc_khi_shop.vnpay_url", DefaultVnpayUrl) == "")
    ensures r.Some? ==> r.value == (ConfigParam(config, "luc_khi_shop.vnpay_tmn_code", ""),
                                    ConfigParam(config, "luc_khi_shop.vnpay_hash_secret", ""),
                                    ConfigParam(config, "luc_khi_shop.vnpay_url", DefaultVnpayUrl))
  {
    var tmnCode := ConfigParam(config, "luc_khi_shop.vnpay_tmn_code", "");
    var secret := ConfigParam(config, "luc_khi_shop.vnpay_hash_secret", "");
    var url := ConfigParam(config, "luc_khi_shop.vnpay_url", DefaultVnpayUrl);
    if tmnCode == "" || secret == "" || url == "" then None else Some((tmnCode, secret, url))
  }

  /** `vnpay_create_payment`: missing configuration is an error; otherwise
      the redirect carries the sorted request parameters and their signature. */
  function VnpayCreate(order: Option<CartOrder>, config: map<string, string>, hostUrl: string, ipAddr: string,
                       createDate: string, amount: int, hmac: (string, string) -> string,
                       urlencode: Params -> string): (r: Redirect)
    ensures order.None? ==> r == Redirect("/shop/cart", NoMessage)
    ensures order.Some? && VnpayConfig(config).None? ==> r == Redirect("/shop/payment", ErrorMessage(VnpayNotConfigured))
    ensures order.Some? && VnpayConfig(config).Some? ==>
      var (tmnCode, secret, url) := VnpayConfig(config).value;
      r == Redirect(url + "?" + urlencode(Signed(VnpParams(tmnCode, order.value, amount, hostUrl + VnpayReturnPath,
                                                           ipAddr, createDate), secret, hmac)), NoMessage)
  {
    match order
    case None => Redirect("/shop/cart", NoMessage)
    case Some(o) =>
      match VnpayConfig(config)
      case None => Redirect("/shop/payment", ErrorMessage(VnpayNotConfigured))
      case Some((tmnCode, secret, url)) =>
        var params := VnpParams(tmnCode, o, amount, hostUrl + VnpayReturnPath, ipAddr, createDate);
        Redirect(url + "?" + urlencode(Signed(params, secret, hmac)), NoMessage)
  }

  /** The check of `vnpay_return`: the popped signature against the HMAC
      of the remaining parameters. */
  predicate SignatureValid(get: Params, secret: string, hmac: (string, string) -> string)
    requires DistinctKeys(get)
  {
    DistinctAfterRemove(get, HashKey);
    Pop(get, HashKey).0 == hmac(secret, HashData(Pop(get, HashKey).1))
  }

  /** `int(get.get(key))`: `None` where it raises on a missing or
      malformed value. */
  function OrderRef(get: Params, key: string): (r: Option<int>)
    ensures Lookup(get, key).None? ==> r.None?
    ensures Lookup(get, key).Some? ==> r == Text.PyInt(Lookup(get, key).value)
  {
    match Lookup(get, key)
    case None => None
    case Some(ref) => Text.PyInt(ref)
  }

  /** The part both return endpoints share once the order id is read: a
      missing order is an error, a success code confirms the order (when
      `action_confirm` accepts its state) and any other code is a failure.
      After a confirmation the endpoint looks for an `account.payment.method`
      with its code; `methodExists` says whether one is found. Building the
      payment record then reads `payment_method.journal_id`, a field that
      model does not have, so the request ends on that error and the
      confirmation is rolled back. */
  function Settle(orders: map<int, OrderRow>, id: int, success: bool, methodExists: bool): (r: ReturnOutcome)
    ensures id !in orders ==> r == Returned(Redirect("/shop", ErrorMessage(OrderMissing)), None)
    ensures id in orders && !success ==> r == Returned(Redirect("/shop/payment", ErrorMessage(PaymentFailed)), None)
    ensures id in orders && success && CanConfirm(orders[id]) && !methodExists ==>
      r == Returned(Redirect("/shop/confirmation", SuccessMessage(PaymentDone)), Some(id))
    ensures id in orders && success && CanConfirm(orders[id]) && methodExists ==> r == Crashed
    ensures id in orders && success && !CanConfirm(orders[id]) ==> r == Refused(NotConfirmable + orders[id].name)
    // an order is confirmed only by a success code for a quotation, when no payment method is found
    ensures r.Returned? && r.confirmed.Some? <==> id in orders && success && CanConfirm(orders[id]) && !methodExists
  {
    if id !in orders then Returned(Redirect("/shop", ErrorMessage(OrderMissing)), None)
    else if !success then Returned(Redirect("/shop/payment", ErrorMessage(PaymentFailed)), None)
    else if !CanConfirm(orders[id]) then Refused(NotConfirmable + orders[id].name)
    else if methodExists then Crashed
    else Returned(Redirect("/shop/confirmation", SuccessMessage(PaymentDone)), Some(id))
  }

  /** `vnpay_return`: the signature is checked first; then the order id is
      read and the response code decides. `orders` are the existing orders
      by id; `methodExists` says whether an `account.payment.method` with
      code `vnpay` exists. */
  function VnpayReturn(get: Params, secret: string, orders: map<int, OrderRow>, hmac: (string, string) -> string, methodExists: bool): (r: ReturnOutcome)
    requires DistinctKeys(get)
    ensures !SignatureValid(get, secret, hmac) ==> r == Returned(Redirect("/shop/payment", ErrorMessage(BadSignature)), None)
    ensures SignatureValid(get, secret, hmac) && OrderRef(get, "vnp_TxnRef").None? ==> r == Crashed
    ensures SignatureValid(get, secret, hmac) && OrderRef(get, "vnp_TxnRef").Some? ==>
      r == Settle(orders, OrderRef(get, "vnp_TxnRef").value, Lookup(get, "vnp_ResponseCode") == Some("00"), methodExists)
  {
    if !SignatureValid(get, secret, hmac) then Returned(Redirect("/shop/payment", ErrorMessage(BadSignature)), None)
    else
      var rest := Remove(get, HashKey);
      assert Lookup(rest, "vnp_ResponseCode") == Lookup(get, "vnp_ResponseCode") by {
        LookupRemoved(get, HashKey, "vnp_ResponseCode");
      }
      assert Lookup(rest, "vnp_TxnRef") == Lookup(get, "vnp_TxnRef") by {
        LookupRemoved(get, HashKey, "vnp_TxnRef");
      }
      match Lookup(rest, "vnp_TxnRef")
      case None => Crashed
      case Some(ref) =>
        match Text.PyInt(ref)
        case None => Crashed
        case Some(id) => Settle(orders, id, Lookup(rest, "vnp_ResponseCode") == Some("00"), methodExists)
  }

  /** The return of a payment VNPay signed with the shared secret, carrying
      code 00 for a quotation, confirms that order, whatever order the
      parameters come back in, unless a `vnpay` payment method exists: then
      the payment record fails and the confirmation is rolled back. */
  lemma SignedSuccessConfirms(p: Params, secret: string, hmac: (string, string) -> string, get: Params,
                              orders: map<int, OrderRow>, id: nat, methodExists: bool)
    requires DistinctKeys(p) && forall i :: 0 <= i < |p| ==> p[i].0 != HashKey
    requires DistinctKeys(get) && multiset(get) == multiset(Signed(p, secret, hmac))
    requires ("vnp_TxnRef", Text.NatToString(id)) in p && ("vnp_ResponseCode", "00") in p
    requires id in orders && CanConfirm(orders[id])
    ensures !methodExists ==>
      VnpayReturn(get, secret, orders, hmac, methodExists) == Returned(Redirect("/shop/confirmation", SuccessMessage(PaymentDone)), Some(id))
    ensures methodExists ==> VnpayReturn(get, secret, orders, hmac, methodExists) == Crashed
  {
    SignedVerifies(p, secret, hmac, get);
    SignedLookup(p, secret, hmac, get, "vnp_TxnRef", Text.NatToString(id));
    SignedLookup(p, secret, hmac, get, "vnp_ResponseCode", "00");
    Text.PyIntOfNat(id);
    assert OrderRef(get, "vnp_TxnRef") == Some(id);
  }

  /** Every signed parameter comes back under its key. */
  lemma SignedLookup(p: Params, secret: string, hmac: (string, string) -> string, get: Params, key: string, v: string)
    requires DistinctKeys(p)
    requires DistinctKeys(get) && multiset(get) == multiset(Signed(p, secret, hmac))
    requires (key, v) in p
    ensures Lookup(get, key) == Some(v)
  {
    assert (key, v) in multiset(p);
    assert multiset(Signed(p, secret, hmac)) == multiset(SortByKey(p)) + multiset{(HashKey, hmac(secret, HashData(p)))};
    assert (key, v) in multiset(get);
    LookupFinds(get, key, v);
  }

  /** A second return for an order already confirmed ends on the error of
      `action_confirm`. */
  lemma ConfirmedTwiceRefused(orders: map<int, OrderRow>, id: int, methodExists: bool)
    requires id in orders && orders[id].state == "sale"
    ensures Settle(orders, id, true, methodExists) == Refused(NotConfirmable + orders[id].name)
  {
  }

  /** Removing one key leaves the lookups of the others alone. */
  lemma {:induction false} LookupRemoved(p: Params, key: string, other: string)
    requires key != other
    ensures Lookup(Remove(p, key), other) == Lookup(p, other)
  {
    if p != [] {
      LookupRemoved(p[1..], key, other);
      if p[0].0 == key {
        assert Remove(p, key) == Remove(p[1..], key);
      } else {
        assert Remove(p, key) == [p[0]] + Remove(p[1..], key);
      }
    }
  }

  lemma {:induction false} DistinctAfterRemove(p: Params, key: string)
    requires DistinctKeys(p)
    ensures DistinctKeys(Remove(p, key))
  {
    if p != [] {
      assert DistinctKeys(p[1..]) by {
        forall i, j | 0 <= i < j < |p[1..]| ensures p[1..][i].0 != p[1..][j].0 {
          assert p[1..][i] == p[i + 1] && p[1..][j] == p[j + 1];
        }
      }
      DistinctAfterRemove(p[1..], key);
      var rest := Remove(p[1..], key);
      forall y | y in rest ensures y.0 != p[0].0 {
        var j :| 0 <= j < |p[1..]| && p[1..][j] == y;
        assert p[j + 1] == y;
      }
    }
  }

  /** Popping the signature from any reordering of a signed parameter set
      gives back the signature and the parameters. */
  lemma PopSigned(p: Params, secret: string, hmac: (string, string) -> string, get: Params)
    requires DistinctKeys(p) && forall i :: 0 <= i < |p| ==> p[i].0 != HashKey
    requires DistinctKeys(get) && multiset(get) == multiset(Signed(p, secret, hmac))
    ensures Pop(get, HashKey).0 == hmac(secret, HashData(p))
    ensures multiset(Pop(get, HashKey).1) == multiset(p)
  {
    var h := hmac(secret, HashData(p));
    var signed := Signed(p, secret, hmac);
    assert multiset(signed) == multiset(p) + multiset{(HashKey, h)};
    assert (HashKey, h) in multiset(get);
    LookupFinds(get, HashKey, h);
    var rest := Remove(get, HashKey);
    forall x ensures multiset(rest)[x] == multiset(p)[x] {
      if x.0 == HashKey {
        assert x !in p;
      }
    }
    assert multiset(rest) == multiset(p);
  }

  /** A signed parameter set passes the return check, whatever order the
      parameters come back in. */
  lemma SignedVerifies(p: Params, secret: string, hmac: (string, string) -> string, get: Params)
    requires DistinctKeys(p) && forall i :: 0 <= i < |p| ==> p[i].0 != HashKey
    requires DistinctKeys(get) && multiset(get) == multiset(Signed(p, secret, hmac))
    ensures SignatureValid(get, secret, hmac)
  {
    PopSigned(p, secret, hmac, get);
    DistinctAfterRemove(get, HashKey);
    HashDataIgnoresOrder(Remove(get, HashKey), p);
  }

  const MomoNotConfigured := "MoMo chưa được cấu hình"
  const MomoFailed := "Lỗi thanh toán MoMo"
  const MomoUnreachable := "Lỗi kết nối MoMo"

  /** The `raw_signature` f-string of `momo_create_payment`: ten
      `name=value` pieces, `extraData` empty, joined by '&'. */
  function RawSignature(accessKey: string, amount: string, ipnUrl: string, orderId: string, orderInfo: string,
                        partnerCode: string, redirectUrl: string, requestId: string, requestType: string): string {
    Text.Join(["accessKey=" + accessKey, "amount=" + amount, "extraData=", "ipnUrl=" + ipnUrl,
               "orderId=" + orderId, "orderInfo=" + orderInfo, "partnerCode=" + partnerCode,
               "redirectUrl=" + redirectUrl, "requestId=" + requestId, "requestType=" + requestType], "&")
  }

  /** The signed fields of a MoMo request, in the order of the raw signature. */
  function MomoFields(accessKey: string, amount: string, ipnUrl: string, orderId: string, orderInfo: string,
                      partnerCode: string, redirectUrl: string, requestId: string, requestType: string): Params {
    [("accessKey", accessKey), ("amount", amount), ("extraData", ""), ("ipnUrl", ipnUrl),
     ("orderId", orderId), ("orderInfo", orderInfo), ("partnerCode", partnerCode),
     ("redirectUrl", redirectUrl), ("requestId", requestId), ("requestType", requestType)]
  }

  /** Key-sorted items have distinct keys. */
  lemma SortedDistinct(p: Params)
    requires KeySorted(p)
    ensures DistinctKeys(p)
  {
    forall i, j | 0 <= i < j < |p| ensures p[i].0 != p[j].0 {
      Text.LessIrreflexive(p[i].0);
    }
  }

  /** Two key-sorted item lists, all keys of the first before the first
      key of the second, join into key-sorted items. */
  lemma ConcatSorted(a: Params, b: Params)
    requires KeySorted(a) && KeySorted(b)
    requires a != [] && b != [] && Text.Less(a[|a| - 1].0, b[0].0)
    ensures KeySorted(a + b)
  {
    var q := a + b;
    forall i, j | 0 <= i < j < |q| ensures Text.Less(q[i].0, q[j].0) {
      if i < |a| && j >= |a| {
        if i < |a| - 1 { Text.LessTransitive(q[i].0, a[|a| - 1].0, b[0].0); }
        if j > |a| {
          if i < |a| - 1 { Text.LessTransitive(q[i].0, b[0].0, q[j].0); }
          else { Text.LessTransitive(q[i].0, b[0].0, q[j].0); }
        }
      }
    }
  }

  /** The first five MoMo field names in increasing order. */
  lemma MomoHeadSorted(accessKey: string, amount: string, ipnUrl: string, orderId: string)
    ensures KeySorted([("accessKey", accessKey), ("amount", amount), ("extraData", ""), ("ipnUrl", ipnUrl), ("orderId", orderId)])
  {
    var p := [("accessKey", accessKey), ("amount", amount), ("extraData", ""), ("ipnUrl", ipnUrl), ("orderId", orderId)];
    assert Text.Less("accessKey", "amount") by { Text.LessAfterPrefix("a", "ccessKey", "mount"); assert "a" + "ccessKey" == "accessKey" && "a" + "mount" == "amount"; }
    assert Text.Less("amount", "extraData") && Text.Less("extraData", "ipnUrl") && Text.Less("ipnUrl", "orderId");
    Text.LessTransitive("accessKey", "amount", "extraData");
    Text.LessTransitive("amount", "extraData", "ipnUrl");
    Text.LessTransitive("extraData", "ipnUrl", "orderId");
    Text.LessTransitive("accessKey", "extraData", "ipnUrl");
    Text.LessTransitive("amount", "ipnUrl", "orderId");
    Text.LessTransitive("accessKey", "ipnUrl", "orderId");
  }

  lemma RedirectBeforeRequest()
    ensures Text.Less("redirectUrl", "requestId")
  {
    Text.LessAfterPrefix("re", "directUrl", "questId");
    assert "re" + "directUrl" == "redirectUrl" && "re" + "questId" == "requestId";
  }

  lemma RequestIdBeforeType()
    ensures Text.Less("requestId", "requestType")
  {
    Text.LessAfterPrefix("request", "Id", "Type");
    assert "request" + "Id" == "requestId" && "request" + "Type" == "requestType";
  }

  /** The last five MoMo field names in increasing order. */
  lemma MomoTailSorted(orderInfo: string, partnerCode: string, redirectUrl: string, requestId: string, requestType: string)
    ensures KeySorted([("orderInfo", orderInfo), ("partnerCode", partnerCode), ("redirectUrl", redirectUrl),
                       ("requestId", requestId), ("requestType", requestType)])
  {
    assert Text.Less("orderInfo", "partnerCode") && Text.Less("partnerCode", "redirectUrl");
    RedirectBeforeRequest();
    RequestIdBeforeType();
    Text.LessTransitive("orderInfo", "partnerCode", "redirectUrl");
    Text.LessTransitive("partnerCode", "redirectUrl", "requestId");
    Text.LessTransitive("redirectUrl", "requestId", "requestType");
    Text.LessTransitive("orderInfo", "redirectUrl", "requestId");
    Text.LessTransitive("partnerCode", "requestId", "requestType");
    Text.LessTransitive("orderInfo", "requestId", "requestType");
  }

  /** The MoMo field names are listed in increasing order. */
  lemma MomoFieldsSorted(accessKey: string, amount: string, ipnUrl: string, orderId: string, orderInfo: string,
                         partnerCode: string, redirectUrl: string, requestId: string, requestType: string)
    ensures var f := MomoFields(accessKey, amount, ipnUrl, orderId, orderInfo, partnerCode, redirectUrl, requestId, requestType);
      KeySorted(f) && DistinctKeys(f)
  {
    var head := [("accessKey", accessKey), ("amount", amount), ("extraData", ""), ("ipnUrl", ipnUrl), ("orderId", orderId)];
    var tail := [("orderInfo", orderInfo), ("partnerCode", partnerCode), ("redirectUrl", redirectUrl),
                 ("requestId", requestId), ("requestType", requestType)];
    MomoHeadSorted(accessKey, amount, ipnUrl, orderId);
    MomoTailSorted(orderInfo, partnerCode, redirectUrl, requestId, requestType);
    assert Text.Less("orderId", "orderInfo") by {
      Text.LessAfterPrefix("order", "Id", "Info");
      assert "order" + "Id" == "orderId" && "order" + "Info" == "orderInfo";
    }
    ConcatSorted(head, tail);
    assert head + tail == MomoFields(accessKey, amount, ipnUrl, orderId, orderInfo, partnerCode, redirectUrl, requestId, requestType);
    SortedDistinct(head + tail);
  }

  lemma MomoPairs(accessKey: string, amount: string, ipnUrl: string, orderId: string, orderInfo: string,
                  partnerCode: string, redirectUrl: string, requestId: string, requestType: string)
    ensures Pairs(MomoFields(accessKey, amount, ipnUrl, orderId, orderInfo, partnerCode, redirectUrl, requestId, requestType))
      == ["accessKey=" + accessKey, "amount=" + amount, "extraData=", "ipnUrl=" + ipnUrl,
               "orderId=" + orderId, "orderInfo=" + orderInfo, "partnerCode=" + partnerCode,
               "redirectUrl=" + redirectUrl, "requestId=" + requestId, "requestType=" + requestType]
  {
    var p := Pairs(MomoFields(accessKey, amount, ipnUrl, orderId, orderInfo, partnerCode, redirectUrl, requestId, requestType));
    assert "accessKey" + "=" == "accessKey=";
    assert p[0] == "accessKey=" + accessKey;
    assert "amount" + "=" == "amount=";
    assert p[1] == "amount=" + amount;
    assert "extraData" + "=" == "extraData=";
    assert p[2] == "extraData=";
    assert "ipnUrl" + "=" == "ipnUrl=";
    assert p[3] == "ipnUrl=" + ipnUrl;
    assert "orderId" + "=" == "orderId=";
    assert p[4] == "orderId=" + orderId;
    assert "orderInfo" + "=" == "orderInfo=";
    assert p[5] == "orderInfo=" + orderInfo;
    assert "partnerCode" + "=" == "partnerCode=";
    assert p[6] == "partnerCode=" + partnerCode;
    assert "redirectUrl" + "=" == "redirectUrl=";
    assert p[7] == "redirectUrl=" + redirectUrl;
    assert "requestId" + "=" == "requestId=";
    assert p[8] == "requestId=" + requestId;
    assert "requestType" + "=" == "requestType=";
    assert p[9] == "requestType=" + requestType;
  }

  /** The raw signature is the sorted `key=value` join of its fields, the
      rule of the VNPay hash input. */
  lemma RawSignatureIsSorted(accessKey: string, amount: string, ipnUrl: string, orderId: string, orderInfo: string,
                             partnerCode: string, redirectUrl: string, requestId: string, requestType: string)
    ensures RawSignature(accessKey, amount, ipnUrl, orderId, orderInfo, partnerCode, redirectUrl, requestId, requestType)
         == HashData(MomoFields(accessKey, amount, ipnUrl, orderId, orderInfo, partnerCode, redirectUrl, requestId, requestType))
  {
    var f := MomoFields(accessKey, amount, ipnUrl, orderId, orderInfo, partnerCode, redirectUrl, requestId, requestType);
    MomoFieldsSorted(accessKey, amount, ipnUrl, orderId, orderInfo, partnerCode, redirectUrl, requestId, requestType);
    HashDataOfSorted(f);
    MomoPairs(accessKey, amount, ipnUrl, orderId, orderInfo, partnerCode, redirectUrl, requestId, requestType);
  }

  /** The request body `momo_create_payment` posts. */
  datatype MomoRequest = MomoRequest(
    partnerCode: string, accessKey: string, requestId: string, amount: string, orderId: string,
    orderInfo: string, redirectUrl: string, ipnUrl: string, extraData: string, requestType: string,
    signature: string, lang: string)

  /** The part of MoMo's JSON answer that is read. */
  datatype MomoResponse = MomoResponse(resultCode: Option<int>, payUrl: string, message: Option<string>)

  const MomoEndpointKey := "luc_khi_shop.momo_endpoint"
  const MomoPartnerKey := "luc_khi_shop.momo_partner_code"
  const MomoAccessKey := "luc_khi_shop.momo_access_key"
  const MomoSecretKey := "luc_khi_shop.momo_secret_key"
  const MomoReturnPath := "shop/payment/momo/return"
  const MomoOrderInfo := "Thanh toan don hang "
  const CaptureWallet := "captureWallet"

  /** The body `momo_create_payment` posts for an order, signed with the
      secret key over the raw signature. */
  function MomoRequestFor(o: CartOrder, partnerCode: string, accessKey: string, secret: string, hostUrl: string,
                          timestamp: int, amount: int, hmac: (string, string) -> string): (d: MomoRequest)
    ensures d.signature == hmac(secret, HashData(MomoFields(d.accessKey, d.amount, d.ipnUrl, d.orderId, d.orderInfo,
                                                            d.partnerCode, d.redirectUrl, d.requestId, d.requestType)))
    ensures d.partnerCode == partnerCode && d.accessKey == accessKey && d.extraData == ""
    ensures d.orderId == Text.NatToString(o.id)
    ensures d.amount == Text.IntToString(amount)
    ensures d.redirectUrl == d.ipnUrl == hostUrl + MomoReturnPath
    ensures d.requestId == Text.NatToString(o.id) + Text.IntToString(timestamp)
    ensures d.orderInfo == MomoOrderInfo + o.name
    ensures d.requestType == CaptureWallet && d.lang == "vi"
  {
    var returnUrl := hostUrl + MomoReturnPath;
    var requestId := Text.NatToString(o.id) + Text.IntToString(timestamp);
    var orderInfo := MomoOrderInfo + o.name;
    var amountText := Text.IntToString(amount);
    var orderId := Text.NatToString(o.id);
    var raw := RawSignature(accessKey, amountText, returnUrl, orderId, orderInfo, partnerCode, returnUrl, requestId, CaptureWallet);
    RawSignatureIsSorted(accessKey, amountText, returnUrl, orderId, orderInfo, partnerCode, returnUrl, requestId, CaptureWallet);
    MomoRequest(partnerCode, accessKey, requestId, amountText, orderId, orderInfo, returnUrl,
                returnUrl, "", CaptureWallet, hmac(secret, raw), "vi")
  }

  /** The four MoMo settings `momo_create_payment` reads (endpoint,
      partner code, access key, secret key), or `None` when one is empty. */
  function MomoConfig(config: map<string, string>): (r: Option<(string, string, string, string)>)
    ensures r.None? <==> (ConfigParam(config, MomoEndpointKey, "") == "" || ConfigParam(config, MomoPartnerKey, "") == ""
                          || ConfigParam(config, MomoAccessKey, "") == "" || ConfigParam(config, MomoSecretKey, "") == "")
    ensures r.Some? ==> r.value == (ConfigParam(config, MomoEndpointKey, ""), ConfigParam(config, MomoPartnerKey, ""),
                                    ConfigParam(config, MomoAccessKey, ""), ConfigParam(config, MomoSecretKey, ""))
  {
    var endpoint := ConfigParam(config, MomoEndpointKey, "");
    var partnerCode := ConfigParam(config, MomoPartnerKey, "");
    var accessKey := ConfigParam(config, MomoAccessKey, "");
    var secret := ConfigParam(config, MomoSecretKey, "");
    if endpoint == "" || partnerCode == "" || accessKey == "" || secret == "" then None
    else Some((endpoint, partnerCode, accessKey, secret))
  }

  /** `momo_create_payment`. `amount` is `int(amount_total)`, `timestamp`
      the current Unix time in whole seconds, and `post` the HTTP call and
      the JSON decoding of its answer, whose `None` is an exception. */
  function MomoCreate(order: Option<CartOrder>, config: map<string, string>, hostUrl: string, timestamp: int,
                      amount: int, hmac: (string, string) -> string,
                      post: (string, MomoRequest) -> Option<MomoResponse>): (r: Redirect)
    ensures order.None? ==> r == Redirect("/shop/cart", NoMessage)
    ensures order.Some? && MomoConfig(config).None? ==> r == Redirect("/shop/payment", ErrorMessage(MomoNotConfigured))
    ensures order.Some? && MomoConfig(config).Some? ==>
      var (endpoint, partnerCode, accessKey, secret) := MomoConfig(config).value;
      var answer := post(endpoint, MomoRequestFor(order.value, partnerCode, accessKey, secret, hostUrl, timestamp, amount, hmac));
      && (answer.None? ==> r == Redirect("/shop/payment", ErrorMessage(MomoUnreachable)))
      && (answer.Some? && answer.value.resultCode == Some(0) ==> r == Redirect(answer.value.payUrl, NoMessage))
      && (answer.Some? && answer.value.resultCode != Some(0) ==>
            r == Redirect("/shop/payment", ErrorMessage(answer.value.message.GetOr(MomoFailed))))
  {
    match order
    case None => Redirect("/shop/cart", NoMessage)
    case Some(o) =>
      match MomoConfig(config)
      case None => Redirect("/shop/payment", ErrorMessage(MomoNotConfigured))
      case Some((endpoint, partnerCode, accessKey, secret)) =>
        match post(endpoint, MomoRequestFor(o, partnerCode, accessKey, secret, hostUrl, timestamp, amount, hmac))
        case None => Redirect("/shop/payment", ErrorMessage(MomoUnreachable))
        case Some(resp) =>
          if resp.resultCode == Some(0) then Redirect(resp.payUrl, NoMessage)
          else Redirect("/shop/payment", ErrorMessage(resp.message.GetOr(MomoFailed)))
  }

  /** `momo_return`: only `orderId` and `resultCode` are read, and no
      signature is checked; `methodExists` says whether an
      `account.payment.method` with code `momo` exists. */
  function MomoReturn(get: Params, orders: map<int, OrderRow>, methodExists: bool): (r: ReturnOutcome)
    ensures OrderRef(get, "orderId").None? ==> r == Crashed
    ensures OrderRef(get, "orderId").Some? ==>
      r == Settle(orders, OrderRef(get, "orderId").value, Lookup(get, "resultCode") == Some("0"), methodExists)
  {
    match Lookup(get, "orderId")
    case None => Crashed
    case Some(ref) =>
      match Text.PyInt(ref)
      case None => Crashed
      case Some(id) => Settle(orders, id, Lookup(get, "resultCode") == Some("0"), methodExists)
  }

  /** Nothing but `orderId` and `resultCode` matters on the MoMo return: any
      request carrying the code '0' for an existing order confirms it, with
      or without a signature. */
  lemma MomoReturnUnverified(get: Params, other: Params, orders: map<int, OrderRow>, methodExists: bool)
    requires Lookup(get, "orderId") == Lookup(other, "orderId")
    requires Lookup(get, "resultCode") == Lookup(other, "resultCode")
    ensures MomoReturn(get, orders, methodExists) == MomoReturn(other, orders, methodExists)
  {
  }

  /** A forged return for an existing quotation is confirmed, unless a
      `momo` payment method exists: then the payment record fails and the
      confirmation is rolled back. */
  lemma MomoForgedReturnConfirms(id: nat, orders: map<int, OrderRow>, signature: string, methodExists: bool)
    requires id in orders && CanConfirm(orders[id])
    ensures !methodExists ==>
      MomoReturn([("orderId", Text.NatToString(id)), ("resultCode", "0"), ("signature", signature)], orders, methodExists)
      == Returned(Redirect("/shop/confirmation", SuccessMessage(PaymentDone)), Some(id))
    ensures methodExists ==>
      MomoReturn([("orderId", Text.NatToString(id)), ("resultCode", "0"), ("signature", signature)], orders, methodExists)
      == Crashed
  {
    var get := [("orderId", Text.NatToString(id)), ("resultCode", "0"), ("signature", signature)];
    assert Lookup(get, "orderId") == Some(Text.NatToString(id));
    assert Lookup(get, "resultCode") == Some("0");
    Text.PyIntOfNat(id);
  }
}
