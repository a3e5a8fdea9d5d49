// The payment-state rank, Python's stable `sorted(..., key=...)` over
// `(rank, -newest, -id)` tuples, and the first-five cut shared by the
// partner and sale-order invoice lists.
module InvoiceOrder {
  import opened Wrappers
  import opened DateTimes

  /** What a date field of an invoice can hold: a `date`, a `datetime` or text. */
  datatype Stamp = OnDay(d: Day) | At(t: Moment) | Text(s: string)

  /** Python truthiness of a date field: `None`, `False` and `""` are falsy. */
  predicate Present(v: Option<Stamp>) {
    v.Some? && v.value != Text("")
  }

  /** `a or b or c ...` over date fields: the first truthy one, `None` when all are falsy. */
  function FirstPresent(vs: seq<Option<Stamp>>): (r: Option<Stamp>)
    ensures r.None? <==> forall i :: 0 <= i < |vs| ==> !Present(vs[i])
    ensures r.Some? ==> exists i :: (0 <= i < |vs| && Present(vs[i]) && vs[i] == r
                                     && forall j :: 0 <= j < i ==> !Present(vs[j]))
  {
    if vs == [] then None
    else if Present(vs[0]) then vs[0]
    else
      var r := FirstPresent(vs[1..]);
      assert forall i :: 1 <= i < |vs| ==> vs[i] == vs[1..][i - 1];
      r
  }

  /** An `account.move` as the invoice lists read it. */
  datatype Move = Move(
    id: nat,
    partnerId: nat,
    moveType: string,
    paymentState: Option<string>,
    invoiceDate: Option<Stamp>,
    date: Option<Stamp>,
    createDate: Option<Stamp>,
    writeDate: Option<Stamp>)

  /** `move_type in ["out_invoice", "out_refund", "out_receipt"]`. */
  predicate CustomerMove(m: Move) {
    m.moveType == "out_invoice" || m.moveType == "out_refund" || m.moveType == "out_receipt"
  }

  /** `PAYMENT_STATE_ORDER`: unpaid invoices first, cancelled ones last. */
  const PaymentStateOrder: map<string, nat> :=
    map["not_paid" := 0, "partial" := 1, "in_payment" := 2, "paid" := 3, "reversed" := 4, "cancel" := 5]

  /** `PAYMENT_STATE_ORDER.get(state or "", len(PAYMENT_STATE_ORDER))`; `None` is a falsy state. */
  function PaymentStateRank(state: Option<string>): (r: nat)
    ensures r <= 6
    ensures r == 6 <==> state.None? || state.value !in PaymentStateOrder
    ensures r < 6 ==> r == PaymentStateOrder[state.value]
  {
    var key := if state.None? then "" else state.value;
    if key in PaymentStateOrder then PaymentStateOrder[key] else 6
  }

  /** The six known states are ranked in the order the table lists them, and
      every unknown or missing state after all of them. */
  lemma RankOrder(unknown: Option<string>)
    requires unknown.None? || unknown.value !in PaymentStateOrder
    ensures PaymentStateRank(Some("not_paid")) < PaymentStateRank(Some("partial"))
    ensures PaymentStateRank(Some("partial")) < PaymentStateRank(Some("in_payment"))
    ensures PaymentStateRank(Some("in_payment")) < PaymentStateRank(Some("paid"))
    ensures PaymentStateRank(Some("paid")) < PaymentStateRank(Some("reversed"))
    ensures PaymentStateRank(Some("reversed")) < PaymentStateRank(Some("cancel"))
    ensures PaymentStateRank(Some("cancel")) < PaymentStateRank(unknown)
  {
  }

  /** Two different known states never share a rank. */
  lemma RankSeparatesKnownStates(a: string, b: string)
    requires a in PaymentStateOrder && b in PaymentStateOrder && a != b
    ensures PaymentStateRank(Some(a)) != PaymentStateRank(Some(b))
  {
  }

  /** A Python tuple `(rank, second, third)`, compared lexicographically. */
  datatype Key = Key(rank: int, second: int, third: int)

  predicate Less(a: Key, b: Key) {
    a.rank < b.rank || (a.rank == b.rank && (a.second < b.second || (a.second == b.second && a.third < b.third)))
  }

  predicate LessEq(a: Key, b: Key) {
    Less(a, b) || a == b
  }

  lemma LessEqTotal(a: Key, b: Key)
    ensures LessEq(a, b) || Less(b, a)
  {
  }

  predicate Sorted<T>(s: seq<T>, key: T -> Key) {
    forall i, j :: 0 <= i < j < |s| ==> LessEq(key(s[i]), key(s[j]))
  }

  /** Inserts `x` before the first element that is not smaller, so that it
      stays ahead of the equal elements that followed it. */
  function Insert<T>(x: T, s: seq<T>, key: T -> Key): (r: seq<T>)
    requires Sorted(s, key)
    ensures multiset(r) == multiset(s) + multiset{x}
    ensures Sorted(r, key)
  {
    if s == [] || !Less(key(s[0]), key(x)) then
      InsertFront(x, s, key);
      [x] + s
    else
      var t := Insert(x, s[1..], key);
      InsertBelow(s, x, t, key);
      [s[0]] + t
  }

  lemma InsertFront<T>(x: T, s: seq<T>, key: T -> Key)
    requires Sorted(s, key) && (s == [] || !Less(key(s[0]), key(x)))
    ensures Sorted([x] + s, key)
  {
    var r := [x] + s;
    forall i, j | 0 <= i < j < |r| ensures LessEq(key(r[i]), key(r[j])) {
      if i == 0 {
        assert LessEq(key(s[0]), key(s[j - 1]));
      } else {
        assert r[i] == s[i - 1] && r[j] == s[j - 1];
      }
    }
  }

  lemma InsertBelow<T>(s: seq<T>, x: T, t: seq<T>, key: T -> Key)
    requires s != [] && Sorted(s, key) && Less(key(s[0]), key(x))
    requires Sorted(t, key) && multiset(t) == multiset(s[1..]) + multiset{x}
    ensures Sorted([s[0]] + t, key) && multiset([s[0]] + t) == multiset(s) + multiset{x}
  {
    assert s == [s[0]] + s[1..];
    forall j | 0 <= j < |t| ensures LessEq(key(s[0]), key(t[j])) {
      assert t[j] in multiset(t);
      if t[j] != x {
        assert t[j] in multiset(s[1..]);
        var i :| 0 <= i < |s[1..]| && s[1..][i] == t[j];
        assert s[i + 1] == t[j];
      }
    }
    var r := [s[0]] + t;
    forall i, j | 0 <= i < j < |r| ensures LessEq(key(r[i]), key(r[j])) {
      assert r[j] == t[j - 1];
      if i > 0 {
        assert r[i] == t[i - 1];
      }
    }
  }

  /** Python's stable `sorted(s, key=key)`. */
  function SortBy<T>(s: seq<T>, key: T -> Key): (r: seq<T>)
    ensures multiset(r) == multiset(s)
    ensures Sorted(r, key)
  {
    if s == [] then []
    else
      assert s == [s[0]] + s[1..];
      Insert(s[0], SortBy(s[1..], key), key)
  }

  /** `s[:n]`. */
  function Take<T>(s: seq<T>, n: nat): (r: seq<T>)
    ensures |r| == if |s| <= n then |s| else n
    ensures r == s[..|r|]
  {
    if |s| <= n then s else s[..n]
  }

  /** `sorted(s, key=key)[:n]`: at most `n` elements of `s`, in key order, and no
      element left out sorts before any element kept. */
  lemma {:induction false} FirstOfSorted<T>(s: seq<T>, key: T -> Key, n: nat)
    ensures var r := Take(SortBy(s, key), n);
      && |r| == (if |s| <= n then |s| else n)
      && multiset(r) <= multiset(s)
      && Sorted(r, key)
      && forall x, y :: x in r && y in multiset(s) - multiset(r) ==> LessEq(key(x), key(y))
  {
    var t := SortBy(s, key);
    var r := Take(t, n);
    var k := |r|;
    SplitSorted(t, k, key);
    assert multiset(s) - multiset(r) == multiset(t[k..]);
  }

  /** A sorted sequence cut in two: the parts make up the whole, and every
      element of the first part sorts no later than any of the second. */
  lemma SplitSorted<T>(t: seq<T>, k: nat, key: T -> Key)
    requires Sorted(t, key) && k <= |t|
    ensures multiset(t) == multiset(t[..k]) + multiset(t[k..])
    ensures Sorted(t[..k], key)
    ensures forall x, y :: x in t[..k] && y in multiset(t[k..]) ==> LessEq(key(x), key(y))
  {
    assert t == t[..k] + t[k..];
    forall x, y | x in t[..k] && y in multiset(t[k..]) ensures LessEq(key(x), key(y)) {
      var i :| 0 <= i < k && t[..k][i] == x;
      var j :| 0 <= j < |t| - k && t[k..][j] == y;
      assert t[i] == x && t[k + j] == y;
    }
  }

  /** Keys that tell every element of `s` apart. */
  ghost predicate KeysDistinct<T>(s: seq<T>, key: T -> Key) {
    forall x, y :: x in s && y in s && key(x) == key(y) ==> x == y
  }

  lemma SortedHeadIsLeast<T>(a: seq<T>, x: T, key: T -> Key)
    requires Sorted(a, key) && x in multiset(a)
    ensures LessEq(key(a[0]), key(x))
  {
    var i :| 0 <= i < |a| && a[i] == x;
  }

  lemma DropHead<T>(a: seq<T>)
    requires a != []
    ensures multiset(a[1..]) == multiset(a) - multiset{a[0]}
  {
    assert a == [a[0]] + a[1..];
  }

  /** With distinct keys there is one sorted arrangement of a collection, so
      the result does not depend on the order the elements were given in. */
  lemma {:induction false} SortedUnique<T>(a: seq<T>, b: seq<T>, key: T -> Key)
    requires multiset(a) == multiset(b)
    requires Sorted(a, key) && Sorted(b, key) && KeysDistinct(a, key)
    ensures a == b
    decreases |a|
  {
    if a != [] {
      HeadsAgree(a, b, key);
      DropHead(a);
      DropHead(b);
      TailsKeep(a, key);
      TailsKeep(b, key);
      SortedUnique(a[1..], b[1..], key);
      ConsEqual(a, b);
    } else {
      assert |multiset(b)| == 0;
    }
  }

  lemma ConsEqual<T>(a: seq<T>, b: seq<T>)
    requires a != [] && b != [] && a[0] == b[0] && a[1..] == b[1..]
    ensures a == b
  {
    assert a == [a[0]] + a[1..] && b == [b[0]] + b[1..];
  }

  lemma HeadsAgree<T>(a: seq<T>, b: seq<T>, key: T -> Key)
    requires a != [] && multiset(a) == multiset(b)
    requires Sorted(a, key) && Sorted(b, key) && KeysDistinct(a, key)
    ensures b != [] && a[0] == b[0]
  {
    assert a[0] in multiset(b);
    SortedHeadIsLeast(a, b[0], key);
    SortedHeadIsLeast(b, a[0], key);
    assert b[0] in a by { assert b[0] in multiset(a); }
  }

  lemma TailsKeep<T>(a: seq<T>, key: T -> Key)
    requires a != [] && Sorted(a, key)
    ensures Sorted(a[1..], key)
    ensures KeysDistinct(a, key) ==> KeysDistinct(a[1..], key)
  {
    assert forall x :: x in a[1..] ==> x in a;
  }

  lemma SortByIgnoresInputOrder<T>(s: seq<T>, u: seq<T>, key: T -> Key)
    requires multiset(s) == multiset(u) && KeysDistinct(s, key)
    ensures SortBy(s, key) == SortBy(u, key)
  {
    var a := SortBy(s, key);
    assert forall x :: x in a ==> x in s by {
      forall x | x in a ensures x in s { assert x in multiset(a); }
    }
    SortedUnique(a, SortBy(u, key), key);
  }
}
