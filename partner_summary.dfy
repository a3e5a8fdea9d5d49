// The summary fields of a contact: its latest sale orders, invoices,
// deliveries and purchases with their totals, and the invoices of the
// contacts it is related to. The host's `search` is a filter over a table
// listed in the order the search asks for; its `read_group` is a count per
// partner.
module PartnerSummary {
  import opened Wrappers
  import opened DateTimes
  import opened InvoiceOrder
  import PartnerRelation

  /** The date `_invoice_sort_key` orders by: `invoice_date or date or
      create_date or write_date`, reduced to a date, and today when none is
      set. `None` where `fields.Date.to_date` raises on unreadable text. */
  function SortDay(m: Move, today: Day): (r: Option<Day>)
    ensures !Present(m.invoiceDate) && !Present(m.date) && !Present(m.createDate) && !Present(m.writeDate) ==>
      r == Some(today)
    ensures m.invoiceDate.Some? && m.invoiceDate.value.OnDay? ==> r == Some(m.invoiceDate.value.d)
    ensures m.invoiceDate.Some? && m.invoiceDate.value.At? ==> r.Some? && r.value == DateOf(m.invoiceDate.value.t)
  {
    match FirstPresent([m.invoiceDate, m.date, m.createDate, m.writeDate])
    case None => Some(today)
    case Some(OnDay(d)) => Some(d)
    case Some(At(t)) => var d: Day := DateOf(t); Some(d)
    case Some(Text(s)) => ParseDay(s)
  }

  /** `_invoice_sort_key`: `(rank, -ordinal, -id)`. The day number is only a
      filler where `SortDay` fails, since `Recent` then raises. */
  function PartnerKey(m: Move, today: Day): Key {
    Key(PaymentStateRank(m.paymentState), -EpochDay(SortDay(m, today).GetOr(today)), -(m.id as int))
  }

  /** The key puts lower payment ranks first, then newer dates, then higher ids. */
  lemma PartnerKeyOrder(a: Move, b: Move, today: Day)
    requires SortDay(a, today).Some? && SortDay(b, today).Some?
    ensures PaymentStateRank(a.paymentState) < PaymentStateRank(b.paymentState) ==>
      Less(PartnerKey(a, today), PartnerKey(b, today))
    ensures (PaymentStateRank(a.paymentState) == PaymentStateRank(b.paymentState)
             && DayBefore(SortDay(b, today).value, SortDay(a, today).value)) ==>
      Less(PartnerKey(a, today), PartnerKey(b, today))
    ensures (PaymentStateRank(a.paymentState) == PaymentStateRank(b.paymentState)
             && SortDay(a, today) == SortDay(b, today) && a.id > b.id) ==>
      Less(PartnerKey(a, today), PartnerKey(b, today))
  {
    var da := SortDay(a, today).value;
    var db := SortDay(b, today).value;
    if DayBefore(db, da) {
      EpochDayMonotone(db, da);
    }
  }

  /** `sorted(invoices, key=_invoice_sort_key)[:5]`; it raises as soon as one
      key cannot be computed. */
  function Recent(found: seq<Move>, today: Day): (r: Result<seq<Move>>)
    ensures r.Err? <==> exists m :: m in found && SortDay(m, today).None?
    ensures r.Ok? ==> r.value == Take(SortBy(found, m => PartnerKey(m, today)), 5)
  {
    if forall m :: m in found ==> SortDay(m, today).Some? then
      Ok(Take(SortBy(found, m => PartnerKey(m, today)), 5))
    else
      Err("time data does not match format '%Y-%m-%d'")
  }

  /** What `Recent` keeps: at most five of the invoices found, in key order,
      none of those left out sorting before one kept. */
  lemma RecentIsFirstFive(found: seq<Move>, today: Day)
    requires Recent(found, today).Ok?
    ensures var r := Recent(found, today).value;
      && |r| == (if |found| <= 5 then |found| else 5)
      && multiset(r) <= multiset(found)
      && Sorted(r, m => PartnerKey(m, today))
      && forall x, y :: x in r && y in multiset(found) - multiset(r) ==>
           LessEq(PartnerKey(x, today), PartnerKey(y, today))
  {
    FirstOfSorted(found, m => PartnerKey(m, today), 5);
  }

  /** What the invoice computations need of `Recent`: at most five records,
      all of them found. */
  lemma RecentKept(found: seq<Move>, today: Day, recent: seq<Move>)
    requires Recent(found, today) == Ok(recent)
    ensures |recent| <= 5 && |recent| <= |found|
    ensures forall m :: m in recent ==> m in found
  {
    RecentIsFirstFive(found, today);
    KeptWereFound(recent, found);
  }

  lemma TakeKeeps(s: seq<Move>, n: nat)
    ensures |Take(s, n)| <= |s|
    ensures forall m :: m in Take(s, n) ==> m in s
  {
    var t := Take(s, n);
    forall m | m in t ensures m in s {
      var i :| 0 <= i < |t| && t[i] == m;
      assert s[i] == m;
    }
  }

  lemma KeptWereFound(recent: seq<Move>, found: seq<Move>)
    requires multiset(recent) <= multiset(found)
    ensures forall m :: m in recent ==> m in found
  {
    forall m | m in recent ensures m in found { assert m in multiset(recent); }
  }

  /** Invoices have distinct ids, so the invoices kept do not depend on the
      order the search returned them in. */
  lemma RecentIgnoresSearchOrder(found: seq<Move>, other: seq<Move>, today: Day)
    requires multiset(found) == multiset(other)
    requires forall x, y :: x in found && y in found && x.id == y.id ==> x == y
    ensures Recent(found, today) == Recent(other, today)
  {
    assert forall m :: m in found <==> m in other by {
      forall m ensures m in found <==> m in other {
        assert m in found <==> m in multiset(found);
        assert m in other <==> m in multiset(other);
      }
    }
    if Recent(found, today).Ok? {
      SortByIgnoresInputOrder(found, other, m => PartnerKey(m, today));
    }
  }

  /** A computed pair of fields: the records shown and the total count. */
  datatype Summary<T> = Summary(recent: seq<T>, total: nat)

  /** A sale order, delivery or purchase order, as far as the contact's lists read it. */
  datatype Doc = Doc(id: nat, partnerId: nat)

  /** `search([("partner_id", "=", p)])` over a table in search order. */
  function DocsOf(docs: seq<Doc>, p: nat): (r: seq<Doc>)
    ensures forall d :: d in r <==> d in docs && d.partnerId == p
  {
    if docs == [] then []
    else (if docs[0].partnerId == p then [docs[0]] else []) + DocsOf(docs[1..], p)
  }

  /** Customer moves of the partners in `ids`, in search order. */
  function MovesOf(moves: seq<Move>, ids: set<nat>): (r: seq<Move>)
    ensures forall m :: m in r <==> m in moves && CustomerMove(m) && m.partnerId in ids
    ensures |r| <= |moves|
  {
    if moves == [] then []
    else
      (if CustomerMove(moves[0]) && moves[0].partnerId in ids then [moves[0]] else []) + MovesOf(moves[1..], ids)
  }

  /** `{partner: count}` from `read_group` over the partners of `ids`: a
      partner without records has no group and so no entry. */
  function GroupDocs(docs: seq<Doc>, ids: set<nat>): map<nat, nat> {
    map p | p in ids && |DocsOf(docs, p)| > 0 :: |DocsOf(docs, p)|
  }

  function GroupMoves(moves: seq<Move>, ids: set<nat>): map<nat, nat> {
    map p | p in ids && |MovesOf(moves, {p})| > 0 :: |MovesOf(moves, {p})|
  }

  /** `counts.get(p, 0)`. */
  function Get(counts: map<nat, nat>, p: nat): nat {
    if p in counts then counts[p] else 0
  }

  /** With the default 0, the grouped count of a contact is its number of records. */
  lemma GetGroupMoves(moves: seq<Move>, ids: set<nat>, p: nat)
    requires p in ids
    ensures Get(GroupMoves(moves, ids), p) == |MovesOf(moves, {p})|
  {
  }

  lemma GetGroupDocs(docs: seq<Doc>, ids: set<nat>, p: nat)
    requires p in ids
    ensures Get(GroupDocs(docs, ids), p) == |DocsOf(docs, p)|
  {
  }

  lemma {:induction false} MovesOfNobody(moves: seq<Move>)
    ensures MovesOf(moves, {}) == []
  {
    if moves != [] {
      MovesOfNobody(moves[1..]);
    }
  }

  /** `_compute_recent_sale_orders`, `_compute_recent_deliveries` and
      `_compute_recent_purchases` for one contact of `self`: the first five of
      its records in search order and the count of all of them. An unsaved
      contact (`None`) has neither. */
  function RecentDocs(docs: seq<Doc>, self: set<nat>, partner: Option<nat>): (r: Summary<Doc>)
    requires partner.Some? ==> partner.value in self
    ensures partner.None? ==> r == Summary([], 0)
    ensures partner.Some? ==> r.total == |DocsOf(docs, partner.value)|
    ensures |r.recent| == if r.total <= 5 then r.total else 5
    ensures partner.Some? ==> r.recent == DocsOf(docs, partner.value)[..|r.recent|]
  {
    if partner.None? then Summary([], 0)
    else
      GetGroupDocs(docs, self, partner.value);
      Summary(Take(DocsOf(docs, partner.value), 5), Get(GroupDocs(docs, self), partner.value))
  }

  /** `_compute_recent_invoices` for one contact of `self`: the earliest five by
      `_invoice_sort_key` among its 20 latest customer moves, and the count of
      all its customer moves. */
  function RecentInvoices(moves: seq<Move>, self: set<nat>, partner: Option<nat>, today: Day): (r: Result<Summary<Move>>)
    requires partner.Some? ==> partner.value in self
    ensures partner.None? ==> r == Ok(Summary([], 0))
    ensures r.Ok? && partner.Some? ==> r.value.total == |MovesOf(moves, {partner.value})|
    ensures r.Ok? ==> |r.value.recent| <= 5 && |r.value.recent| <= r.value.total
    ensures r.Ok? ==> forall m :: m in r.value.recent ==> m in moves && CustomerMove(m) && Some(m.partnerId) == partner
    ensures partner.Some? ==> (r.Err? <==> Recent(Take(MovesOf(moves, {partner.value}), 20), today).Err?)
    ensures r.Ok? && partner.Some? ==> r.value.recent == Recent(Take(MovesOf(moves, {partner.value}), 20), today).value
  {
    if partner.None? then Ok(Summary([], 0))
    else
      var found := Take(MovesOf(moves, {partner.value}), 20);
      match Recent(found, today)
      case Err(e) => Err(e)
      case Ok(recent) =>
        RecentKept(found, today, recent);
        TakeKeeps(MovesOf(moves, {partner.value}), 20);
        GetGroupMoves(moves, self, partner.value);
        Ok(Summary(recent, Get(GroupMoves(moves, self), partner.value)))
  }

  predicate Distinct(s: seq<nat>) {
    forall i, j :: 0 <= i < j < |s| ==> s[i] != s[j]
  }

  function SetOf(s: seq<nat>): set<nat> {
    set x | x in s
  }

  /** `partner.relation_ids.mapped("related_partner_id")`: the contacts `p` is
      related to, each once, in the order of the relation rows. */
  function RelatedOf(rows: seq<PartnerRelation.Relation>, p: nat): (r: seq<nat>)
    ensures Distinct(r)
    ensures forall q :: q in r <==> exists i :: 0 <= i < |rows| && rows[i].partner == p && rows[i].related == q
  {
    if rows == [] then []
    else
      var n := |rows| - 1;
      var prior := RelatedOf(rows[..n], p);
      assert forall i :: 0 <= i < n ==> rows[..n][i] == rows[i];
      if rows[n].partner == p && rows[n].related !in prior then prior + [rows[n].related] else prior
  }

  /** `sum(counts.get(pid, 0) for pid in ids)`. */
  function SumGet(ids: seq<nat>, counts: map<nat, nat>): nat {
    if ids == [] then 0 else Get(counts, ids[0]) + SumGet(ids[1..], counts)
  }

  lemma {:induction false} MovesOfSplit(moves: seq<Move>, ids: set<nat>, x: nat)
    requires x !in ids
    ensures |MovesOf(moves, ids + {x})| == |MovesOf(moves, ids)| + |MovesOf(moves, {x})|
  {
    if moves != [] {
      MovesOfSplit(moves[1..], ids, x);
    }
  }

  /** Summing the grouped counts of distinct contacts counts each of their
      customer moves once. */
  lemma {:induction false} SumOfGroups(moves: seq<Move>, ids: seq<nat>, grouped: set<nat>)
    requires Distinct(ids) && SetOf(ids) <= grouped
    ensures SumGet(ids, GroupMoves(moves, grouped)) == |MovesOf(moves, SetOf(ids))|
  {
    if ids == [] {
      assert SetOf(ids) == {};
      MovesOfNobody(moves);
    } else {
      var rest := ids[1..];
      assert SetOf(ids) == SetOf(rest) + {ids[0]} by {
        assert ids == [ids[0]] + rest;
      }
      assert ids[0] !in SetOf(rest) by {
        forall i | 0 <= i < |rest| ensures rest[i] != ids[0] { assert rest[i] == ids[i + 1]; }
      }
      assert Distinct(rest) by {
        forall i, j | 0 <= i < j < |rest| ensures rest[i] != rest[j] { assert rest[i] == ids[i + 1] && rest[j] == ids[j + 1]; }
      }
      SumOfGroups(moves, rest, grouped);
      MovesOfSplit(moves, SetOf(rest), ids[0]);
    }
  }

  /** `_compute_related_invoices` for one contact: the earliest five by
      `_invoice_sort_key` among the 50 latest customer moves of its related
      contacts, and the sum of their grouped counts. */
  function RelatedInvoices(rows: seq<PartnerRelation.Relation>, moves: seq<Move>, p: nat, today: Day): (r: Result<Summary<Move>>)
    ensures RelatedOf(rows, p) == [] ==> r == Ok(Summary([], 0))
    ensures r.Ok? ==> r.value.total == |MovesOf(moves, SetOf(RelatedOf(rows, p)))|
    ensures r.Ok? ==> |r.value.recent| <= 5 && |r.value.recent| <= r.value.total
    ensures r.Ok? ==> forall m :: m in r.value.recent ==> m in moves && CustomerMove(m) && m.partnerId in RelatedOf(rows, p)
    ensures RelatedOf(rows, p) != [] ==>
      (r.Err? <==> Recent(Take(MovesOf(moves, SetOf(RelatedOf(rows, p))), 50), today).Err?)
    ensures r.Ok? && RelatedOf(rows, p) != [] ==>
      r.value.recent == Recent(Take(MovesOf(moves, SetOf(RelatedOf(rows, p))), 50), today).value
  {
    var ids := RelatedOf(rows, p);
    if ids == [] then
      MovesOfNobody(moves);
      assert SetOf(ids) == {};
      Ok(Summary([], 0))
    else
      var found := Take(MovesOf(moves, SetOf(ids)), 50);
      match Recent(found, today)
      case Err(e) => Err(e)
      case Ok(recent) =>
        RecentKept(found, today, recent);
        TakeKeeps(MovesOf(moves, SetOf(ids)), 50);
        SumOfGroups(moves, ids, SetOf(ids));
        Ok(Summary(recent, SumGet(ids, GroupMoves(moves, SetOf(ids)))))
  }

  /** `_compute_related_invoices` over the contacts of `self`, in order; the
      whole computation raises with the first contact whose sort raises. */
  function AllRelatedInvoices(self: seq<nat>, rows: seq<PartnerRelation.Relation>, moves: seq<Move>, today: Day)
    : (r: Result<seq<Summary<Move>>>)
    ensures r.Ok? ==> |r.value| == |self|
    ensures r.Ok? ==> forall i :: 0 <= i < |self| ==> RelatedInvoices(rows, moves, self[i], today) == Ok(r.value[i])
  {
    if self == [] then Ok([])
    else
      var n := |self| - 1;
      match AllRelatedInvoices(self[..n], rows, moves, today)
      case Err(e) => Err(e)
      case Ok(done) =>
        match RelatedInvoices(rows, moves, self[n], today)
        case Err(e) => Err(e)
        case Ok(s) =>
          var f := q => RelatedInvoices(rows, moves, q, today);
          assert forall i :: 0 <= i < |done| ==> f(self[i]) == Ok(done[i]) by {
            forall i | 0 <= i < |done| ensures f(self[i]) == Ok(done[i]) {
              assert self[..n][i] == self[i];
            }
          }
          ExtendPointwise(self, f, done, s);
          Ok(done + [s])
  }

  /** Appending the value for the last contact keeps a per-contact list in
      step with `f`. */
  lemma ExtendPointwise<T>(self: seq<nat>, f: nat -> Result<T>, done: seq<T>, s: T)
    requires self != [] && |done| == |self| - 1
    requires forall i :: 0 <= i < |done| ==> f(self[i]) == Ok(done[i])
    requires f(self[|done|]) == Ok(s)
    ensures forall i :: 0 <= i < |self| ==> f(self[i]) == Ok((done + [s])[i])
  {
  }

  /** The grouped count of a contact is the same whatever other contacts were grouped with it. */
  lemma GroupedLarger(moves: seq<Move>, ids: seq<nat>, grouped: set<nat>)
    requires Distinct(ids) && SetOf(ids) <= grouped
    ensures SumGet(ids, GroupMoves(moves, grouped)) == SumGet(ids, GroupMoves(moves, SetOf(ids)))
  {
    SumOfGroups(moves, ids, grouped);
    SumOfGroups(moves, ids, SetOf(ids));
  }

  lemma AllRelatedStep(self: seq<nat>, rows: seq<PartnerRelation.Relation>, moves: seq<Move>, today: Day, i: nat)
    requires i < |self|
    ensures AllRelatedInvoices(self[..i + 1], rows, moves, today) ==
      match AllRelatedInvoices(self[..i], rows, moves, today)
      case Err(e) => Err(e)
      case Ok(done) =>
        match RelatedInvoices(rows, moves, self[i], today)
        case Err(e) => Err(e)
        case Ok(s) => Ok(done + [s])
  {
    assert self[..i + 1][..i] == self[..i];
  }

  lemma {:induction false} AllRelatedStaysFailed(self: seq<nat>, rows: seq<PartnerRelation.Relation>, moves: seq<Move>, today: Day, i: nat)
    requires i <= |self| && AllRelatedInvoices(self[..i], rows, moves, today).Err?
    ensures AllRelatedInvoices(self, rows, moves, today) == AllRelatedInvoices(self[..i], rows, moves, today)
    decreases |self| - i
  {
    if i < |self| {
      AllRelatedStep(self, rows, moves, today, i);
      AllRelatedStaysFailed(self, rows, moves, today, i + 1);
    } else {
      assert self[..i] == self;
    }
  }

  /** One contact of the second loop of `_compute_related_invoices`: the
      counts grouped over every related contact of `self` give the same sum. */
  lemma RelatedFromGroups(rows: seq<PartnerRelation.Relation>, moves: seq<Move>, p: nat, today: Day,
                          aggregated: set<nat>, countMap: map<nat, nat>)
    requires SetOf(RelatedOf(rows, p)) <= aggregated
    requires countMap == if aggregated == {} then map[] else GroupMoves(moves, aggregated)
    ensures RelatedOf(rows, p) == [] ==> RelatedInvoices(rows, moves, p, today) == Ok(Summary([], SumGet([], countMap)))
    ensures RelatedOf(rows, p) != [] ==>
      RelatedInvoices(rows, moves, p, today) ==
        match Recent(Take(MovesOf(moves, SetOf(RelatedOf(rows, p))), 50), today)
        case Err(e) => Err(e)
        case Ok(recent) => Ok(Summary(recent, SumGet(RelatedOf(rows, p), countMap)))
  {
    var ids := RelatedOf(rows, p);
    if ids != [] {
      assert ids[0] in SetOf(ids);
      GroupedLarger(moves, ids, aggregated);
    }
  }

  /** `_compute_related_invoices` as written: a first loop records each
      contact's related contacts and gathers all of them, one `read_group`
      counts their customer moves, and a second loop fills the fields. */
  method ComputeRelatedInvoices(self: seq<nat>, rows: seq<PartnerRelation.Relation>, moves: seq<Move>, today: Day)
    returns (r: Result<seq<Summary<Move>>>)
    ensures r == AllRelatedInvoices(self, rows, moves, today)
  {
    var relationMap: map<nat, seq<nat>> := map[];
    var aggregated: set<nat> := {};
    for i := 0 to |self|
      invariant forall j :: 0 <= j < i ==> self[j] in relationMap
      invariant forall q :: q in relationMap ==> relationMap[q] == RelatedOf(rows, q)
      invariant forall q :: q in relationMap ==> SetOf(relationMap[q]) <= aggregated
    {
      var related := RelatedOf(rows, self[i]);
      relationMap := relationMap[self[i] := related];
      aggregated := aggregated + SetOf(related);
    }
    var countMap: map<nat, nat> := map[];
    if aggregated != {} {
      countMap := GroupMoves(moves, aggregated);
    }
    var out: seq<Summary<Move>> := [];
    for i := 0 to |self|
      invariant AllRelatedInvoices(self[..i], rows, moves, today) == Ok(out)
    {
      AllRelatedStep(self, rows, moves, today, i);
      var ids := relationMap[self[i]];
      RelatedFromGroups(rows, moves, self[i], today, aggregated, countMap);
      var invoices: seq<Move> := [];
      if ids != [] {
        var found := Take(MovesOf(moves, SetOf(ids)), 50);
        var sorted := Recent(found, today);
        if sorted.Err? {
          AllRelatedStaysFailed(self, rows, moves, today, i + 1);
          return Err(sorted.error);
        }
        invoices := sorted.value;
      }
      out := out + [Summary(invoices, SumGet(ids, countMap))];
    }
    assert self[..|self|] == self;
    r := Ok(out);
  }

  /** The window action of `action_view_related_invoices`: customer moves of
      the related contacts, searched by default on this contact. */
  datatype InvoiceAction = InvoiceAction(partnerIds: seq<nat>, moveTypes: seq<string>, searchDefaultPartner: nat)

  /** `action_view_related_invoices`: `False` (`None`) without related contacts. */
  function RelatedInvoicesAction(rows: seq<PartnerRelation.Relation>, p: nat): (r: Option<InvoiceAction>)
    ensures r.None? <==> forall i :: 0 <= i < |rows| ==> rows[i].partner != p
    ensures r.Some? ==> r.value.searchDefaultPartner == p
    ensures r.Some? ==> r.value.moveTypes == ["out_invoice", "out_refund", "out_receipt"]
    ensures r.Some? ==> forall q :: q in r.value.partnerIds <==>
      exists i :: 0 <= i < |rows| && rows[i].partner == p && rows[i].related == q
  {
    var ids := RelatedOf(rows, p);
    assert forall i :: 0 <= i < |rows| && rows[i].partner == p ==> rows[i].related in ids;
    if ids == [] then
      None
    else
      assert ids[0] in ids;
      Some(InvoiceAction(ids, ["out_invoice", "out_refund", "out_receipt"], p))
  }
}
