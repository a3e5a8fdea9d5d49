// The computed fields and guards a sale order adds: the delivery progress
// label, the payment status of its invoices, the invoices of the customer's
// related contacts, its manufacturing orders and the guarded invoice wizard.
module SaleOrder {
  import opened Wrappers
  import Text
  import opened DateTimes
  import opened InvoiceOrder
  import opened PartnerSummary
  import PartnerRelation

  /** A `stock.picking` as the delivery label reads it. */
  datatype Picking = Picking(state: string, typeCode: string)

  /** `label_map`. */
  const LabelMap: map<string, string> := map[
    "draft" := "Draft",
    "waiting" := "Waiting Another Operation",
    "confirmed" := "Waiting",
    "assigned" := "Ready",
    "done" := "Done",
    "cancel" := "Cancelled"]

  /** `order_preference` and the `order_index` built from it. */
  const StateOrder: seq<string> := ["draft", "waiting", "confirmed", "assigned", "done", "cancel"]
  const OrderIndex: map<string, nat> :=
    map["draft" := 0, "waiting" := 1, "confirmed" := 2, "assigned" := 3, "done" := 4, "cancel" := 5]

  const NoDelivery := "No Delivery"

  /** `index` gives every entry of `order` its position. */
  predicate Indexed<T>(order: seq<T>, index: map<T, nat>) {
    forall j :: 0 <= j < |order| ==> order[j] in index && index[order[j]] == j
  }

  lemma StateOrderIndexed()
    ensures Indexed(StateOrder, OrderIndex)
    ensures forall s :: s in StateOrder ==> s in LabelMap
  {
  }

  /** `{picking.state for picking in pickings if picking.state in label_map}` over the outgoing pickings. */
  function KnownStates(pickings: seq<Picking>): set<string> {
    set p | p in pickings && p.typeCode == "outgoing" && p.state in LabelMap :: p.state
  }

  /** The entries of `order[k..]` that are in `states`, in that order: what
      `sorted(states, key=order_index)` gives for the states from position `k` on. */
  function StatesFrom<T(!new)>(order: seq<T>, index: map<T, nat>, k: nat, states: set<T>): (r: seq<T>)
    requires k <= |order| && Indexed(order, index)
    ensures forall s :: s in r <==> s in states && s in order[k..]
    ensures forall i :: 0 <= i < |r| ==> r[i] in index && k <= index[r[i]]
    ensures forall i, j :: 0 <= i < j < |r| ==> index[r[i]] < index[r[j]]
    decreases |order| - k
  {
    if k == |order| then []
    else
      var rest := StatesFrom(order, index, k + 1, states);
      assert order[k..] == [order[k]] + order[k + 1..];
      if order[k] in states then [order[k]] + rest else rest
  }

  /** The known states present, each once, in `order_preference` order. */
  function PresentStates(pickings: seq<Picking>): (r: seq<string>)
    ensures forall s :: s in r <==>
      s in LabelMap && exists p :: p in pickings && p.typeCode == "outgoing" && p.state == s
    ensures forall i :: 0 <= i < |r| ==> r[i] in OrderIndex
    ensures forall i, j :: 0 <= i < j < |r| ==> OrderIndex[r[i]] < OrderIndex[r[j]]
  {
    StateOrderIndexed();
    assert StateOrder[0..] == StateOrder;
    StatesFrom(StateOrder, OrderIndex, 0, KnownStates(pickings))
  }

  function Labels(states: seq<string>): (r: seq<string>)
    requires forall s :: s in states ==> s in LabelMap
    ensures |r| == |states| && forall i :: 0 <= i < |states| ==> r[i] == LabelMap[states[i]]
  {
    seq(|states|, i requires 0 <= i < |states| => LabelMap[states[i]])
  }

  /** `_compute_delivery_status_display` for one order. */
  function DeliveryStatusDisplay(pickings: seq<Picking>): (r: string)
    ensures r == NoDelivery <==>
      forall p :: p in pickings && p.typeCode == "outgoing" ==> p.state !in LabelMap
    ensures r != NoDelivery ==> r == Text.Join(Labels(PresentStates(pickings)), ", ")
  {
    if forall p :: p in pickings ==> p.typeCode != "outgoing" then NoDelivery
    else
      var states := PresentStates(pickings);
      if states == [] then
        assert forall p :: p in pickings && p.typeCode == "outgoing" ==> p.state !in LabelMap by {
          forall p | p in pickings && p.typeCode == "outgoing" ensures p.state !in LabelMap {
            assert p.state !in states;
          }
        }
        NoDelivery
      else
        LabelsAreNotNoDelivery(states);
        Text.Join(Labels(states), ", ")
  }

  /** No label starts the way "No Delivery" does, so a listing of labels is never mistaken for it. */
  lemma LabelsAreNotNoDelivery(states: seq<string>)
    requires states != [] && forall s :: s in states ==> s in LabelMap
    ensures Text.Join(Labels(states), ", ") != NoDelivery
  {
    var labels := Labels(states);
    var j := Text.Join(labels, ", ");
    Text.JoinStartsWithFirst(labels, ", ");
    assert forall s :: s in LabelMap ==> |LabelMap[s]| > 0 && LabelMap[s][0] != 'N';
    assert states[0] in states;
    assert |labels[0]| > 0 && j[0] == labels[0][0];
  }

  /** `payment_status`. */
  datatype PaymentStatus = NoInvoice | NotPaid | Paid

  /** `move_type in ("out_invoice", "out_refund")`: receipts do not count here. */
  predicate InvoiceOrRefund(m: Move) {
    m.moveType == "out_invoice" || m.moveType == "out_refund"
  }

  function Filter(moves: seq<Move>): (r: seq<Move>)
    ensures forall m :: m in r <==> m in moves && InvoiceOrRefund(m)
  {
    if moves == [] then [] else (if InvoiceOrRefund(moves[0]) then [moves[0]] else []) + Filter(moves[1..])
  }

  /** `_compute_payment_status` for the moves of one order's invoice lines. */
  function PaymentStatusOf(moves: seq<Move>): (r: PaymentStatus)
    ensures r == NoInvoice <==> forall m :: m in moves ==> !InvoiceOrRefund(m)
    ensures r == Paid <==> ((exists m :: m in moves && InvoiceOrRefund(m))
                            && forall m :: m in moves && InvoiceOrRefund(m) ==> m.paymentState == Some("paid"))
    ensures r == NotPaid <==> exists m :: m in moves && InvoiceOrRefund(m) && m.paymentState != Some("paid")
  {
    var invoices := Filter(moves);
    if invoices == [] then NoInvoice
    else
      assert invoices[0] in invoices;
      if forall m :: m in invoices ==> m.paymentState == Some("paid") then Paid else NotPaid
  }

  /** When a sale-order invoice is dated: `invoice_date or create_date or write_date`. */
  datatype When = Undated | Dated(t: Moment) | Unreadable

  /** `fields.Datetime.to_datetime` of the first date set: a date becomes its
      midnight, and text is read in its `%Y-%m-%d %H:%M:%S` or `%Y-%m-%d` form. */
  function SaleWhen(m: Move): (w: When)
    ensures w.Undated? <==> FirstPresent([m.invoiceDate, m.createDate, m.writeDate]).None?
    ensures w.Unreadable? ==> FirstPresent([m.invoiceDate, m.createDate, m.writeDate]).value.Text?
    // text is read only as the exact text of the date-time, or of the day at midnight
    ensures w.Dated? && FirstPresent([m.invoiceDate, m.createDate, m.writeDate]).value.Text? ==>
      var s := FirstPresent([m.invoiceDate, m.createDate, m.writeDate]).value.s;
      s == Format(w.t, ' ') || (s == FormatDay(DateOf(w.t)) && w.t == Midnight(DateOf(w.t)))
  {
    match FirstPresent([m.invoiceDate, m.createDate, m.writeDate])
    case None => Undated
    case Some(OnDay(d)) => Dated(Midnight(d))
    case Some(At(t)) => Dated(t)
    case Some(Text(s)) =>
      if |s| == 19 then
        match ParseFixed(s, ' ')
        case Some(t) => ParsedIsFormatted(s, ' '); var mt: Moment := t; Dated(mt)
        case None => Unreadable
      else if |s| == 10 then
        match ParseDay(s)
        case Some(d) => assert s[..10] == s; Dated(Midnight(d))
        case None => Unreadable
      else Unreadable
  }

  /** The text of a date-time in the first date field set is read back as
      that moment. */
  lemma SaleWhenReadsMoment(m: Move, t: Moment)
    requires FirstPresent([m.invoiceDate, m.createDate, m.writeDate]) == Some(Text(Format(t, ' ')))
    ensures SaleWhen(m) == Dated(t)
  {
    assert !Text.IsDigit(' ');
    ParseFormat(t, ' ');
    assert |Format(t, ' ')| == 19;
  }

  /** The text of a day in the first date field set is read back as that
      day's midnight. */
  lemma SaleWhenReadsDay(m: Move, d: Day)
    requires FirstPresent([m.invoiceDate, m.createDate, m.writeDate]) == Some(Text(FormatDay(d)))
    ensures SaleWhen(m) == Dated(Midnight(d))
  {
    ParseFormatDay(d, "");
    assert FormatDay(d) + "" == FormatDay(d);
    assert |FormatDay(d)| == 10;
  }

  /** `to_datetime(date_val).timestamp() if date_val else 0`. */
  function SaleTimestamp(m: Move): int {
    match SaleWhen(m)
    case Dated(t) => Timestamp(t)
    case _ => 0
  }

  /** `SaleOrder._invoice_sort_key`: `(rank, -ts, -id)`. */
  function SaleKey(m: Move): Key {
    Key(PaymentStateRank(m.paymentState), -SaleTimestamp(m), -(m.id as int))
  }

  /** Lower ranks first; within a rank newer first, an undated invoice after
      every one dated after 1970-01-01 00:00:00, and then higher ids first. */
  lemma SaleKeyOrder(a: Move, b: Move)
    ensures PaymentStateRank(a.paymentState) < PaymentStateRank(b.paymentState) ==> Less(SaleKey(a), SaleKey(b))
    ensures (PaymentStateRank(a.paymentState) == PaymentStateRank(b.paymentState)
             && SaleWhen(a).Dated? && SaleWhen(b).Dated? && MomentBefore(SaleWhen(b).t, SaleWhen(a).t)) ==>
      Less(SaleKey(a), SaleKey(b))
    ensures (PaymentStateRank(a.paymentState) == PaymentStateRank(b.paymentState)
             && SaleWhen(a).Dated? && MomentBefore(DateTime(1970, 1, 1, 0, 0, 0), SaleWhen(a).t)
             && SaleWhen(b).Undated?) ==>
      Less(SaleKey(a), SaleKey(b))
    ensures (PaymentStateRank(a.paymentState) == PaymentStateRank(b.paymentState)
             && SaleTimestamp(a) == SaleTimestamp(b) && a.id > b.id) ==>
      Less(SaleKey(a), SaleKey(b))
  {
    if SaleWhen(a).Dated? && SaleWhen(b).Dated? && MomentBefore(SaleWhen(b).t, SaleWhen(a).t) {
      TimestampMonotone(SaleWhen(b).t, SaleWhen(a).t);
    }
    if SaleWhen(a).Dated? && MomentBefore(DateTime(1970, 1, 1, 0, 0, 0), SaleWhen(a).t) {
      TimestampPositive(SaleWhen(a).t);
    }
  }

  /** `moves.sorted(key=_invoice_sort_key)[:5]`, raising on unreadable text. */
  function RecentBySaleKey(found: seq<Move>): (r: Result<seq<Move>>)
    ensures r.Err? <==> exists m :: m in found && SaleWhen(m).Unreadable?
    ensures r.Ok? ==> r.value == Take(SortBy(found, SaleKey), 5)
  {
    if forall m :: m in found ==> !SaleWhen(m).Unreadable? then Ok(Take(SortBy(found, SaleKey), 5))
    else Err("time data does not match format '%Y-%m-%d %H:%M:%S'")
  }

  /** What the order computations need of `RecentBySaleKey`: at most five
      records, all of them found. */
  lemma SaleRecentKept(found: seq<Move>, recent: seq<Move>)
    requires RecentBySaleKey(found) == Ok(recent)
    ensures |recent| <= 5 && |recent| <= |found|
    ensures forall m :: m in recent ==> m in found
  {
    FirstOfSorted(found, SaleKey, 5);
    KeptWereFound(recent, found);
  }

  /** `_compute_recent_related_invoices` for one order: nothing without a
      customer or without related contacts; otherwise the earliest five by
      the sale-order key among the 50 latest customer moves of the related
      contacts, and the total of their grouped counts. */
  function OrderRelatedInvoices(partner: Option<nat>, rows: seq<PartnerRelation.Relation>, moves: seq<Move>)
    : (r: Result<Summary<Move>>)
    ensures (partner.None? || RelatedOf(rows, partner.value) == []) ==> r == Ok(Summary([], 0))
    ensures r.Ok? && partner.Some? ==> r.value.total == |MovesOf(moves, SetOf(RelatedOf(rows, partner.value)))|
    ensures r.Ok? ==> |r.value.recent| <= 5 && |r.value.recent| <= r.value.total
    ensures r.Ok? ==> forall m :: m in r.value.recent ==>
      m in moves && CustomerMove(m) && partner.Some? && m.partnerId in RelatedOf(rows, partner.value)
    ensures partner.Some? && RelatedOf(rows, partner.value) != [] ==>
      (r.Err? <==> RecentBySaleKey(Take(MovesOf(moves, SetOf(RelatedOf(rows, partner.value))), 50)).Err?)
    ensures r.Ok? && partner.Some? && RelatedOf(rows, partner.value) != [] ==>
      r.value.recent == RecentBySaleKey(Take(MovesOf(moves, SetOf(RelatedOf(rows, partner.value))), 50)).value
  {
    if partner.None? then Ok(Summary([], 0))
    else
      var ids := RelatedOf(rows, partner.value);
      if ids == [] then
        MovesOfNobody(moves);
        assert SetOf(ids) == {};
        Ok(Summary([], 0))
      else
        var found := Take(MovesOf(moves, SetOf(ids)), 50);
        match RecentBySaleKey(found)
        case Err(e) => Err(e)
        case Ok(recent) =>
          SaleRecentKept(found, recent);
          SumOfGroups(moves, ids, SetOf(ids));
          Ok(Summary(recent, SumGet(ids, GroupMoves(moves, SetOf(ids)))))
  }

  /** `action_view_related_invoices` on an order: `False` (`None`) without a
      customer or without related contacts. */
  function OrderRelatedInvoicesAction(partner: Option<nat>, rows: seq<PartnerRelation.Relation>)
    : (r: Option<InvoiceAction>)
    ensures r.None? <==> partner.None? || forall i :: 0 <= i < |rows| ==> rows[i].partner != partner.value
    ensures r.Some? ==> r == RelatedInvoicesAction(rows, partner.value)
  {
    if partner.None? then None else RelatedInvoicesAction(rows, partner.value)
  }

  /** An `mrp.production` as `_compute_mo_ids` reads it. */
  datatype Production = Production(id: nat, origin: Option<string>)

  /** `_compute_mo_ids`: the productions whose origin is the order name, none
      for an order without a name. */
  function MoIds(name: string, productions: seq<Production>): (r: seq<Production>)
    ensures name == "" ==> r == []
    ensures name != "" ==> forall p :: p in r <==> p in productions && p.origin == Some(name)
    ensures |r| <= |productions|
  {
    if name == "" || productions == [] then []
    else (if productions[0].origin == Some(name) then [productions[0]] else []) + MoIds(name, productions[1..])
  }

  /** `mo_count`: the number of productions whose origin is the order name. */
  function MoCount(name: string, productions: seq<Production>): (n: nat)
    ensures name == "" ==> n == 0
    ensures n <= |productions|
    ensures n == 0 <==> name == "" || forall p :: p in productions ==> p.origin != Some(name)
  {
    var r := MoIds(name, productions);
    assert r != [] ==> r[0] in r;
    |r|
  }

  /** A context value of the wizard action. */
  datatype ContextValue = CText(s: string) | CId(id: nat) | CIds(ids: seq<nat>) | COther

  const WizardWarning := "This Sales Order already has linked invoices. Please be careful."

  /** `action_view_sale_advance_payment_inv_guarded`: raises when the order
      already has invoices, and otherwise hands the wizard the current context
      with the order as its active record. */
  function OpenInvoiceWizard(invoiceIds: seq<nat>, orderId: nat, context: map<string, ContextValue>)
    : (r: Result<map<string, ContextValue>>)
    ensures r.Err? <==> invoiceIds != []
    ensures r.Err? ==> r.error == WizardWarning
    ensures r.Ok? ==> "active_model" in r.value && r.value["active_model"] == CText("sale.order")
    ensures r.Ok? ==> "active_id" in r.value && r.value["active_id"] == CId(orderId)
    ensures r.Ok? ==> "active_ids" in r.value && r.value["active_ids"] == CIds([orderId])
    ensures r.Ok? ==> forall k :: k in context && k != "active_model" && k != "active_id" && k != "active_ids" ==>
      k in r.value && r.value[k] == context[k]
  {
    if invoiceIds != [] then Err(WizardWarning)
    else Ok(context["active_model" := CText("sale.order")]["active_id" := CId(orderId)]["active_ids" := CIds([orderId])])
  }
}
