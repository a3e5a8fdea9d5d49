// The website CRM endpoints: the contact-form submission, the consultation
// booking, the popular-elements summary and the form-route dispatch.
module CrmController {
  import opened Wrappers
  import Text
  import InvoiceOrder
  import Tally
  import ContactForm
  import CrmLead

  /** `kwargs.get(key, default)` on the posted form fields. */
  function Param(kwargs: map<string, string>, key: string, default: string): string {
    if key in kwargs then kwargs[key] else default
  }

  /** The tokens of a comma list that are, once stripped, all digits, read as numbers. */
  function KeepIds(tokens: seq<string>): (ids: seq<nat>)
    ensures |ids| <= |tokens|
  {
    if tokens == [] then []
    else
      var t := Text.Strip(tokens[0]);
      (if Text.AllDigits(t) then [Text.DigitsValue(t)] else []) + KeepIds(tokens[1..])
  }

  /** `[int(x) for x in v.split(',') if x.strip().isdigit()]`. */
  function ParseIds(v: string): seq<nat> {
    KeepIds(Text.Split(v, ','))
  }

  /** The decimal texts of some ids, as a form would post them. */
  function IdTexts(ids: seq<nat>): (r: seq<string>)
    ensures |r| == |ids|
    ensures forall i :: 0 <= i < |ids| ==> r[i] == Text.NatToString(ids[i])
  {
    if ids == [] then [] else [Text.NatToString(ids[0])] + IdTexts(ids[1..])
  }

  lemma {:induction false} KeepIdTexts(ids: seq<nat>)
    ensures KeepIds(IdTexts(ids)) == ids
  {
    if ids != [] {
      var t := Text.NatToString(ids[0]);
      Text.DigitsStripped(t);
      Text.DigitsValueOfNatToString(ids[0]);
      assert IdTexts(ids)[1..] == IdTexts(ids[1..]);
      KeepIdTexts(ids[1..]);
    }
  }

  /** A comma-joined list of ids reads back as the same ids, in order. */
  lemma ParseJoinedIds(ids: seq<nat>)
    requires ids != []
    ensures ParseIds(Text.Join(IdTexts(ids), ",")) == ids
  {
    var texts := IdTexts(ids);
    forall i | 0 <= i < |texts| ensures ',' !in texts[i] {
      assert Text.AllDigits(texts[i]);
    }
    Text.SplitJoin(texts, ',');
    KeepIdTexts(ids);
  }

  /** Tokens that do not read as numbers are dropped; the rest keep their order. */
  lemma ParseIdsDrops(a: string, b: string)
    requires ',' !in a
    ensures ParseIds(a + "," + b) ==
      (if Text.AllDigits(Text.Strip(a)) then [Text.DigitsValue(Text.Strip(a))] else []) + ParseIds(b)
  {
    Text.SplitAfter(a, ',', b);
  }

  /** A many2many interest: set only when the field is posted with some
      non-blank text. */
  function InterestIds(kwargs: map<string, string>, key: string): (r: Option<seq<nat>>)
    ensures r.Some? <==> key in kwargs && Text.Strip(kwargs[key]) != ""
  {
    if key in kwargs && kwargs[key] != "" && Text.Strip(kwargs[key]) != "" then Some(ParseIds(kwargs[key]))
    else
      assert key in kwargs && kwargs[key] == "" ==> Text.Strip(kwargs[key]) == "";
      None
  }

  /** The `form_data` of `_handle_luc_khi_contact_form`. */
  function FormData(kwargs: map<string, string>, remoteAddr: string, userAgent: string): ContactForm.FormVals
  {
    ContactForm.FormVals(
      Text.Strip(Param(kwargs, "name", "")),
      Text.Strip(Param(kwargs, "email", "")),
      Text.Strip(Param(kwargs, "phone", "")),
      Some(Param(kwargs, "preferred_contact_method", "phone")),
      Some(Param(kwargs, "preferred_contact_time", "anytime")),
      Some(Param(kwargs, "contact_reason", "general_inquiry")),
      Text.Strip(Param(kwargs, "subject", "")),
      Text.Strip(Param(kwargs, "message", "")),
      InterestIds(kwargs, "interested_elements"),
      InterestIds(kwargs, "interested_courses"),
      InterestIds(kwargs, "interested_products"),
      None,
      Some("website_contact_form"),
      remoteAddr,
      userAgent)
  }

  const RequiredFields: seq<string> := ["name", "email", "phone", "subject", "message"]

  function FieldText(v: ContactForm.FormVals, field: string): string {
    if field == "name" then v.name
    else if field == "email" then v.email
    else if field == "phone" then v.phone
    else if field == "subject" then v.subject
    else v.message
  }

  function MissingAmong(v: ContactForm.FormVals, fields: seq<string>): (r: seq<string>)
    ensures forall f :: f in r <==> f in fields && FieldText(v, f) == ""
    ensures |r| <= |fields|
  {
    if fields == [] then []
    else (if FieldText(v, fields[0]) == "" then [fields[0]] else []) + MissingAmong(v, fields[1..])
  }

  /** `[field for field in required_fields if not form_data.get(field)]`. */
  function MissingFields(v: ContactForm.FormVals): (r: seq<string>)
    ensures forall f :: f in r <==> f in RequiredFields && FieldText(v, f) == ""
  {
    MissingAmong(v, RequiredFields)
  }

  lemma {:induction false} MissingAmongConcat(v: ContactForm.FormVals, a: seq<string>, b: seq<string>)
    ensures MissingAmong(v, a + b) == MissingAmong(v, a) + MissingAmong(v, b)
  {
    if a != [] {
      assert (a + b)[0] == a[0] && (a + b)[1..] == a[1..] + b;
      MissingAmongConcat(v, a[1..], b);
    } else {
      assert a + b == b;
    }
  }

  /** The missing fields keep the order name, email, phone, subject, message:
      the report on two groups of fields is the report on the first group
      followed by the report on the second. */
  lemma MissingInOrder(v: ContactForm.FormVals)
    requires v.name == "" && v.message == ""
    ensures MissingFields(v)[0] == "name" && MissingFields(v)[|MissingFields(v)| - 1] == "message"
  {
    MissingAmongConcat(v, RequiredFields[..4], ["message"]);
    assert RequiredFields == RequiredFields[..4] + ["message"];
    assert MissingAmong(v, ["message"]) == ["message"] + MissingAmong(v, []);
    assert MissingAmong(v, RequiredFields)[0] == "name";
  }

  const MissingPrefix := "Vui lòng điền đầy đủ thông tin: "
  const SubmitFailed := "Có lỗi xảy ra. Vui lòng thử lại sau."
  const BookingFailed := "Có lỗi xảy ra khi đăng ký. Vui lòng thử lại."

  /** The JSON answer of a submission. */
  datatype Reply = Failure(error: string) | Success(formId: nat)

  /** The reasons that turn a submitted form into a lead at once. */
  predicate AutoConverts(reason: string) {
    reason == "consultation" || reason == "course_inquiry" || reason == "product_inquiry"
  }

  /** The answer to a submission with the form data `v` and the form and lead
      tables the committed transaction holds. A `ValidationError` of the
      form's constraints answers its message, with the rejected row already
      inserted; any other exception of `create` answers the generic error. A
      stored form whose reason is one of the three lead reasons is converted,
      and a failed conversion is caught, so the submission still succeeds. */
  function Outcome(forms: seq<ContactForm.Form>, leads: seq<CrmLead.Lead>, v: ContactForm.FormVals,
                   activeUserOf: string -> Option<nat>, catalog: ContactForm.Catalog)
    : (r: (Reply, seq<ContactForm.Form>, seq<CrmLead.Lead>))
    ensures var f := ContactForm.CreatedForm(v, activeUserOf);
      && (r.0.Success? <==> MissingFields(v) == [] && ContactForm.CreateFault(v).None? && ContactForm.CheckConstraints(f).Ok?)
      && (MissingFields(v) != [] || ContactForm.CreateFault(v).Some? ==> r.1 == forms && r.2 == leads)
      && (ContactForm.CreateFault(v).Some? && MissingFields(v) == [] ==> r.0 == Failure(SubmitFailed))
      && (MissingFields(v) == [] && ContactForm.CreateFault(v).None? && ContactForm.CheckConstraints(f).Err? ==>
            r == (Failure(ContactForm.CheckConstraints(f).error), forms + [f], leads))
  {
    var missing := MissingFields(v);
    if missing != [] then (Failure(MissingPrefix + Text.Join(missing, ", ")), forms, leads)
    else
      var created := ContactForm.CreateState(forms, v, activeUserOf);
      if created.0.Err? then
        (Failure(if ContactForm.CreateFault(v).Some? then SubmitFailed else created.0.error), created.1, leads)
      else if AutoConverts(v.reason.GetOr("general_inquiry")) then
        var c := ContactForm.ConvertState(created.1, leads, created.0.value, catalog);
        (Success(created.0.value), c.1, c.2)
      else (Success(created.0.value), created.1, leads)
  }

  /** A successful submission appends one form, leaves every earlier form
      untouched, and answers with the new form's id. The form is linked to
      a new lead exactly when its reason is one of the three lead reasons
      and the lead's creation succeeds; when that creation fails the answer
      is still a success, the form stays an unlinked draft, and the lead row
      inserted before the failure remains. */
  lemma OutcomeAppends(forms: seq<ContactForm.Form>, leads: seq<CrmLead.Lead>, v: ContactForm.FormVals,
                       activeUserOf: string -> Option<nat>, catalog: ContactForm.Catalog)
    requires Outcome(forms, leads, v, activeUserOf, catalog).0.Success?
    ensures var o := Outcome(forms, leads, v, activeUserOf, catalog);
      var f := ContactForm.CreatedForm(v, activeUserOf);
      var converts := AutoConverts(v.reason.GetOr("general_inquiry")) && ContactForm.Convert(f, |leads|, catalog).Ok?;
      && o.0.formId == |forms| && |o.1| == |forms| + 1 && o.1[..|forms|] == forms
      && (converts ==> o.1[|forms|] == ContactForm.Convert(f, |leads|, catalog).value.0)
      && (!converts ==> o.1[|forms|] == f && f.leadId.None? && f.state == ContactForm.Draft)
      && (converts ==> o.2 == leads + [ContactForm.Convert(f, |leads|, catalog).value.1])
      && (AutoConverts(v.reason.GetOr("general_inquiry")) && !converts ==>
            o.2 == leads + [CrmLead.Inserted(ContactForm.LeadValsOf(ContactForm.DraftOf(f), catalog))])
      && (!AutoConverts(v.reason.GetOr("general_inquiry")) ==> o.2 == leads)
  {
    var o := Outcome(forms, leads, v, activeUserOf, catalog);
    var f := ContactForm.CreatedForm(v, activeUserOf);
    assert (forms + [f])[|forms|] == f;
    assert (forms + [f])[..|forms|] == forms;
    assert o.1[..|forms|] == forms;
  }

  /** With a required field empty, nothing is stored and the error names
      the first empty field right after the prefix. */
  lemma MissingReported(forms: seq<ContactForm.Form>, leads: seq<CrmLead.Lead>, v: ContactForm.FormVals,
                        activeUserOf: string -> Option<nat>, catalog: ContactForm.Catalog, field: string)
    requires field in RequiredFields && FieldText(v, field) == ""
    ensures var o := Outcome(forms, leads, v, activeUserOf, catalog);
      && o.1 == forms && o.2 == leads && o.0.Failure?
      && Text.StartsWith(o.0.error, MissingPrefix + MissingFields(v)[0])
  {
    var missing := MissingFields(v);
    assert field in missing;
    Text.JoinStartsWithFirst(missing, ", ");
    var j := Text.Join(missing, ", ");
    assert j[..|missing[0]|] == missing[0];
    assert (MissingPrefix + j)[..|MissingPrefix + missing[0]|] == MissingPrefix + missing[0];
  }

  /** `_handle_luc_khi_contact_form` on the form data `v`; the lead a
      conversion creates goes to `leads`. */
  method Submit(table: ContactForm.FormTable, leads: CrmLead.LeadTable, v: ContactForm.FormVals,
                activeUserOf: string -> Option<nat>, catalog: ContactForm.Catalog)
    returns (reply: Reply)
    modifies table, leads
    ensures (reply, table.forms, leads.leads) == Outcome(old(table.forms), old(leads.leads), v, activeUserOf, catalog)
  {
    var missing := MissingFields(v);
    if missing != [] {
      return Failure(MissingPrefix + Text.Join(missing, ", "));
    }
    var created := table.Create(v, activeUserOf);
    if created.Err? {
      if ContactForm.CreateFault(v).Some? {
        return Failure(SubmitFailed);
      }
      return Failure(created.error);
    }
    if AutoConverts(v.reason.GetOr("general_inquiry")) {
      var _ := table.ConvertToLead(created.value, leads, catalog);
    }
    return Success(created.value);
  }

  /** `_handle_luc_khi_contact_form`: the submission of the posted fields,
      with the request's address and user agent. */
  method HandleContactForm(table: ContactForm.FormTable, leads: CrmLead.LeadTable, kwargs: map<string, string>,
                           remoteAddr: string, userAgent: string, activeUserOf: string -> Option<nat>,
                           catalog: ContactForm.Catalog)
    returns (reply: Reply)
    modifies table, leads
    ensures (reply, table.forms, leads.leads) ==
      Outcome(old(table.forms), old(leads.leads), FormData(kwargs, remoteAddr, userAgent), activeUserOf, catalog)
  {
    reply := Submit(table, leads, FormData(kwargs, remoteAddr, userAgent), activeUserOf, catalog);
  }

  /** The `booking_data` of `book_consultation`. The subject and message are
      not stripped, and a consultant is taken only from an all-digit id. */
  function BookingData(kwargs: map<string, string>): (v: ContactForm.FormVals)
    ensures v.reason == Some("consultation") && v.source == Some("consultation_booking")
    ensures v.subject == "Đăng ký tư vấn Lục Khí - " + Param(kwargs, "name", "")
    ensures v.assignedTo.Some? <==> "consultant_id" in kwargs && Text.AllDigits(kwargs["consultant_id"])
    ensures v.assignedTo.Some? ==> v.assignedTo.value == Text.DigitsValue(kwargs["consultant_id"])
  {
    var consultant :=
      if "consultant_id" in kwargs && Text.AllDigits(kwargs["consultant_id"]) then Some(Text.DigitsValue(kwargs["consultant_id"]))
      else None;
    ContactForm.FormVals(
      Text.Strip(Param(kwargs, "name", "")),
      Text.Strip(Param(kwargs, "email", "")),
      Text.Strip(Param(kwargs, "phone", "")),
      Some(Param(kwargs, "preferred_method", "phone")),
      Some(Param(kwargs, "preferred_time", "anytime")),
      Some("consultation"),
      "Đăng ký tư vấn Lục Khí - " + Param(kwargs, "name", ""),
      Param(kwargs, "consultation_goals", ""),
      InterestIds(kwargs, "interested_elements"),
      None,
      None,
      consultant,
      Some("consultation_booking"),
      "",
      "")
  }

  /** The answer to a booking of the data `v` and the tables the committed
      transaction holds. There is no required-field check, a stored booking
      is always converted, and every failure answers the generic error with whatever
      was inserted before it: a form rejected by its constraints, or a
      stored form left unconverted beside the lead row whose analysis
      raised. */
  function BookingOutcome(forms: seq<ContactForm.Form>, leads: seq<CrmLead.Lead>, v: ContactForm.FormVals,
                          activeUserOf: string -> Option<nat>, catalog: ContactForm.Catalog)
    : (r: (Reply, seq<ContactForm.Form>, seq<CrmLead.Lead>))
    ensures var f := ContactForm.CreatedForm(v, activeUserOf);
      && (r.0.Success? <==> ContactForm.CreateFault(v).None? && ContactForm.CheckConstraints(f).Ok?
                            && ContactForm.Convert(f, |leads|, catalog).Ok?)
      && (r.0.Failure? ==> r.0.error == BookingFailed)
      && (r.0.Success? ==> r.0.formId == |forms| && r.1 == forms + [ContactForm.Convert(f, |leads|, catalog).value.0]
                           && r.2 == leads + [ContactForm.Convert(f, |leads|, catalog).value.1])
      && (ContactForm.CreateFault(v).Some? ==> r.1 == forms && r.2 == leads)
      && (ContactForm.CreateFault(v).None? && ContactForm.CheckConstraints(f).Err? ==> r.1 == forms + [f] && r.2 == leads)
      && (ContactForm.CreateFault(v).None? && ContactForm.CheckConstraints(f).Ok? && ContactForm.Convert(f, |leads|, catalog).Err? ==>
            r.1 == forms + [f] && r.2 == leads + [CrmLead.Inserted(ContactForm.LeadValsOf(ContactForm.DraftOf(f), catalog))])
  {
    var created := ContactForm.CreateState(forms, v, activeUserOf);
    if created.0.Err? then (Failure(BookingFailed), created.1, leads)
    else
      var f := ContactForm.CreatedForm(v, activeUserOf);
      assert created.1 == forms + [f] && created.0.value == |forms|;
      assert created.1[|forms|] == f;
      assert ContactForm.Convert(f, |leads|, catalog).Ok? ==>
        created.1[|forms| := ContactForm.Convert(f, |leads|, catalog).value.0] ==
          forms + [ContactForm.Convert(f, |leads|, catalog).value.0];
      var c := ContactForm.ConvertState(created.1, leads, created.0.value, catalog);
      (if c.0.Err? then Failure(BookingFailed) else Success(created.0.value), c.1, c.2)
  }

  /** `book_consultation`. */
  method BookConsultation(table: ContactForm.FormTable, leads: CrmLead.LeadTable, kwargs: map<string, string>,
                          activeUserOf: string -> Option<nat>, catalog: ContactForm.Catalog)
    returns (reply: Reply)
    modifies table, leads
    ensures (reply, table.forms, leads.leads) ==
      BookingOutcome(old(table.forms), old(leads.leads), BookingData(kwargs), activeUserOf, catalog)
  {
    var created := table.Create(BookingData(kwargs), activeUserOf);
    if created.Err? {
      return Failure(BookingFailed);
    }
    var converted := table.ConvertToLead(created.value, leads, catalog);
    if converted.Err? {
      return Failure(BookingFailed);
    }
    return Success(created.value);
  }

  /** Which handler `website_form` runs for a model name. */
  datatype FormRoute = ContactFormRoute | ParentRoute

  function RouteFor(modelName: string): (r: FormRoute)
    ensures r == ContactFormRoute <==> modelName == "luc_khi.contact.form"
  {
    if modelName == "luc_khi.contact.form" then ContactFormRoute else ParentRoute
  }

  // ---- popular elements ----

  /** The counting loops of `get_popular_elements`, over the elements of each form. */
  method CountElements(forms: seq<seq<nat>>) returns (items: seq<(nat, nat)>)
    ensures items == Tally.Counted(Tally.Flatten(forms))
  {
    var order: seq<nat> := [];
    var counts: map<nat, nat> := map[];
    ghost var seen: seq<nat> := [];
    var g := 0;
    while g < |forms|
      invariant 0 <= g <= |forms|
      invariant seen == Tally.Flatten(forms[..g])
      invariant Tally.Tallied(order, counts, seen)
    {
      order, counts := Tally.CountInto(order, counts, seen, forms[g]);
      seen := seen + forms[g];
      Tally.FlattenStep(forms, g);
      g := g + 1;
    }
    assert forms[..g] == forms;
    Tally.ItemsOfTallied(order, counts, seen);
    items := Tally.Items(order, counts);
  }

  /** `key=lambda x: x[1], reverse=True`: Python's reverse sort is stable, so
      it is the ascending stable sort on the negated count. */
  function ByCountDesc(p: (nat, nat)): InvoiceOrder.Key {
    InvoiceOrder.Key(-(p.1 as int), 0, 0)
  }

  /** An element as `browse(id)` finds it. */
  datatype ElementInfo = ElementInfo(name: string, code: string)

  datatype Popular = Popular(id: nat, name: string, code: string, count: nat)

  /** The top five ids by count, dropping ids with no element record. */
  function PopularFrom(top: seq<(nat, nat)>, elements: map<nat, ElementInfo>): (r: seq<Popular>)
    ensures |r| <= |top|
    ensures forall p :: p in r ==> p.id in elements && (p.id, p.count) in top
  {
    if top == [] then []
    else
      var rest := PopularFrom(top[1..], elements);
      if top[0].0 in elements then
        [Popular(top[0].0, elements[top[0].0].name, elements[top[0].0].code, top[0].1)] + rest
      else rest
  }

  /** `get_popular_elements` on the forms the date filter selects: ids
      counted per form element, sorted by count (highest first), the first
      five kept, and those whose record exists reported. */
  method PopularElements(forms: seq<seq<nat>>, elements: map<nat, ElementInfo>) returns (result: seq<Popular>)
    ensures result == PopularFrom(InvoiceOrder.Take(InvoiceOrder.SortBy(Tally.Counted(Tally.Flatten(forms)), ByCountDesc), 5), elements)
    ensures |result| <= 5
    ensures forall p :: p in result ==> p.id in elements && p.count == Tally.CountOf(Tally.Flatten(forms), p.id) && p.count > 0
  {
    var items := CountElements(forms);
    var top := InvoiceOrder.Take(InvoiceOrder.SortBy(items, ByCountDesc), 5);
    result := Report(top, elements);
    PopularCounts(forms, elements);
  }

  /** The reporting loop: the ids with an element record, in the given order. */
  method Report(top: seq<(nat, nat)>, elements: map<nat, ElementInfo>) returns (result: seq<Popular>)
    ensures result == PopularFrom(top, elements)
  {
    result := [];
    var k := 0;
    while k < |top|
      invariant 0 <= k <= |top|
      invariant result + PopularFrom(top[k..], elements) == PopularFrom(top, elements)
    {
      PopularFromStep(top, k, elements);
      if top[k].0 in elements {
        result := result + [Popular(top[k].0, elements[top[k].0].name, elements[top[k].0].code, top[k].1)];
      }
      k := k + 1;
    }
    assert top[k..] == [];
  }

  lemma PopularFromStep(top: seq<(nat, nat)>, k: nat, elements: map<nat, ElementInfo>)
    requires k < |top|
    ensures PopularFrom(top[k..], elements) ==
      (if top[k].0 in elements then [Popular(top[k].0, elements[top[k].0].name, elements[top[k].0].code, top[k].1)] else [])
        + PopularFrom(top[k + 1..], elements)
  {
    assert top[k..][0] == top[k];
    assert top[k..][1..] == top[k + 1..];
  }

  lemma PopularCounts(forms: seq<seq<nat>>, elements: map<nat, ElementInfo>)
    ensures var top := InvoiceOrder.Take(InvoiceOrder.SortBy(Tally.Counted(Tally.Flatten(forms)), ByCountDesc), 5);
      forall p :: p in PopularFrom(top, elements) ==> p.count == Tally.CountOf(Tally.Flatten(forms), p.id) && p.count > 0
  {
    var xs := Tally.Flatten(forms);
    var items := Tally.Counted(xs);
    var sorted := InvoiceOrder.SortBy(items, ByCountDesc);
    var top := InvoiceOrder.Take(sorted, 5);
    forall p | p in PopularFrom(top, elements) ensures p.count == Tally.CountOf(xs, p.id) && p.count > 0 {
      assert (p.id, p.count) in top;
      assert (p.id, p.count) in sorted;
      assert (p.id, p.count) in multiset(items);
      var i :| 0 <= i < |items| && items[i] == (p.id, p.count);
      Tally.CountedPositive(xs, Tally.FirstSeen(xs)[i]);
    }
  }
}
