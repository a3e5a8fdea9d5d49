// Website contact forms (`luc_khi.contact.form`): the selection keys, the
// e-mail and phone constraints, the defaults and auto-assignment of `create`,
// the state actions, and the one-shot conversion to a CRM lead.
module ContactForm {
  import opened Wrappers
  import Validators
  import Tally
  import CrmLead

  datatype State = Draft | InProgress | Responded | Closed | Converted

  /** A stored contact form. Texts a form may leave empty are "" for `False`. */
  datatype Form = Form(
    name: string,
    email: string,
    phone: string,
    contactMethod: string,
    contactTime: string,
    reason: string,
    subject: string,
    message: string,
    elements: seq<nat>,
    courses: seq<nat>,
    products: seq<nat>,
    state: State,
    assignedTo: Option<nat>,
    responseDate: Option<int>,
    resolutionDate: Option<int>,
    leadId: Option<nat>,
    source: string,
    ipAddress: string,
    userAgent: string)

  /** The values given to `create`; `None` is a key that is absent. */
  datatype FormVals = FormVals(
    name: string,
    email: string,
    phone: string,
    contactMethod: Option<string>,
    contactTime: Option<string>,
    reason: Option<string>,
    subject: string,
    message: string,
    elements: Option<seq<nat>>,
    courses: Option<seq<nat>>,
    products: Option<seq<nat>>,
    assignedTo: Option<nat>,
    source: Option<string>,
    ipAddress: string,
    userAgent: string)

  const EmailInvalid := "Địa chỉ email không hợp lệ."
  const PhoneInvalid := "Số điện thoại không hợp lệ. Vui lòng nhập số điện thoại Việt Nam hợp lệ."
  const AlreadyConverted := "Form này đã được chuyển thành lead."

  /** `_check_email` then `_check_phone`, with the phone's operator class as
      written; an empty value is not checked. */
  function CheckConstraints(f: Form): (r: Result<()>)
    ensures r.Ok? <==> Validators.EmailAccepted(Some(f.email)) && Validators.PhoneAcceptedAsWritten(Some(f.phone))
    ensures !Validators.EmailAccepted(Some(f.email)) ==> r == Err(EmailInvalid)
    ensures Validators.EmailAccepted(Some(f.email)) && !Validators.PhoneAcceptedAsWritten(Some(f.phone)) ==> r == Err(PhoneInvalid)
  {
    if !Validators.EmailAccepted(Some(f.email)) then Err(EmailInvalid)
    else if !Validators.PhoneAcceptedAsWritten(Some(f.phone)) then Err(PhoneInvalid)
    else Ok(())
  }

  /** The keys of the three selections. */
  const ContactMethods: set<string> := {"phone", "email", "zalo", "facebook"}
  const ContactTimes: set<string> := {"morning", "afternoon", "evening", "anytime"}
  const ContactReasons: set<string> :=
    {"general_inquiry", "course_inquiry", "product_inquiry", "consultation", "partnership", "support", "complaint", "other"}

  /** A selection value as the ORM takes it: absent, falsy (stored as
      `False`), or one of the keys. */
  predicate SelectionOk(v: Option<string>, keys: set<string>) {
    v.None? || v.value == "" || v.value in keys
  }

  /** The `ValueError` of a selection value outside the keys `%r` printed
      as a quoted text. */
  function WrongValue(field: string, value: string): string {
    "Wrong value for luc_khi.contact.form." + field + ": '" + value + "'"
  }

  /** The database's refusal of a `False` reason: the column is required. */
  const ReasonNull := "null value in column \"contact_reason\" of relation \"luc_khi_contact_form\" violates not-null constraint"

  /** What stops `create` before a row is inserted: a selection value outside
      its keys (method, time, then reason), or an empty reason. */
  function CreateFault(vals: FormVals): (r: Option<string>)
    ensures r.None? <==> SelectionOk(vals.contactMethod, ContactMethods) && SelectionOk(vals.contactTime, ContactTimes)
                         && SelectionOk(vals.reason, ContactReasons) && vals.reason != Some("")
    ensures !SelectionOk(vals.contactMethod, ContactMethods) ==>
      r == Some(WrongValue("preferred_contact_method", vals.contactMethod.value))
  {
    if !SelectionOk(vals.contactMethod, ContactMethods) then
      Some(WrongValue("preferred_contact_method", vals.contactMethod.value))
    else if !SelectionOk(vals.contactTime, ContactTimes) then
      Some(WrongValue("preferred_contact_time", vals.contactTime.value))
    else if !SelectionOk(vals.reason, ContactReasons) then
      Some(WrongValue("contact_reason", vals.reason.value))
    else if vals.reason == Some("") then Some(ReasonNull)
    else None
  }

  /** The lead's in-person method is no key of the form: a form posted with
      it is refused before anything is stored. */
  lemma InPersonRefused(vals: FormVals)
    requires vals.contactMethod == Some("in_person")
    ensures CreateFault(vals) == Some(WrongValue("preferred_contact_method", "in_person"))
  {
  }

  /** The user group `_auto_assign_user` looks up for a contact reason. */
  function AssignmentGroup(reason: string): (r: Option<string>)
    ensures reason == "general_inquiry" || reason == "other" ==> r.None?
    ensures r.Some? <==> reason in ["course_inquiry", "product_inquiry", "consultation", "partnership", "support", "complaint"]
  {
    if reason == "course_inquiry" || reason == "product_inquiry" then Some("sales_team.group_sale_salesman")
    else if reason == "consultation" then Some("sales_team.group_sale_manager")
    else if reason == "partnership" || reason == "complaint" then Some("base.group_system")
    else if reason == "support" then Some("base.group_user")
    else None
  }

  /** `_auto_assign_user`. `activeUserOf` is the host's lookup of the first
      active user of a group given by its XML id (`None` when the group or
      such a user is missing). */
  function AutoAssign(reason: string, activeUserOf: string -> Option<nat>): (r: Option<nat>)
    ensures AssignmentGroup(reason).None? ==> r.None?
    ensures AssignmentGroup(reason).Some? ==> r == activeUserOf(AssignmentGroup(reason).value)
  {
    match AssignmentGroup(reason)
    case None => None
    case Some(group) => activeUserOf(group)
  }

  /** The record `create` stores: `source` defaults to 'website', and the
      assignee is chosen from the reason only when none is given and the
      reason is non-empty; the selection defaults apply to absent keys, and
      a many2many `(6, 0, ids)` keeps each id once. */
  function CreatedForm(vals: FormVals, activeUserOf: string -> Option<nat>): (f: Form)
    ensures vals.source.None? ==> f.source == "website"
    ensures vals.source.Some? ==> f.source == vals.source.value
    ensures vals.assignedTo.Some? ==> f.assignedTo == vals.assignedTo
    ensures vals.assignedTo.None? && vals.reason.Some? && vals.reason.value != "" ==>
      f.assignedTo == AutoAssign(vals.reason.value, activeUserOf)
    ensures vals.assignedTo.None? && (vals.reason.None? || vals.reason.value == "") ==> f.assignedTo.None?
    ensures f.state == Draft && f.leadId.None?
    ensures f.reason == vals.reason.GetOr("general_inquiry")
    ensures forall c :: c in f.courses <==> vals.courses.Some? && c in vals.courses.value
    ensures forall i, j :: 0 <= i < j < |f.courses| ==> f.courses[i] != f.courses[j]
  {
    var assignee :=
      if vals.assignedTo.Some? then vals.assignedTo
      else if vals.reason.Some? && vals.reason.value != "" then AutoAssign(vals.reason.value, activeUserOf)
      else None;
    Form(vals.name, vals.email, vals.phone,
         vals.contactMethod.GetOr("phone"), vals.contactTime.GetOr("anytime"),
         vals.reason.GetOr("general_inquiry"), vals.subject, vals.message,
         Tally.FirstSeen(vals.elements.GetOr([])), Tally.FirstSeen(vals.courses.GetOr([])),
         Tally.FirstSeen(vals.products.GetOr([])),
         Draft, assignee, None, None, None, vals.source.GetOr("website"), vals.ipAddress, vals.userAgent)
  }

  /** `action_assign_to_me`: whatever the state. */
  function AssignedToMe(f: Form, user: nat): Form {
    f.(assignedTo := Some(user), state := InProgress)
  }

  /** `action_mark_responded`: whatever the state. */
  function MarkedResponded(f: Form, now: int): Form {
    f.(state := Responded, responseDate := Some(now))
  }

  /** `action_close`: whatever the state. */
  function ClosedForm(f: Form, now: int): Form {
    f.(state := Closed, resolutionDate := Some(now))
  }

  /** The values `action_convert_to_lead` gives the new lead. */
  datatype LeadDraft = LeadDraft(
    name: string,
    contactName: string,
    emailFrom: string,
    phone: string,
    description: string,
    fullNameVietnamese: string,
    phoneMobile: string,
    contactMethod: string,
    contactTime: string,
    courses: seq<nat>,
    products: seq<nat>)

  function DraftOf(f: Form): (d: LeadDraft)
    ensures d.name == f.subject && d.contactName == f.name && d.fullNameVietnamese == f.name
    ensures d.emailFrom == f.email && d.phone == f.phone && d.phoneMobile == f.phone
    ensures d.description == f.message && d.courses == f.courses && d.products == f.products
  {
    LeadDraft(f.subject, f.name, f.email, f.phone, f.message, f.name, f.phone,
              f.contactMethod, f.contactTime, f.courses, f.products)
  }

  /** What the lead analysis reads of the catalogue: the element codes of
      each course and of each product, and the elements in search order. */
  datatype Catalog = Catalog(courseCodes: nat -> seq<string>, productCodes: nat -> seq<string>,
                             elements: seq<CrmLead.Element>)

  function CodesOf(ids: seq<nat>, codes: nat -> seq<string>): (r: seq<seq<string>>)
    ensures |r| == |ids| && forall i :: 0 <= i < |ids| ==> r[i] == codes(ids[i])
  {
    seq(|ids|, i requires 0 <= i < |ids| => codes(ids[i]))
  }

  /** The part of the lead values the lead's constraints and analysis read:
      the mobile phone and both interests, which are always given. */
  function LeadValsOf(d: LeadDraft, catalog: Catalog): (v: CrmLead.LeadVals)
    ensures v.phoneMobile == Some(Some(d.phoneMobile)) && v.phoneHome.None?
    ensures v.companyTaxCode.None? && v.personalTaxCode.None? && v.blogCategories.None?
    ensures v.courses == Some(CodesOf(d.courses, catalog.courseCodes))
    ensures v.products == Some(CodesOf(d.products, catalog.productCodes))
  {
    CrmLead.LeadVals(Some(Some(d.phoneMobile)), None, None, None,
                     Some(CodesOf(d.courses, catalog.courseCodes)), Some(CodesOf(d.products, catalog.productCodes)), None)
  }

  /** `action_convert_to_lead`: refused once `lead_id` is set; otherwise the
      lead is created, which raises when its analysis meets an unknown
      element code, and on success the form points at the new lead
      (`leadId`) and is `converted`. */
  function Convert(f: Form, leadId: nat, catalog: Catalog): (r: Result<(Form, CrmLead.Lead)>)
    ensures var created := CrmLead.Created(LeadValsOf(DraftOf(f), catalog), catalog.elements);
      && (r.Err? <==> f.leadId.Some? || created.Err?)
      && (f.leadId.Some? ==> r == Err(AlreadyConverted))
      && (f.leadId.None? && created.Err? ==> r == Err(created.error))
      && (r.Ok? ==> r.value == (f.(leadId := Some(leadId), state := Converted), created.value))
  {
    if f.leadId.Some? then Err(AlreadyConverted)
    else
      match CrmLead.Created(LeadValsOf(DraftOf(f), catalog), catalog.elements)
      case Err(e) => Err(e)
      case Ok(lead) => Ok((f.(leadId := Some(leadId), state := Converted), lead))
  }

  /** A stored form (one that passed its constraints) converts exactly when
      every element code of its courses and products is one of the six keys;
      otherwise the lead's analysis raises `KeyError`. The lead's mobile
      phone is the form's phone, which the same pattern already accepted. */
  lemma ConvertFailsOnlyOnUnknownCodes(f: Form, leadId: nat, catalog: Catalog)
    requires f.leadId.None? && CheckConstraints(f).Ok?
    ensures Convert(f, leadId, catalog).Ok? <==>
      CrmLead.Known(CodesOf(f.courses, catalog.courseCodes)) && CrmLead.Known(CodesOf(f.products, catalog.productCodes))
    ensures Convert(f, leadId, catalog).Err? ==> Convert(f, leadId, catalog).error == CrmLead.KeyErrorMsg
  {
    var vals := LeadValsOf(DraftOf(f), catalog);
    var row := CrmLead.Inserted(vals);
    assert row.phoneMobile == Some(f.phone) && row.phoneHome.None?;
    assert CrmLead.CheckConstraints(row).Ok?;
    assert row.courses == CodesOf(f.courses, catalog.courseCodes) && row.products == CodesOf(f.products, catalog.productCodes);
    assert row.blogCategories == [];
  }

  /** The form and lead tables after `action_convert_to_lead` on form `i`,
      with the lead's id its position: a refusal changes nothing; a failed
      lead creation raises with the inserted lead row in place and the form
      unconverted; a success links the new lead. */
  function ConvertState(forms: seq<Form>, leads: seq<CrmLead.Lead>, i: nat, catalog: Catalog)
    : (r: (Result<nat>, seq<Form>, seq<CrmLead.Lead>))
    requires i < |forms|
    ensures var c := Convert(forms[i], |leads|, catalog);
      && (r.0.Ok? <==> c.Ok?)
      && (c.Ok? ==> r.0 == Ok(|leads|) && r.1 == forms[i := c.value.0] && r.2 == leads + [c.value.1])
      && (forms[i].leadId.Some? ==> r == (Err(AlreadyConverted), forms, leads))
      && (forms[i].leadId.None? && c.Err? ==>
            r == (Err(c.error), forms, leads + [CrmLead.Inserted(LeadValsOf(DraftOf(forms[i]), catalog))]))
  {
    if forms[i].leadId.Some? then (Err(AlreadyConverted), forms, leads)
    else
      var vals := LeadValsOf(DraftOf(forms[i]), catalog);
      match Convert(forms[i], |leads|, catalog)
      case Err(e) => (Err(e), forms, leads + [CrmLead.Inserted(vals)])
      case Ok(c) => (Ok(|leads|), forms[i := c.0], leads + [c.1])
  }

  /** The actions a user can run on a form. */
  datatype Action = AssignMe(user: nat) | Respond(at: int) | Close(at: int) | ConvertTo(leadId: nat)

  /** One action; a refused or failed conversion leaves the form as it was. */
  function Step(f: Form, a: Action, catalog: Catalog): (g: Form)
    ensures f.leadId.Some? ==> g.leadId == f.leadId
  {
    match a
    case AssignMe(u) => AssignedToMe(f, u)
    case Respond(t) => MarkedResponded(f, t)
    case Close(t) => ClosedForm(f, t)
    case ConvertTo(id) => (var c := Convert(f, id, catalog); if c.Ok? then c.value.0 else f)
  }

  /** The form after a run of actions. */
  function Run(f: Form, actions: seq<Action>, catalog: Catalog): Form
    decreases |actions|
  {
    if actions == [] then f
    else
      Run(Step(f, actions[0], catalog), actions[1..], catalog)
  }

  /** Conversion is one-shot: once converted, no later run of actions makes
      another conversion succeed, and the first lead stays linked. */
  lemma {:induction false} ConversionIsOneShot(f: Form, leadId: nat, catalog: Catalog, actions: seq<Action>, again: nat)
    requires Convert(f, leadId, catalog).Ok?
    ensures Run(Convert(f, leadId, catalog).value.0, actions, catalog).leadId == Some(leadId)
    ensures Convert(Run(Convert(f, leadId, catalog).value.0, actions, catalog), again, catalog) == Err(AlreadyConverted)
  {
    LinkSurvives(Convert(f, leadId, catalog).value.0, actions, catalog);
  }

  lemma {:induction false} LinkSurvives(f: Form, actions: seq<Action>, catalog: Catalog)
    requires f.leadId.Some?
    ensures Run(f, actions, catalog).leadId == f.leadId
    decreases |actions|
  {
    if actions != [] {
      LinkSurvives(Step(f, actions[0], catalog), actions[1..], catalog);
    }
  }

  /** The form table after `create`: a fault found before the insert stores
      nothing; otherwise the row is inserted and then checked, so a
      constraint failure raises with the row in place. */
  function CreateState(forms: seq<Form>, vals: FormVals, activeUserOf: string -> Option<nat>)
    : (r: (Result<nat>, seq<Form>))
    ensures var f := CreatedForm(vals, activeUserOf);
      && (r.0.Ok? <==> CreateFault(vals).None? && CheckConstraints(f).Ok?)
      && (CreateFault(vals).Some? ==> r == (Err(CreateFault(vals).value), forms))
      && (CreateFault(vals).None? ==> r.1 == forms + [f])
      && (CreateFault(vals).None? && CheckConstraints(f).Err? ==> r.0 == Err(CheckConstraints(f).error))
      && (r.0.Ok? ==> r.0.value == |forms|)
  {
    match CreateFault(vals)
    case Some(e) => (Err(e), forms)
    case None =>
      var f := CreatedForm(vals, activeUserOf);
      (if CheckConstraints(f).Err? then Err(CheckConstraints(f).error) else Ok(|forms|), forms + [f])
  }

  /** The contact-form table. Form ids are positions in `forms`. A method
      that raises leaves the state it had reached: a caller that lets the
      error escape has its transaction rolled back, one that catches it (the
      website controller) commits that state. */
  class FormTable {
    var forms: seq<Form>

    constructor()
      ensures forms == []
    {
      forms := [];
    }

    /** `create`: the selection values are checked, the row is inserted, and
        the constraints are run on it. */
    method Create(vals: FormVals, activeUserOf: string -> Option<nat>) returns (r: Result<nat>)
      modifies this
      ensures (r, forms) == CreateState(old(forms), vals, activeUserOf)
    {
      var fault := CreateFault(vals);
      if fault.Some? {
        return Err(fault.value);
      }
      var f := CreatedForm(vals, activeUserOf);
      forms := forms + [f];
      var checked := CheckConstraints(f);
      if checked.Err? {
        return Err(checked.error);
      }
      return Ok(|forms| - 1);
    }

    method AssignToMe(i: nat, user: nat)
      requires i < |forms|
      modifies this
      ensures forms == old(forms)[i := AssignedToMe(old(forms[i]), user)]
    {
      forms := forms[i := AssignedToMe(forms[i], user)];
    }

    method MarkResponded(i: nat, now: int)
      requires i < |forms|
      modifies this
      ensures forms == old(forms)[i := MarkedResponded(old(forms[i]), now)]
    {
      forms := forms[i := MarkedResponded(forms[i], now)];
    }

    method CloseForm(i: nat, now: int)
      requires i < |forms|
      modifies this
      ensures forms == old(forms)[i := ClosedForm(old(forms[i]), now)]
    {
      forms := forms[i := ClosedForm(forms[i], now)];
    }

    /** `action_convert_to_lead` on form `i`, creating the lead in `leads`. */
    method ConvertToLead(i: nat, leads: CrmLead.LeadTable, catalog: Catalog) returns (r: Result<nat>)
      requires i < |forms|
      modifies this, leads
      ensures (r, forms, leads.leads) == ConvertState(old(forms), old(leads.leads), i, catalog)
    {
      if forms[i].leadId.Some? {
        return Err(AlreadyConverted);
      }
      var vals := LeadValsOf(DraftOf(forms[i]), catalog);
      var created := leads.Create(vals, catalog.elements);
      if created.Err? {
        return Err(created.error);
      }
      forms := forms[i := forms[i].(leadId := Some(created.value), state := Converted)];
      return Ok(created.value);
    }
  }
}
