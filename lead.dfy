// CRM leads with the Luc Khi profile: phone and tax-code constraints, the
// element scores built from the interests, the dominant element, the energy
// level and the lead score.
module CrmLead {
  import opened Wrappers
  import Validators

  /** The six element codes, in the order the score dictionary is built. */
  const ElementCodes: seq<string> := ["KIM", "MOC", "THUY", "HOA", "THO", "PHONG"]

  datatype Energy = Low | Medium | High | VeryHigh

  /** A `luc_khi.element` record. */
  datatype Element = Element(id: nat, code: string)

  /** A lead: each interest is given by the element codes it carries. */
  datatype Lead = Lead(
    phoneMobile: Option<string>,
    phoneHome: Option<string>,
    companyTaxCode: Option<string>,
    personalTaxCode: Option<string>,
    courses: seq<seq<string>>,
    products: seq<seq<string>>,
    blogCategories: seq<seq<string>>,
    dominant: Option<nat>,
    elementScores: Option<seq<nat>>,
    energy: Option<Energy>,
    score: nat)

  const MobileInvalid := "Số điện thoại di động không hợp lệ. Vui lòng nhập số điện thoại Việt Nam hợp lệ."
  const HomeInvalid := "Số điện thoại nhà không hợp lệ. Vui lòng nhập số điện thoại Việt Nam hợp lệ."
  const CompanyTaxInvalid := "Mã số thuế công ty không hợp lệ."
  const PersonalTaxInvalid := "Mã số thuế cá nhân không hợp lệ."
  const NeedsAnalysis := "Cần phân tích hồ sơ Lục Khí trước khi gửi khuyến nghị."

  /** `_check_phone_numbers`, with the operator class as written: the mobile
      number is checked before the home one. */
  function CheckPhoneNumbers(lead: Lead): (r: Result<()>)
    ensures r.Ok? <==> Validators.PhoneAcceptedAsWritten(lead.phoneMobile) && Validators.PhoneAcceptedAsWritten(lead.phoneHome)
    ensures !Validators.PhoneAcceptedAsWritten(lead.phoneMobile) ==> r == Err(MobileInvalid)
    ensures Validators.PhoneAcceptedAsWritten(lead.phoneMobile) && !Validators.PhoneAcceptedAsWritten(lead.phoneHome) ==> r == Err(HomeInvalid)
  {
    if !Validators.PhoneAcceptedAsWritten(lead.phoneMobile) then Err(MobileInvalid)
    else if !Validators.PhoneAcceptedAsWritten(lead.phoneHome) then Err(HomeInvalid)
    else Ok(())
  }

  /** `_check_tax_codes`: the company code is checked before the personal one. */
  function CheckTaxCodes(lead: Lead): (r: Result<()>)
    ensures r.Ok? <==> Validators.TaxCodeAccepted(lead.companyTaxCode) && Validators.TaxCodeAccepted(lead.personalTaxCode)
    ensures !Validators.TaxCodeAccepted(lead.companyTaxCode) ==> r == Err(CompanyTaxInvalid)
    ensures Validators.TaxCodeAccepted(lead.companyTaxCode) && !Validators.TaxCodeAccepted(lead.personalTaxCode) ==> r == Err(PersonalTaxInvalid)
  {
    if !Validators.TaxCodeAccepted(lead.companyTaxCode) then Err(CompanyTaxInvalid)
    else if !Validators.TaxCodeAccepted(lead.personalTaxCode) then Err(PersonalTaxInvalid)
    else Ok(())
  }

  /** Both constraints, phones first: what `create` runs on a new row. */
  function CheckConstraints(lead: Lead): Result<()> {
    var p := CheckPhoneNumbers(lead);
    if p.Err? then p else CheckTaxCodes(lead)
  }

  function EnergyBonus(e: Option<Energy>): (r: nat)
    ensures e.None? ==> r == 0
    ensures e.Some? ==> 5 <= r <= 20
  {
    match e
    case None => 0
    case Some(Low) => 5
    case Some(Medium) => 10
    case Some(High) => 15
    case Some(VeryHigh) => 20
  }

  /** The uncapped sum of `_compute_luc_khi_lead_score`. */
  function RawScore(lead: Lead): nat {
    (if lead.dominant.Some? then 20 else 0) + EnergyBonus(lead.energy)
      + 5 * |lead.courses| + 3 * |lead.products| + 2 * |lead.blogCategories|
  }

  /** `_compute_luc_khi_lead_score`: the sum, capped at 100. */
  function LeadScore(lead: Lead): (r: nat)
    ensures r <= 100
    ensures r <= RawScore(lead)
    ensures r == RawScore(lead) || r == 100
  {
    if RawScore(lead) < 100 then RawScore(lead) else 100
  }

  /** More interests never lower the score. */
  lemma ScoreMonotone(lead: Lead, course: seq<string>)
    ensures LeadScore(lead) <= LeadScore(lead.(courses := lead.courses + [course]))
    ensures LeadScore(lead) < 100 ==> LeadScore(lead) < LeadScore(lead.(courses := lead.courses + [course]))
  {
    var more := lead.(courses := lead.courses + [course]);
    assert RawScore(more) == RawScore(lead) + 5;
  }

  /** Occurrences of `c` in `codes`. */
  function Count(codes: seq<string>, c: string): nat {
    if codes == [] then 0 else Count(codes[..|codes| - 1], c) + (if codes[|codes| - 1] == c then 1 else 0)
  }

  /** Occurrences of `c` over every group. */
  function Occurrences(groups: seq<seq<string>>, c: string): nat {
    if groups == [] then 0 else Occurrences(groups[..|groups| - 1], c) + Count(groups[|groups| - 1], c)
  }

  /** Every code of every group is one of the six keys. */
  predicate Known(groups: seq<seq<string>>) {
    forall i, j :: 0 <= i < |groups| && 0 <= j < |groups[i]| ==> groups[i][j] in ElementCodes
  }

  /** What `_analyze_luc_khi_profile` adds up: 2 per course element and 1 per
      product or blog-category element. A code outside the six keys raises
      (`KeyError`). */
  function ElementScores(lead: Lead): (r: Option<seq<nat>>)
    ensures r.Some? <==> Known(lead.courses) && Known(lead.products) && Known(lead.blogCategories)
    ensures r.Some? ==> |r.value| == 6
  {
    if Known(lead.courses) && Known(lead.products) && Known(lead.blogCategories) then
      Some(seq(6, k requires 0 <= k < 6 =>
        2 * Occurrences(lead.courses, ElementCodes[k]) + Occurrences(lead.products, ElementCodes[k])
          + Occurrences(lead.blogCategories, ElementCodes[k])))
    else None
  }

  /** Python `max(d.items(), key=...)` over the six keys: the first index
      with the largest score. */
  function FirstMax(scores: seq<nat>): (r: nat)
    requires |scores| > 0
    ensures r < |scores|
    ensures forall j :: 0 <= j < |scores| ==> scores[j] <= scores[r]
    ensures forall j :: 0 <= j < r ==> scores[j] < scores[r]
  {
    if |scores| == 1 then 0
    else
      var k := FirstMax(scores[..|scores| - 1]);
      if scores[|scores| - 1] > scores[k] then |scores| - 1 else k
  }

  /** With no interests every score is zero, and the first key wins. */
  lemma AllZeroIsFirst(scores: seq<nat>)
    requires |scores| > 0 && forall j :: 0 <= j < |scores| ==> scores[j] == 0
    ensures FirstMax(scores) == 0
  {
  }

  function Sum(s: seq<nat>): nat {
    if s == [] then 0 else Sum(s[..|s| - 1]) + s[|s| - 1]
  }

  /** `_calculate_energy_level` with `max_possible = 6 * 3`: the thresholds
      80%, 60% and 40% of 18 fall between integers, at 15, 11 and 8. */
  function EnergyLevel(total: nat): (r: Energy)
    ensures r == VeryHigh <==> total >= 15
    ensures r == High <==> 11 <= total < 15
    ensures r == Medium <==> 8 <= total < 11
    ensures r == Low <==> total < 8
  {
    var maxPossible := 6.0 * 3.0;
    if total as real >= maxPossible * 0.8 then VeryHigh
    else if total as real >= maxPossible * 0.6 then High
    else if total as real >= maxPossible * 0.4 then Medium
    else Low
  }

  /** Some element before position `j` carries `code`. */
  predicate CodeBefore(elements: seq<Element>, code: string, j: nat)
    requires j <= |elements|
  {
    exists k :: 0 <= k < j && elements[k].code == code
  }

  /** `search([('code', '=', code)], limit=1)` over the elements in their
      search order: the first element with that code. */
  function FindElement(elements: seq<Element>, code: string): (r: Option<nat>)
    ensures r.Some? ==> exists j :: 0 <= j < |elements| && elements[j].code == code && elements[j].id == r.value
                                && !CodeBefore(elements, code, j)
    ensures r.None? ==> forall j :: 0 <= j < |elements| ==> elements[j].code != code
  {
    if elements == [] then None
    else if elements[0].code == code then Some(elements[0].id)
    else
      var r := FindElement(elements[1..], code);
      if r.None? then None
      else
        var j :| 0 <= j < |elements[1..]| && elements[1..][j].code == code && elements[1..][j].id == r.value
                 && !CodeBefore(elements[1..], code, j);
        assert !CodeBefore(elements, code, j + 1) by {
          forall k | 0 <= k < j + 1 ensures elements[k].code != code {
            if k > 0 { assert elements[k] == elements[1..][k - 1]; }
          }
        }
        r
  }

  /** The lead after `_analyze_luc_khi_profile`; `None` when it raises. */
  function Analyzed(lead: Lead, elements: seq<Element>): (r: Option<Lead>)
    ensures r.Some? <==> ElementScores(lead).Some?
    ensures r.Some? ==>
      var scores := ElementScores(lead).value;
      && r.value == lead.(dominant := FindElement(elements, ElementCodes[FirstMax(scores)]),
                          elementScores := Some(scores),
                          energy := Some(EnergyLevel(Sum(scores))))
  {
    match ElementScores(lead)
    case None => None
    case Some(scores) =>
      Some(lead.(dominant := FindElement(elements, ElementCodes[FirstMax(scores)]),
                 elementScores := Some(scores),
                 energy := Some(EnergyLevel(Sum(scores)))))
  }

  /** The values given to `create` or `write` for the constrained fields
      and the interests. A key left out is `None`; a Char field given
      `False` is `Some(None)`. */
  datatype LeadVals = LeadVals(
    phoneMobile: Option<Option<string>>,
    phoneHome: Option<Option<string>>,
    companyTaxCode: Option<Option<string>>,
    personalTaxCode: Option<Option<string>>,
    courses: Option<seq<seq<string>>>,
    products: Option<seq<seq<string>>>,
    blogCategories: Option<seq<seq<string>>>)

  /** The interest keys whose presence in the values triggers an analysis. */
  predicate MentionsInterests(vals: LeadVals) {
    vals.courses.Some? || vals.products.Some? || vals.blogCategories.Some?
  }

  predicate MentionsPhones(vals: LeadVals) {
    vals.phoneMobile.Some? || vals.phoneHome.Some?
  }

  predicate MentionsTaxCodes(vals: LeadVals) {
    vals.companyTaxCode.Some? || vals.personalTaxCode.Some?
  }

  function Apply(lead: Lead, vals: LeadVals): Lead {
    lead.(phoneMobile := vals.phoneMobile.GetOr(lead.phoneMobile),
          phoneHome := vals.phoneHome.GetOr(lead.phoneHome),
          companyTaxCode := vals.companyTaxCode.GetOr(lead.companyTaxCode),
          personalTaxCode := vals.personalTaxCode.GetOr(lead.personalTaxCode),
          courses := vals.courses.GetOr(lead.courses),
          products := vals.products.GetOr(lead.products),
          blogCategories := vals.blogCategories.GetOr(lead.blogCategories))
  }

  /** `_validate_fields(vals)`: a constraint runs only when one of its fields
      is among the values, and `_check_phone_numbers` runs before
      `_check_tax_codes`. */
  function ConstraintsOn(stored: Lead, vals: LeadVals): (r: Result<()>)
    ensures r.Ok? <==> ((MentionsPhones(vals) ==> CheckPhoneNumbers(stored).Ok?)
                        && (MentionsTaxCodes(vals) ==> CheckTaxCodes(stored).Ok?))
    ensures MentionsPhones(vals) && CheckPhoneNumbers(stored).Err? ==> r == CheckPhoneNumbers(stored)
    ensures !(MentionsPhones(vals) && CheckPhoneNumbers(stored).Err?) && r.Err? ==> r == CheckTaxCodes(stored)
  {
    if MentionsPhones(vals) && CheckPhoneNumbers(stored).Err? then CheckPhoneNumbers(stored)
    else if MentionsTaxCodes(vals) then CheckTaxCodes(stored)
    else Ok(())
  }

  const KeyErrorMsg := "KeyError"

  /** `write`: store the values, run the constraints on the fields written,
      and analyse again only when an interest key is among the values; the
      analysis writes the dominant element and the energy, so the stored
      score is then recomputed. `Err` is the exception. */
  function Written(lead: Lead, vals: LeadVals, elements: seq<Element>): (r: Result<Lead>)
    ensures ConstraintsOn(Apply(lead, vals), vals).Err? ==> r == Err(ConstraintsOn(Apply(lead, vals), vals).error)
    ensures r.Ok? <==> (ConstraintsOn(Apply(lead, vals), vals).Ok?
                        && (MentionsInterests(vals) ==> ElementScores(Apply(lead, vals)).Some?))
    ensures r.Err? && ConstraintsOn(Apply(lead, vals), vals).Ok? ==> r.error == KeyErrorMsg
    ensures r.Ok? && !MentionsInterests(vals) ==> r.value == Apply(lead, vals)
    ensures r.Ok? && MentionsInterests(vals) ==>
      var l := Analyzed(Apply(lead, vals), elements).value;
      r.value == l.(score := LeadScore(l))
  {
    var stored := Apply(lead, vals);
    var checked := ConstraintsOn(stored, vals);
    if checked.Err? then Err(checked.error)
    else if !MentionsInterests(vals) then Ok(stored)
    else
      match Analyzed(stored, elements)
      case None => Err(KeyErrorMsg)
      case Some(l) => Ok(l.(score := LeadScore(l)))
  }

  /** A write that names no interest leaves the analysis and the score as
      they were. */
  lemma WriteKeepsAnalysis(lead: Lead, vals: LeadVals, elements: seq<Element>)
    requires !MentionsInterests(vals) && Written(lead, vals, elements).Ok?
    ensures var l := Written(lead, vals, elements).value;
      && l.dominant == lead.dominant && l.elementScores == lead.elementScores && l.energy == lead.energy
      && l.score == lead.score
  {
  }

  /** A constraint is not run again on fields the values leave alone: a lead
      stored with an invalid phone still takes a write of its tax codes, and
      one with an invalid tax code a write of its phones. */
  lemma WriteChecksWrittenFieldsOnly(lead: Lead, vals: LeadVals, elements: seq<Element>)
    requires !MentionsInterests(vals)
    requires !MentionsPhones(vals) || CheckPhoneNumbers(Apply(lead, vals)).Ok?
    requires !MentionsTaxCodes(vals) || CheckTaxCodes(Apply(lead, vals)).Ok?
    ensures Written(lead, vals, elements) == Ok(Apply(lead, vals))
  {
  }

  /** The record `create` starts from: no phones, tax codes or interests,
      no analysis, and the `medium` energy default. */
  const Blank: Lead := Lead(None, None, None, None, [], [], [], None, None, Some(Medium), 0)

  /** The row `create` inserts: the values over the defaults, with the stored
      score computed. */
  function Inserted(vals: LeadVals): (l: Lead)
    ensures l.score == LeadScore(Apply(Blank, vals))
    ensures l.(score := 0) == Apply(Blank, vals)
  {
    var s := Apply(Blank, vals);
    s.(score := LeadScore(s))
  }

  /** On a new row every constraint sees its fields: a field the values do
      not give is empty and passes. */
  lemma FreshRowChecksAll(vals: LeadVals)
    ensures ConstraintsOn(Inserted(vals), vals) == CheckConstraints(Inserted(vals))
  {
  }

  /** `create`: the row is inserted, the constraints are run on it, and it is
      analysed when an interest key is among the values, as
      `luc_khi_crm_lead.py` does after `super().create`. */
  function Created(vals: LeadVals, elements: seq<Element>): (r: Result<Lead>)
    ensures CheckConstraints(Inserted(vals)).Err? ==> r == Err(CheckConstraints(Inserted(vals)).error)
    ensures r.Ok? <==> (CheckConstraints(Inserted(vals)).Ok?
                        && (MentionsInterests(vals) ==> ElementScores(Inserted(vals)).Some?))
    ensures r.Err? && CheckConstraints(Inserted(vals)).Ok? ==> r.error == KeyErrorMsg
    ensures r.Ok? && !MentionsInterests(vals) ==> r.value == Inserted(vals)
    ensures r.Ok? && MentionsInterests(vals) ==>
      var l := Analyzed(Inserted(vals), elements).value;
      r.value == l.(score := LeadScore(l))
  {
    var row := Inserted(vals);
    assert Apply(row, vals) == row;
    FreshRowChecksAll(vals);
    Written(row, vals, elements)
  }

  /** `action_send_luc_khi_recommendation` refuses a lead without a dominant element. */
  function SendRecommendation(lead: Lead): (r: Result<()>)
    ensures r.Err? <==> lead.dominant.None?
    ensures r.Err? ==> r.error == NeedsAnalysis
  {
    if lead.dominant.None? then Err(NeedsAnalysis) else Ok(())
  }

  lemma CountSplit(codes: seq<string>, n: nat, c: string)
    requires n < |codes|
    ensures Count(codes[..n + 1], c) == Count(codes[..n], c) + (if codes[n] == c then 1 else 0)
  {
    assert codes[..n + 1][..n] == codes[..n];
  }

  lemma OccurrencesSplit(groups: seq<seq<string>>, n: nat, c: string)
    requires n < |groups|
    ensures Occurrences(groups[..n + 1], c) == Occurrences(groups[..n], c) + Count(groups[n], c)
  {
    assert groups[..n + 1][..n] == groups[..n];
  }

  lemma Distribute(w: nat, a: nat, b: nat)
    ensures w * (a + b) == w * a + w * b
  {
  }

  /** `acc` is `start` plus `weight` for each occurrence of each key in `codes`. */
  ghost predicate TalliedCodes(acc: seq<nat>, start: seq<nat>, codes: seq<string>, weight: nat) {
    |acc| == 6 && |start| == 6 &&
    forall k :: 0 <= k < 6 ==> acc[k] == start[k] + weight * Count(codes, ElementCodes[k])
  }

  /** `acc` is `start` plus `weight` for each occurrence over the groups. */
  ghost predicate TalliedGroups(acc: seq<nat>, start: seq<nat>, groups: seq<seq<string>>, weight: nat) {
    |acc| == 6 && |start| == 6 &&
    forall k :: 0 <= k < 6 ==> acc[k] == start[k] + weight * Occurrences(groups, ElementCodes[k])
  }

  lemma CodeStep(acc: seq<nat>, start: seq<nat>, codes: seq<string>, c: nat, weight: nat, k: nat)
    requires c < |codes| && k < 6 && codes[c] == ElementCodes[k]
    requires TalliedCodes(acc, start, codes[..c], weight)
    ensures TalliedCodes(acc[k := acc[k] + weight], start, codes[..c + 1], weight)
  {
    forall i | 0 <= i < 6
      ensures acc[k := acc[k] + weight][i] == start[i] + weight * Count(codes[..c + 1], ElementCodes[i])
    {
      CountSplit(codes, c, ElementCodes[i]);
      Distribute(weight, Count(codes[..c], ElementCodes[i]), 1);
      if i != k { assert ElementCodes[i] != ElementCodes[k]; }
    }
  }

  lemma GroupStep(acc: seq<nat>, next: seq<nat>, start: seq<nat>, groups: seq<seq<string>>, g: nat, weight: nat)
    requires g < |groups|
    requires TalliedGroups(acc, start, groups[..g], weight)
    requires TalliedCodes(next, acc, groups[g], weight)
    ensures TalliedGroups(next, start, groups[..g + 1], weight)
  {
    forall i | 0 <= i < 6
      ensures next[i] == start[i] + weight * Occurrences(groups[..g + 1], ElementCodes[i])
    {
      OccurrencesSplit(groups, g, ElementCodes[i]);
      Distribute(weight, Occurrences(groups[..g], ElementCodes[i]), Count(groups[g], ElementCodes[i]));
    }
  }

  /** Adding `weight` for each code of one group. */
  method AddCodes(start: seq<nat>, codes: seq<string>, weight: nat) returns (r: Option<seq<nat>>)
    requires |start| == 6
    ensures r.Some? <==> forall j :: 0 <= j < |codes| ==> codes[j] in ElementCodes
    ensures r.Some? ==> TalliedCodes(r.value, start, codes, weight)
  {
    var acc: seq<nat> := start;
    var c := 0;
    assert codes[..0] == [];
    while c < |codes|
      invariant 0 <= c <= |codes|
      invariant forall j :: 0 <= j < c ==> codes[j] in ElementCodes
      invariant TalliedCodes(acc, start, codes[..c], weight)
    {
      var k := IndexOfCode(codes[c]);
      if k.None? {
        return None;
      }
      CodeStep(acc, start, codes, c, weight, k.value);
      acc := acc[k.value := acc[k.value] + weight];
      c := c + 1;
    }
    assert codes[..c] == codes;
    return Some(acc);
  }

  lemma KnownStep(groups: seq<seq<string>>, g: nat)
    requires g < |groups| && Known(groups[..g])
    requires forall j :: 0 <= j < |groups[g]| ==> groups[g][j] in ElementCodes
    ensures Known(groups[..g + 1])
  {
    var pre := groups[..g + 1];
    forall i, j | 0 <= i < |pre| && 0 <= j < |pre[i]| ensures pre[i][j] in ElementCodes {
      if i < g { assert pre[i] == groups[..g][i]; }
    }
  }

  /** Adding `weight` per element of each group, group by group. A code
      outside the six keys stops the loop. */
  method AddGroups(start: seq<nat>, groups: seq<seq<string>>, weight: nat) returns (r: Option<seq<nat>>)
    requires |start| == 6
    ensures r.Some? <==> Known(groups)
    ensures r.Some? ==> TalliedGroups(r.value, start, groups, weight)
  {
    var acc: seq<nat> := start;
    var g := 0;
    assert groups[..0] == [];
    while g < |groups|
      invariant 0 <= g <= |groups|
      invariant Known(groups[..g])
      invariant TalliedGroups(acc, start, groups[..g], weight)
    {
      var next := AddCodes(acc, groups[g], weight);
      if next.None? {
        var j :| 0 <= j < |groups[g]| && groups[g][j] !in ElementCodes;
        return None;
      }
      GroupStep(acc, next.value, start, groups, g, weight);
      KnownStep(groups, g);
      acc := next.value;
      g := g + 1;
    }
    assert groups[..g] == groups;
    return Some(acc);
  }

  /** The position of a code among the six keys. */
  function IndexOfCode(code: string): (r: Option<nat>)
    ensures r.None? <==> code !in ElementCodes
    ensures r.Some? ==> r.value < 6 && ElementCodes[r.value] == code
    ensures r.Some? ==> forall j :: 0 <= j < 6 && j != r.value ==> ElementCodes[j] != code
  {
    if code == "KIM" then Some(0)
    else if code == "MOC" then Some(1)
    else if code == "THUY" then Some(2)
    else if code == "HOA" then Some(3)
    else if code == "THO" then Some(4)
    else if code == "PHONG" then Some(5)
    else None
  }

  /** The lead table the compute and the analysis write to. */
  class LeadTable {
    var leads: seq<Lead>

    constructor(leads: seq<Lead>)
      ensures this.leads == leads
    {
      this.leads := leads;
    }

    /** `_analyze_luc_khi_profile` on lead `i`: courses, then products, then
        blog categories; a code outside the six keys raises and nothing is
        written. */
    method AnalyzeProfile(i: nat, elements: seq<Element>) returns (ok: bool)
      requires i < |leads|
      modifies this
      ensures ok <==> Analyzed(old(leads[i]), elements).Some?
      ensures ok ==> leads == old(leads)[i := Analyzed(old(leads[i]), elements).value]
      ensures !ok ==> leads == old(leads)
    {
      var lead := leads[i];
      var zero: seq<nat> := [0, 0, 0, 0, 0, 0];
      var s1 := AddGroups(zero, lead.courses, 2);
      if s1.None? { return false; }
      var s2 := AddGroups(s1.value, lead.products, 1);
      if s2.None? { return false; }
      var s3 := AddGroups(s2.value, lead.blogCategories, 1);
      if s3.None? { return false; }
      var scores := s3.value;
      assert scores == ElementScores(lead).value;
      var dominant := FindElement(elements, ElementCodes[FirstMax(scores)]);
      leads := leads[i := lead.(dominant := dominant, elementScores := Some(scores), energy := Some(EnergyLevel(Sum(scores))))];
      return true;
    }

    /** `create`: the row is inserted first, then the constraints and, when
        an interest key is given, `_analyze_luc_khi_profile` run on it. A
        failure raises with the inserted row in place: a caller that lets
        the error escape has its transaction rolled back, one that catches
        it commits the row. The new lead's id is its position. */
    method Create(vals: LeadVals, elements: seq<Element>) returns (r: Result<nat>)
      modifies this
      ensures r.Ok? <==> Created(vals, elements).Ok?
      ensures r.Err? ==> r.error == Created(vals, elements).error && leads == old(leads) + [Inserted(vals)]
      ensures r.Ok? ==> r.value == |old(leads)| && leads == old(leads) + [Created(vals, elements).value]
    {
      var row := Inserted(vals);
      leads := leads + [row];
      var checked := CheckConstraints(row);
      if checked.Err? {
        return Err(checked.error);
      }
      if MentionsInterests(vals) {
        var i := |leads| - 1;
        var ok := AnalyzeProfile(i, elements);
        if !ok {
          return Err(KeyErrorMsg);
        }
        leads := leads[i := leads[i].(score := LeadScore(leads[i]))];
      }
      return Ok(|leads| - 1);
    }

    /** `_compute_luc_khi_lead_score` over every lead. */
    method ComputeLeadScores()
      modifies this
      ensures |leads| == |old(leads)|
      ensures forall j :: 0 <= j < |leads| ==> leads[j] == old(leads[j]).(score := LeadScore(old(leads[j])))
    {
      var j := 0;
      while j < |leads|
        invariant 0 <= j <= |leads| && |leads| == |old(leads)|
        invariant forall q :: 0 <= q < j ==> leads[q] == old(leads[q]).(score := LeadScore(old(leads[q])))
        invariant forall q :: j <= q < |leads| ==> leads[q] == old(leads[q])
      {
        leads := leads[j := leads[j].(score := LeadScore(leads[j]))];
        j := j + 1;
      }
    }
  }
}
