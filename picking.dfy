// Delivery orders (`stock.picking`) with recipient fields filled from the
// partner, a tracking link, a vendor bill for the carrier and Track123
// tracking: registration and query responses, the field update built from a
// tracking record, and the push webhook.
module StockPicking {
  import opened Wrappers
  import opened Json
  import opened DateTimes
  import Text

  /** What a picking field holds: `False`, text, a record id, a date-time, or
      a non-text value copied from a Track123 response. */
  datatype Value = VFalse | VText(s: string) | VRef(id: nat) | VTime(t: Moment) | VRaw(j: Json)

  /** A picking record: field name to value. */
  type Rec = map<string, Value>

  datatype Partner = Partner(
    name: string,
    stateId: Option<nat>,
    city: string,
    street: string,
    street2: string,
    countryId: Option<nat>,
    website: string)

  const RecipientKeys: set<string> :=
    {"recipient_name", "recipient_state_id", "recipient_city", "recipient_street", "recipient_street2", "recipient_country_id"}

  /** `value or False` for a text field. */
  function TextOrFalse(s: string): Value {
    if s == "" then VFalse else VText(s)
  }

  /** `ref.id if ref else False` for a many2one field. */
  function RefOrFalse(r: Option<nat>): Value {
    if r.None? then VFalse else VRef(r.value)
  }

  /** A text field read back: `False` reads as the empty text. */
  function ReadText(v: Value): string {
    if v.VText? then v.s else ""
  }

  /** A many2one field read back. */
  function ReadRef(v: Value): Option<nat> {
    if v.VRef? then Some(v.id) else None
  }

  /** `_prefill_recipient_from_partner`: the six recipient fields, `False` for a missing one. */
  function Prefill(p: Partner): (r: Rec)
    ensures r.Keys == RecipientKeys
    ensures forall k :: k in r ==> r[k] != VText("")
  {
    map["recipient_name" := TextOrFalse(p.name),
        "recipient_state_id" := RefOrFalse(p.stateId),
        "recipient_city" := TextOrFalse(p.city),
        "recipient_street" := TextOrFalse(p.street),
        "recipient_street2" := TextOrFalse(p.street2),
        "recipient_country_id" := RefOrFalse(p.countryId)]
  }

  /** The recipient fields read back give the partner's own values. */
  lemma PrefillReadsBack(p: Partner)
    ensures var r := Prefill(p);
      && ReadText(r["recipient_name"]) == p.name
      && ReadRef(r["recipient_state_id"]) == p.stateId
      && ReadText(r["recipient_city"]) == p.city
      && ReadText(r["recipient_street"]) == p.street
      && ReadText(r["recipient_street2"]) == p.street2
      && ReadRef(r["recipient_country_id"]) == p.countryId
  {
  }

  /** The record's `partner_id`, when it is set and known. */
  function PartnerOf(rec: Rec, partners: map<nat, Partner>): (r: Option<Partner>)
    ensures r.Some? <==> "partner_id" in rec && rec["partner_id"].VRef? && rec["partner_id"].id in partners
  {
    if "partner_id" in rec && rec["partner_id"].VRef? && rec["partner_id"].id in partners
    then Some(partners[rec["partner_id"].id])
    else None
  }

  /** `any(key in vals for key in recipient_keys)`. */
  predicate MentionsRecipient(vals: Rec) {
    exists k :: k in vals && k in RecipientKeys
  }

  lemma PrefillKeepsPartner(rec: Rec, p: Partner, partners: map<nat, Partner>)
    ensures PartnerOf(rec + Prefill(p), partners) == PartnerOf(rec, partners)
  {
    assert "partner_id" !in Prefill(p);
  }

  /** The field defaults a new picking gets: `carrier_status` is `INIT`. */
  const Defaults: Rec := map["carrier_status" := VText("INIT")]

  /** A record as `create` leaves it: defaults under the given values, then the
      recipient fields from the partner when the values name none of them. */
  function Created(vals: Rec, partners: map<nat, Partner>): Rec {
    var rec := Defaults + vals;
    var p := PartnerOf(rec, partners);
    if p.Some? && !MentionsRecipient(vals) then rec + Prefill(p.value) else rec
  }

  function CreatedAll(valsList: seq<Rec>, partners: map<nat, Partner>): (r: seq<Rec>)
    ensures |r| == |valsList|
    ensures forall i :: 0 <= i < |r| ==> r[i] == Created(valsList[i], partners)
  {
    seq(|valsList|, i requires 0 <= i < |valsList| => Created(valsList[i], partners))
  }

  /** The records `create` has built after completing the first `k`. */
  ghost function PartlyCreated(valsList: seq<Rec>, k: nat, partners: map<nat, Partner>): (r: seq<Rec>)
    ensures |r| == |valsList|
  {
    seq(|valsList|, j requires 0 <= j < |valsList| => if j < k then Created(valsList[j], partners) else Defaults + valsList[j])
  }

  lemma DefaultedStep(base: seq<Rec>, valsList: seq<Rec>, k: nat, partners: map<nat, Partner>)
    requires k < |valsList|
    ensures base + PartlyCreated(valsList[..k + 1], 0, partners)
      == base + PartlyCreated(valsList[..k], 0, partners) + [Defaults + valsList[k]]
  {
    assert valsList[..k + 1] == valsList[..k] + [valsList[k]];
  }

  lemma PartlyCreatedAll(valsList: seq<Rec>, partners: map<nat, Partner>)
    ensures PartlyCreated(valsList, |valsList|, partners) == CreatedAll(valsList, partners)
  {
  }

  lemma PartlyCreatedStep(base: seq<Rec>, valsList: seq<Rec>, k: nat, partners: map<nat, Partner>)
    requires k < |valsList|
    ensures var rs := base + PartlyCreated(valsList, k, partners);
      && rs[|base| + k] == Defaults + valsList[k]
      && base + PartlyCreated(valsList, k + 1, partners) == rs[|base| + k := Created(valsList[k], partners)]
  {
  }

  /** Every value given to `create` is kept, and the status defaults to `INIT`. */
  lemma CreatedKeepsGiven(vals: Rec, partners: map<nat, Partner>)
    ensures var r := Created(vals, partners);
      && (forall k :: k in vals ==> k in r && r[k] == vals[k])
      && ("carrier_status" !in vals ==> r["carrier_status"] == VText("INIT"))
  {
    var rec := Defaults + vals;
    var p := PartnerOf(rec, partners);
    if p.Some? && !MentionsRecipient(vals) {
      assert forall k :: k in Prefill(p.value) ==> k in RecipientKeys;
    }
  }

  /** Given no recipient value, a picking with a partner gets the partner's
      recipient fields; given one, no recipient field is filled in. */
  lemma CreatedPrefills(vals: Rec, partners: map<nat, Partner>)
    ensures var p := PartnerOf(Defaults + vals, partners);
      p.Some? && !MentionsRecipient(vals) ==>
        forall k :: k in RecipientKeys ==> Created(vals, partners)[k] == Prefill(p.value)[k]
    ensures MentionsRecipient(vals) ==> Created(vals, partners) == Defaults + vals
  {
  }

  /** A record as `write(vals)` leaves it: the values written, then the
      recipient fields refilled when `partner_id` is written without any
      recipient value. */
  function Written(rec: Rec, vals: Rec, partners: map<nat, Partner>): Rec {
    var r := rec + vals;
    var p := PartnerOf(r, partners);
    if "partner_id" in vals && !MentionsRecipient(vals) && p.Some? then r + Prefill(p.value) else r
  }

  /** A write that does not touch `partner_id` is a plain write, and one that
      names a recipient field keeps the recipient fields it was given. */
  lemma WrittenRefills(rec: Rec, vals: Rec, partners: map<nat, Partner>)
    ensures "partner_id" !in vals ==> Written(rec, vals, partners) == rec + vals
    ensures MentionsRecipient(vals) ==> Written(rec, vals, partners) == rec + vals
    ensures var p := PartnerOf(rec + vals, partners);
      "partner_id" in vals && !MentionsRecipient(vals) && p.Some? ==>
        forall k :: k in RecipientKeys ==> Written(rec, vals, partners)[k] == Prefill(p.value)[k]
  {
  }

  /** The records after the values are written to those at `ids`, before
      any refill. */
  ghost function PlainWrite(rs: seq<Rec>, ids: seq<nat>, vals: Rec): (r: seq<Rec>)
    ensures |r| == |rs|
  {
    seq(|rs|, i requires 0 <= i < |rs| => if i in ids then rs[i] + vals else rs[i])
  }

  lemma PlainWriteStep(rs: seq<Rec>, ids: seq<nat>, k: nat, vals: Rec)
    requires k < |ids| && ids[k] < |rs|
    ensures var before := PlainWrite(rs, ids[..k], vals);
      PlainWrite(rs, ids[..k + 1], vals) == before[ids[k] := before[ids[k]] + vals]
  {
    assert ids[..k + 1] == ids[..k] + [ids[k]];
    assert rs[ids[k]] + vals + vals == rs[ids[k]] + vals;
  }

  /** A record refilled from its partner, when it has one. */
  ghost function Refilled(rec: Rec, partners: map<nat, Partner>): Rec {
    var p := PartnerOf(rec, partners);
    if p.Some? then rec + Prefill(p.value) else rec
  }

  /** The records after those at `ids` are refilled. */
  ghost function Refill(rs: seq<Rec>, ids: seq<nat>, partners: map<nat, Partner>): (r: seq<Rec>)
    ensures |r| == |rs|
  {
    seq(|rs|, i requires 0 <= i < |rs| => if i in ids then Refilled(rs[i], partners) else rs[i])
  }

  lemma RefillStep(rs: seq<Rec>, ids: seq<nat>, k: nat, partners: map<nat, Partner>)
    requires k < |ids| && ids[k] < |rs|
    ensures var before := Refill(rs, ids[..k], partners);
      Refill(rs, ids[..k + 1], partners) == before[ids[k] := Refilled(before[ids[k]], partners)]
  {
    assert ids[..k + 1] == ids[..k] + [ids[k]];
    var rec := rs[ids[k]];
    var p := PartnerOf(rec, partners);
    if p.Some? {
      PrefillKeepsPartner(rec, p.value, partners);
      assert rec + Prefill(p.value) + Prefill(p.value) == rec + Prefill(p.value);
    }
  }

  /** `_onchange_tracking_link`: the carrier's website followed by the
      tracking code, `False` when both are empty. */
  function TrackingLink(rec: Rec, partners: map<nat, Partner>): (r: Value)
    ensures r.VFalse? || r.VText?
  {
    var carrier := if "carrier_partner_id" in rec && rec["carrier_partner_id"].VRef? && rec["carrier_partner_id"].id in partners
                   then Some(partners[rec["carrier_partner_id"].id]) else None;
    var base := if carrier.Some? then carrier.value.website else "";
    var code := if "tracking_code" in rec then ReadText(rec["tracking_code"]) else "";
    if base != "" || code != "" then VText(base + code) else VFalse
  }

  /** The link is `False` exactly when there is neither a website nor a code,
      and otherwise splits back into the website and the code. */
  lemma TrackingLinkParts(rec: Rec, partners: map<nat, Partner>, website: string, code: string)
    requires "carrier_partner_id" in rec && rec["carrier_partner_id"].VRef?
    requires rec["carrier_partner_id"].id in partners && partners[rec["carrier_partner_id"].id].website == website
    requires "tracking_code" in rec && ReadText(rec["tracking_code"]) == code
    ensures TrackingLink(rec, partners) == VFalse <==> website == "" && code == ""
    ensures TrackingLink(rec, partners) != VFalse ==>
      var s := TrackingLink(rec, partners).s;
      Text.StartsWith(s, website) && s[|website|..] == code
  {
    if website != "" || code != "" {
      assert (website + code)[|website|..] == code;
    }
  }

  /** `_parse_track123_utc_datetime`: empty text gives `None` (`False`), one
      trailing `Z` is dropped, and the rest must be `YYYY-MM-DDTHH:MM:SS`. */
  function ParseTrack123Utc(s: string): (r: Option<Moment>)
    ensures s == "" ==> r.None?
    ensures r.Some? ==> s == Format(r.value, 'T') || s == Format(r.value, 'T') + "Z"
  {
    if s == "" then None
    else
      var u := if Text.EndsWith(s, "Z") then s[..|s| - 1] else s;
      match ParseFixed(u, 'T')
      case None => None
      case Some(t) =>
        ParsedIsFormatted(u, 'T');
        assert Text.EndsWith(s, "Z") ==> s == u + "Z";
        var m: Moment := t;
        Some(m)
  }

  /** A time reads back unshifted, with or without the `Z`; a second `Z` is refused. */
  lemma ParseTrack123RoundTrip(t: Moment)
    ensures ParseTrack123Utc(Format(t, 'T') + "Z") == Some(t)
    ensures ParseTrack123Utc(Format(t, 'T')) == Some(t)
    ensures ParseTrack123Utc(Format(t, 'T') + "ZZ") == None
  {
    var s := Format(t, 'T');
    ParseFormat(t, 'T');
    assert (s + "Z")[..|s + "Z"| - 1] == s;
    assert |s| == 19;
    assert s[|s| - 1] != 'Z';
    assert !Text.EndsWith(s, "Z");
    assert (s + "ZZ")[..|s + "ZZ"| - 1] == s + "Z";
  }

  /** Track123 text fields are stored as text; anything else is stored as given. */
  function FromJson(j: Json): (r: Value)
    ensures j.JStr? ==> r == VText(j.s)
  {
    if j.JStr? then VText(j.s) else VRaw(j)
  }

  /** `d.get(key, default)` on a value that must be a dictionary; `None` where
      Python raises because `d` is not one. */
  function GetOr(d: Json, key: string, default: Json): (r: Option<Json>)
    ensures r.None? <==> !d.JObj?
    ensures d.JObj? && key !in d.fields ==> r == Some(default)
    ensures d.JObj? && key in d.fields ==> r == Some(d.fields[key])
  {
    if !d.JObj? then None else if key in d.fields then Some(d.fields[key]) else Some(default)
  }

  /** `seq[0]` of a truthy value that must be a non-empty list. */
  function First(j: Json): (r: Option<Json>)
    ensures r.Some? <==> j.JArr? && j.items != []
  {
    if j.JArr? && j.items != [] then Some(j.items[0]) else None
  }

  const TrackingFields: set<string> := {"carrier_status", "subdelivery_status", "eventTime", "eventDetail"}

  /** The latest event the record carries: `trackingDetails[0]` of
      `localLogisticsInfo`; `Ok(None)` when there are no details, `Err` where
      Python raises on the shape. */
  function LatestDetail(data: map<string, Json>): (r: Result<Option<map<string, Json>>>)
  {
    var local := if "localLogisticsInfo" in data then data["localLogisticsInfo"] else JObj(map[]);
    match GetOr(local, "trackingDetails", JArr([]))
    case None => Err(ShapeFault)
    case Some(details) =>
      if !Truthy(details) then Ok(None)
      else match First(details)
        case None => Err(ShapeFault)
        case Some(latest) => if latest.JObj? then Ok(Some(latest.fields)) else Err(ShapeFault)
  }

  /** The text of a Python exception raised on an unexpected response shape. */
  const ShapeFault := "unexpected response shape"

  /** A value Python finds truthy once stored: neither `False` nor empty text. */
  predicate Meaningful(v: Value) {
    v != VFalse && v != VText("")
  }

  lemma FromTruthy(j: Json)
    requires Truthy(j)
    ensures Meaningful(FromJson(j))
  {
  }

  /** The status part of the values: each status only when it is truthy. */
  function StatusValues(d: map<string, Json>): (v: Rec)
    ensures v.Keys <= {"carrier_status", "subdelivery_status"}
    ensures forall k :: k in v ==> Meaningful(v[k])
    ensures "carrier_status" in v <==> Truthy(Get(d, "transitStatus"))
    ensures "carrier_status" in v ==> v["carrier_status"] == FromJson(Get(d, "transitStatus"))
    ensures "subdelivery_status" in v <==> Truthy(Get(d, "transitSubStatus"))
    ensures "subdelivery_status" in v ==> v["subdelivery_status"] == FromJson(Get(d, "transitSubStatus"))
  {
    var status := Get(d, "transitStatus");
    var sub := Get(d, "transitSubStatus");
    var v0: Rec := map[];
    if Truthy(status) then FromTruthy(status); (if Truthy(sub) then FromTruthy(sub); v0["carrier_status" := FromJson(status)]["subdelivery_status" := FromJson(sub)] else v0["carrier_status" := FromJson(status)])
    else if Truthy(sub) then FromTruthy(sub); v0["subdelivery_status" := FromJson(sub)]
    else v0
  }

  /** The event part of the values, read from the latest event: its time
      when it parses and its detail when it is truthy. */
  function EventValues(latest: map<string, Json>): (r: Result<Rec>)
    ensures r.Ok? ==> r.value.Keys <= {"eventTime", "eventDetail"}
    ensures r.Ok? ==> forall k :: k in r.value ==> Meaningful(r.value[k])
    ensures r.Ok? && "eventTime" in r.value ==>
      && r.value["eventTime"].VTime?
      && Get(latest, "eventTimeZeroUTC").JStr?
      && ParseTrack123Utc(Get(latest, "eventTimeZeroUTC").s) == Some(r.value["eventTime"].t)
    ensures r.Ok? ==> ("eventDetail" in r.value <==> Truthy(Get(latest, "eventDetail")))
  {
    var utc := Get(latest, "eventTimeZeroUTC");
    if Truthy(utc) && !utc.JStr? then Err(ShapeFault)
    else
      var parsed := if Truthy(utc) then ParseTrack123Utc(utc.s) else None;
      var v0: Rec := map[];
      var v1 := if parsed.Some? then v0["eventTime" := VTime(parsed.value)] else v0;
      var detail := Get(latest, "eventDetail");
      if Truthy(detail) then FromTruthy(detail); Ok(v1["eventDetail" := FromJson(detail)]) else Ok(v1)
  }

  /** The `values` dictionary `_update_tracking_from_api` writes, `Err` where it raises. */
  function TrackingValues(data: Json): (r: Result<Rec>)
    ensures r.Ok? ==> data.JObj?
    ensures r.Ok? ==> r.value.Keys <= TrackingFields
    ensures r.Ok? ==> forall k :: k in r.value ==> Meaningful(r.value[k])
    ensures r.Ok? ==> ("carrier_status" in r.value <==> Truthy(Get(data.fields, "transitStatus")))
    ensures r.Ok? && "carrier_status" in r.value ==> r.value["carrier_status"] == FromJson(Get(data.fields, "transitStatus"))
    ensures r.Ok? ==> ("subdelivery_status" in r.value <==> Truthy(Get(data.fields, "transitSubStatus")))
    ensures r.Ok? && "eventTime" in r.value ==>
      (var latest := LatestDetail(data.fields);
       && latest.Ok? && latest.value.Some?
       && r.value["eventTime"].VTime?
       && Get(latest.value.value, "eventTimeZeroUTC").JStr?
       && ParseTrack123Utc(Get(latest.value.value, "eventTimeZeroUTC").s) == Some(r.value["eventTime"].t))
  {
    if !data.JObj? then Err(ShapeFault)
    else
      var status := StatusValues(data.fields);
      match LatestDetail(data.fields)
      case Err(e) => Err(e)
      case Ok(None) => Ok(status)
      case Ok(Some(latest)) =>
        match EventValues(latest)
        case Err(e) => Err(e)
        case Ok(event) => Ok(status + event)
  }

  lemma TrackingValuesErr(data: Json, latest: map<string, Json>)
    requires data.JObj? && LatestDetail(data.fields) == Ok(Some(latest)) && EventValues(latest).Err?
    ensures TrackingValues(data) == Err(EventValues(latest).error)
  {
  }

  lemma TrackingValuesOf(data: Json, latest: Option<map<string, Json>>, event: Rec)
    requires data.JObj? && LatestDetail(data.fields) == Ok(latest)
    requires latest.None? ==> event == map[]
    requires latest.Some? ==> EventValues(latest.value) == Ok(event)
    ensures TrackingValues(data) == Ok(StatusValues(data.fields) + event)
  {
    if latest.None? {
      assert StatusValues(data.fields) + event == StatusValues(data.fields);
    }
  }

  lemma EventTimeParsed(first: map<string, Json>, t: Moment)
    requires Get(first, "eventTimeZeroUTC") == JStr(Format(t, 'T') + "Z")
    ensures EventValues(first).Ok? && "eventTime" in EventValues(first).value
    ensures EventValues(first).value["eventTime"] == VTime(t)
  {
    ParseTrack123RoundTrip(t);
  }

  lemma LatestIsFirst(data: map<string, Json>, first: map<string, Json>, rest: seq<Json>)
    requires "localLogisticsInfo" in data
    requires data["localLogisticsInfo"] == JObj(map["trackingDetails" := JArr([JObj(first)] + rest)])
    ensures LatestDetail(data) == Ok(Some(first))
  {
    var details := [JObj(first)] + rest;
    var local := map["trackingDetails" := JArr(details)];
    assert GetOr(JObj(local), "trackingDetails", JArr([])) == Some(JArr(details));
    assert First(JArr(details)) == Some(JObj(first));
  }

  /** The time of the first tracking detail is what lands in `eventTime`, unshifted. */
  lemma EventTimeFromLatest(data: map<string, Json>, first: map<string, Json>, rest: seq<Json>, t: Moment)
    requires "localLogisticsInfo" in data
    requires data["localLogisticsInfo"] == JObj(map["trackingDetails" := JArr([JObj(first)] + rest)])
    requires Get(first, "eventTimeZeroUTC") == JStr(Format(t, 'T') + "Z")
    ensures TrackingValues(JObj(data)).Ok? && "eventTime" in TrackingValues(JObj(data)).value
    ensures TrackingValues(JObj(data)).value["eventTime"] == VTime(t)
  {
    LatestIsFirst(data, first, rest);
    EventTimeParsed(first, t);
    var event := EventValues(first).value;
    TrackingValuesOf(JObj(data), Some(first), event);
    assert (StatusValues(data) + event)["eventTime"] == VTime(t);
  }

  /** A tracking record that carries nothing truthy writes nothing. */
  lemma NothingToWrite()
    ensures TrackingValues(JObj(map["transitStatus" := JStr(""), "transitSubStatus" := JNull])) == Ok(map[])
  {
  }

  /** The keys of the two status selections. */
  const CarrierStatuses: set<string> :=
    {"INIT", "NO_RECORD", "INFO_RECEIVED", "IN_TRANSIT", "WAITING_DELIVERY", "DELIVERY_FAILED", "ABNORMAL",
     "DELIVERED", "EXPIRED"}
  const SubStatuses: set<string> :=
    {"IN_TRANSIT_01", "IN_TRANSIT_02", "IN_TRANSIT_03", "IN_TRANSIT_04", "IN_TRANSIT_05", "IN_TRANSIT_06",
     "IN_TRANSIT_07", "IN_TRANSIT_08", "WAITING_DELIVERY_01", "WAITING_DELIVERY_02", "WAITING_DELIVERY_03",
     "DELIVERED_01", "DELIVERED_02", "DELIVERED_03", "DELIVERED_04", "DELIVERY_FAILED_01", "DELIVERY_FAILED_02",
     "DELIVERY_FAILED_03", "DELIVERY_FAILED_04", "ABNORMAL_01", "ABNORMAL_02", "ABNORMAL_03", "ABNORMAL_04",
     "ABNORMAL_05", "ABNORMAL_06", "ABNORMAL_07", "ABNORMAL_08", "INFO_RECEIVED_01"}

  /** A value a selection field with these keys takes on `write`: a falsy
      value (stored as `False`) or one of the keys. */
  predicate SelectionAccepts(v: Value, keys: set<string>) {
    !Meaningful(v) || (v.VText? && v.s in keys)
  }

  /** The statuses of `vals` are both keys of their selections. */
  predicate StatusesAccepted(vals: Rec) {
    && ("carrier_status" in vals ==> SelectionAccepts(vals["carrier_status"], CarrierStatuses))
    && ("subdelivery_status" in vals ==> SelectionAccepts(vals["subdelivery_status"], SubStatuses))
  }

  /** The `ValueError` of a selection value outside the keys; a text value is
      shown quoted, as `%r` prints it. */
  function WrongValue(field: string, v: Value): string {
    "Wrong value for stock.picking." + field + (if v.VText? then ": '" + v.s + "'" else "")
  }

  /** The error a write of `vals` raises on a status outside its selection:
      the carrier status is written before the sub-status. */
  function SelectionFault(vals: Rec): (r: Option<string>)
    ensures r.None? <==> StatusesAccepted(vals)
    ensures "carrier_status" in vals && !SelectionAccepts(vals["carrier_status"], CarrierStatuses) ==>
      r == Some(WrongValue("carrier_status", vals["carrier_status"]))
  {
    if "carrier_status" in vals && !SelectionAccepts(vals["carrier_status"], CarrierStatuses) then
      Some(WrongValue("carrier_status", vals["carrier_status"]))
    else if "subdelivery_status" in vals && !SelectionAccepts(vals["subdelivery_status"], SubStatuses) then
      Some(WrongValue("subdelivery_status", vals["subdelivery_status"]))
    else None
  }

  /** What a write of `vals` has stored when it returns or raises: the fields
      are written in the order of the values, so a faulty status keeps the
      fields before it and none after it. */
  function StoredPart(vals: Rec): (r: Rec)
    ensures StatusesAccepted(vals) ==> r == vals
    ensures r.Keys <= vals.Keys && forall k :: k in r ==> r[k] == vals[k]
    ensures StatusesAccepted(r)
    ensures !StatusesAccepted(vals) ==> r.Keys <= {"carrier_status"}
  {
    if "carrier_status" in vals && !SelectionAccepts(vals["carrier_status"], CarrierStatuses) then map[]
    else if "subdelivery_status" in vals && !SelectionAccepts(vals["subdelivery_status"], SubStatuses) then
      if "carrier_status" in vals then map["carrier_status" := vals["carrier_status"]] else map[]
    else vals
  }

  /** The result of `_update_tracking_from_api` on record `i` and the records
      it leaves: a shape error writes nothing, a status outside its selection
      raises after the fields before it are written. */
  function TrackingState(records: seq<Rec>, i: nat, data: Json): (r: (Result<()>, seq<Rec>))
    requires i < |records|
    ensures |r.1| == |records| && forall j :: 0 <= j < |records| && j != i ==> r.1[j] == records[j]
    ensures r.0.Ok? <==> TrackingValues(data).Ok? && StatusesAccepted(TrackingValues(data).value)
    ensures TrackingValues(data).Err? ==> r == (Err(TrackingValues(data).error), records)
    ensures r.0.Ok? ==> r.1[i] == records[i] + TrackingValues(data).value
    ensures TrackingValues(data).Ok? && r.0.Err? ==> r.0.error == SelectionFault(TrackingValues(data).value).value
    ensures forall k :: k in ListedStatuses && k in r.1[i] && (k !in records[i] || r.1[i][k] != records[i][k]) ==>
      StatusesAccepted(map[k := r.1[i][k]])
  {
    match TrackingValues(data)
    case Err(e) => (Err(e), records)
    case Ok(vals) =>
      var part := StoredPart(vals);
      assert forall k :: k in ListedStatuses && k in records[i] + part && (k !in records[i] || (records[i] + part)[k] != records[i][k]) ==>
        k in part && StatusesAccepted(map[k := part[k]]);
      (if SelectionFault(vals).Some? then Err(SelectionFault(vals).value) else Ok(()), records[i := records[i] + part])
  }

  /** The two status fields. */
  const ListedStatuses: set<string> := {"carrier_status", "subdelivery_status"}

  /** The values of a response whose only status is `PENDING`. */
  lemma PendingValues(info: map<string, Json>)
    requires info == map["trackNo" := JStr("X1"), "transitStatus" := JStr("PENDING")]
    ensures TrackingValues(JObj(info)) == Ok(map["carrier_status" := VText("PENDING")])
  {
    assert LatestDetail(info) == Ok(None);
    assert Get(info, "transitStatus") == JStr("PENDING");
    assert Get(info, "transitSubStatus") == JNull;
  }

  /** The message of the selection error for the carrier status `PENDING`. */
  lemma PendingMessage()
    ensures WrongValue("carrier_status", VText("PENDING")) == "Wrong value for stock.picking.carrier_status: 'PENDING'"
  {
  }

  /** A status outside its selection is refused and the record is left as it
      was: the carrier status `PENDING` is no key. */
  lemma UnknownCarrierStatus(records: seq<Rec>, i: nat, info: map<string, Json>)
    requires i < |records|
    requires info == map["trackNo" := JStr("X1"), "transitStatus" := JStr("PENDING")]
    ensures TrackingState(records, i, JObj(info)) ==
      (Err("Wrong value for stock.picking.carrier_status: 'PENDING'"), records)
  {
    PendingValues(info);
    var vals: Rec := map["carrier_status" := VText("PENDING")];
    assert "PENDING" !in CarrierStatuses;
    assert StoredPart(vals) == map[];
    assert SelectionFault(vals) == Some(WrongValue("carrier_status", VText("PENDING")));
    PendingMessage();
    assert records[i] + map[] == records[i];
    assert records[i := records[i]] == records;
  }

  /** `any(keyword in error_msg.lower() for keyword in already_exists_keywords)`. */
  const AlreadyKeywords: seq<string> := ["already", "imported", "exists", "duplicate", "đã được", "tồn tại"]

  predicate AlreadyExists(msg: string) {
    exists i :: 0 <= i < |AlreadyKeywords| && Text.Contains(Text.Lower(msg), AlreadyKeywords[i])
  }

  lemma LowerTwice(s: string)
    ensures Text.Lower(Text.Lower(s)) == Text.Lower(s)
  {
    var l := Text.Lower(s);
    forall i | 0 <= i < |s| ensures Text.Lower(l)[i] == l[i] {
      assert l[i] == Text.LowerChar(s[i]);
    }
  }

  /** The keyword match ignores the case of the message. */
  lemma AlreadyExistsIgnoresCase(msg: string)
    ensures AlreadyExists(Text.Lower(msg)) <==> AlreadyExists(msg)
  {
    LowerTwice(msg);
  }

  const CodeOk := JStr("00000")
  const NoDataMsg := "No tracking data available yet. Please try again later."
  const ApiErrorPrefix := "Track123 API returned error: "
  const RegisterFailedPrefix := "Failed to register tracking with Track123: "
  const QueryFailedPrefix := "Failed to get tracking information from Track123: "
  const RegisterNeedsCode := "Tracking code is required to register with Track123"
  const QueryNeedsCode := "Tracking code is required to get tracking information"

  /** `rejected[0].get('error', {}).get('msg', 'Unknown error')`; `None` where
      Python raises on the shape. */
  function RejectionMsg(rejected: Json): Option<Json> {
    match First(rejected)
    case None => None
    case Some(r0) =>
      match GetOr(r0, "error", JObj(map[]))
      case None => None
      case Some(err) => GetOr(err, "msg", JStr("Unknown error"))
  }

  /** The message `result.get('msg', 'Unknown error')` of an error response. */
  function ApiError(fields: map<string, Json>, repr: Json -> string): string {
    ApiErrorPrefix + Str(if "msg" in fields then fields["msg"] else JStr("Unknown error"), repr)
  }

  /** How a `track/import` response was read. */
  datatype Registration = Accepted | Existing | Issue(msg: string) | Unconfirmed

  /** The notification the registration shows. */
  function Message(reg: Registration): string {
    match reg
    case Accepted => "Tracking registered successfully with Track123"
    case Existing => "Tracking already registered. Fetching latest tracking info..."
    case Issue(msg) => "Tracking registration issue: " + msg + ". Attempting to fetch info..."
    case Unconfirmed => "Tracking registered with Track123"
  }

  /** After a rejection a failing follow-up query fails the registration too. */
  predicate QueryMustSucceed(reg: Registration) {
    reg.Existing? || reg.Issue?
  }

  function RegisterOutcome(response: Result<Json>, repr: Json -> string): (r: Result<Registration>)
    ensures response.Ok? && response.value.JObj? && Get(response.value.fields, "code") != CodeOk ==>
      r == Err(ApiError(response.value.fields, repr))
    ensures r.Ok? ==> response.Ok? && response.value.JObj? && Get(response.value.fields, "code") == CodeOk
    ensures r.Ok? && r.value.Issue? ==> !AlreadyExists(r.value.msg)
  {
    match response
    case Err(e) => Err(e)
    case Ok(res) =>
      if !res.JObj? then Err(RegisterFailedPrefix + ShapeFault)
      else if Get(res.fields, "code") != CodeOk then Err(ApiError(res.fields, repr))
      else match GetOr(res, "data", JObj(map[]))
        case None => Err(RegisterFailedPrefix + ShapeFault)
        case Some(data) =>
          if !data.JObj? then Err(RegisterFailedPrefix + ShapeFault)
          else
            var accepted := GetOr(data, "accepted", JArr([])).value;
            var rejected := GetOr(data, "rejected", JArr([])).value;
            if Truthy(accepted) then Ok(Accepted)
            else if Truthy(rejected) then
              match RejectionMsg(rejected)
              case None => Err(RegisterFailedPrefix + ShapeFault)
              case Some(msg) =>
                if !msg.JStr? then Err(RegisterFailedPrefix + ShapeFault)
                else if AlreadyExists(msg.s) then Ok(Existing)
                else Ok(Issue(msg.s))
            else Ok(Unconfirmed)
  }

  /** A rejection whose message names an existing registration, in any case,
      is reported as already registered. */
  lemma RejectedAsExisting(msg: string, repr: Json -> string)
    requires AlreadyExists(msg)
    ensures var rejected := JArr([JObj(map["error" := JObj(map["msg" := JStr(msg)])])]);
      RegisterOutcome(Ok(JObj(map["code" := CodeOk, "data" := JObj(map["rejected" := rejected])])), repr)
        == Ok(Existing)
  {
  }

  /** The tracking record a `track/query` response carries, or the error raised. */
  function QueryOutcome(response: Result<Json>, repr: Json -> string): (r: Result<Json>)
    ensures response.Ok? && response.value.JObj? && Get(response.value.fields, "code") != CodeOk ==>
      r == Err(ApiError(response.value.fields, repr))
    ensures r.Ok? ==> response.Ok? && response.value.JObj? && Get(response.value.fields, "code") == CodeOk
  {
    match response
    case Err(e) => Err(e)
    case Ok(res) =>
      if !res.JObj? then Err(QueryFailedPrefix + ShapeFault)
      else if Get(res.fields, "code") != CodeOk then Err(ApiError(res.fields, repr))
      else match GetOr(res, "data", JObj(map[]))
        case None => Err(QueryFailedPrefix + ShapeFault)
        case Some(data) =>
          if !data.JObj? then Err(QueryFailedPrefix + ShapeFault) else
          var accepted := Get(data.fields, "accepted");
          if Truthy(accepted) && accepted.JObj? then
            var content := GetOr(accepted, "content", JArr([])).value;
            if !Truthy(content) then Err(NoDataMsg)
            else match First(content)
              case None => Err(QueryFailedPrefix + ShapeFault)
              case Some(item) => Ok(item)
          else if Truthy(accepted) && accepted.JArr? then Ok(accepted.items[0])
          else
            var rejected := GetOr(data, "rejected", JArr([])).value;
            if !Truthy(rejected) then Err(NoDataMsg)
            else match RejectionMsg(rejected)
              case None => Err(QueryFailedPrefix + ShapeFault)
              case Some(msg) => Err("Track123 cannot find tracking: " + Str(msg, repr))
  }

  /** Both shapes of an accepted query carry their first record. */
  lemma QueryTakesFirst(item: Json, rest: seq<Json>, repr: Json -> string)
    ensures QueryOutcome(Ok(JObj(map["code" := CodeOk, "data" := JObj(map["accepted" := JObj(map["content" := JArr([item] + rest)])])])), repr)
      == Ok(item)
    ensures QueryOutcome(Ok(JObj(map["code" := CodeOk, "data" := JObj(map["accepted" := JArr([item] + rest)])])), repr)
      == Ok(item)
  {
    var items := [item] + rest;
    var accepted := map["content" := JArr(items)];
    assert "content" in accepted && items[0] == item;
    var data := map["accepted" := JObj(accepted)];
    assert Get(data, "accepted") == JObj(accepted) && Truthy(JObj(accepted));
    var res := map["code" := CodeOk, "data" := JObj(data)];
    assert Get(res, "code") == CodeOk && GetOr(JObj(res), "data", JObj(map[])) == Some(JObj(data));
    var data2 := map["accepted" := JArr(items)];
    var res2 := map["code" := CodeOk, "data" := JObj(data2)];
    assert Get(res2, "code") == CodeOk && GetOr(JObj(res2), "data", JObj(map[])) == Some(JObj(data2));
    assert Get(data2, "accepted") == JArr(items);
  }

  /** The tracking code of a record, "" when it has none. */
  function TrackingCode(rec: Rec): string {
    if "tracking_code" in rec then ReadText(rec["tracking_code"]) else ""
  }

  /** The result of `action_track123_get_tracking` on record `i` given the
      `track/query` response, and the records it leaves: the user errors
      pass as they are, any other error raised by the update is wrapped. */
  function QueryState(records: seq<Rec>, i: nat, response: Result<Json>, repr: Json -> string): (r: (Result<()>, seq<Rec>))
    requires i < |records|
    ensures |r.1| == |records| && forall j :: 0 <= j < |records| && j != i ==> r.1[j] == records[j]
    ensures TrackingCode(records[i]) == "" ==> r == (Err(QueryNeedsCode), records)
    ensures TrackingCode(records[i]) != "" && QueryOutcome(response, repr).Err? ==>
      r == (Err(QueryOutcome(response, repr).error), records)
    ensures r.0.Ok? <==>
      (&& TrackingCode(records[i]) != "" && QueryOutcome(response, repr).Ok?
       && TrackingState(records, i, QueryOutcome(response, repr).value).0.Ok?)
    ensures r.0.Ok? ==> r.1 == records[i := records[i] + TrackingValues(QueryOutcome(response, repr).value).value]
    ensures TrackingCode(records[i]) != "" && QueryOutcome(response, repr).Ok? ==>
      (var t := TrackingState(records, i, QueryOutcome(response, repr).value);
       r.1 == t.1 && (t.0.Err? ==> r.0 == Err(QueryFailedPrefix + t.0.error)))
  {
    if TrackingCode(records[i]) == "" then (Err(QueryNeedsCode), records)
    else match QueryOutcome(response, repr)
      case Err(e) => (Err(e), records)
      case Ok(item) =>
        var t := TrackingState(records, i, item);
        (if t.0.Err? then Err(QueryFailedPrefix + t.0.error) else Ok(()), t.1)
  }

  /** A query that finds a record whose status is no key of the selection
      fails with the selection's error and leaves the picking as it was. */
  lemma QueryRefusesUnknownStatus(records: seq<Rec>, i: nat, info: map<string, Json>, repr: Json -> string)
    requires i < |records| && TrackingCode(records[i]) != ""
    requires info == map["trackNo" := JStr("X1"), "transitStatus" := JStr("PENDING")]
    ensures QueryState(records, i, Ok(JObj(map["code" := CodeOk, "data" := JObj(map["accepted" := JArr([JObj(info)])])])), repr)
      == (Err(QueryFailedPrefix + "Wrong value for stock.picking.carrier_status: 'PENDING'"), records)
  {
    QueryTakesFirst(JObj(info), [], repr);
    assert [JObj(info)] + [] == [JObj(info)];
    UnknownCarrierStatus(records, i, info);
  }

  /** The picking a webhook is about: the first whose `tracking_code` is `trackNo`. */
  function FindByCode(records: seq<Rec>, code: string): (r: Option<nat>)
    ensures r.Some? ==> r.value < |records| && "tracking_code" in records[r.value] && records[r.value]["tracking_code"] == VText(code)
    ensures r.Some? ==> forall i :: 0 <= i < r.value ==> !("tracking_code" in records[i] && records[i]["tracking_code"] == VText(code))
    ensures r.None? ==> forall i :: 0 <= i < |records| ==> !("tracking_code" in records[i] && records[i]["tracking_code"] == VText(code))
  {
    if records == [] then None
    else if "tracking_code" in records[0] && records[0]["tracking_code"] == VText(code) then Some(0)
    else
      var r := FindByCode(records[1..], code);
      if r.None? then None else Some(r.value + 1)
  }

  /** The picking `process_track123_webhook` updates and the tracking data
      it is given, or `None` when it returns `False` before any update. */
  function WebhookTarget(records: seq<Rec>, payload: Json): (r: Option<(nat, Json)>)
    ensures r.Some? ==> r.value.0 < |records|
    ensures r.Some? ==> payload.JObj? && GetOr(payload, "data", JObj(map[])) == Some(r.value.1)
    ensures r.Some? ==>
      (&& r.value.1.JObj? && Get(r.value.1.fields, "trackNo").JStr?
       && FindByCode(records, Get(r.value.1.fields, "trackNo").s) == Some(r.value.0))
    ensures (payload.JObj? && "data" in payload.fields && payload.fields["data"].JObj?
             && !Truthy(Get(payload.fields["data"].fields, "trackNo"))) ==> r.None?
  {
    match GetOr(payload, "data", JObj(map[]))
    case None => None
    case Some(info) =>
      if !info.JObj? then None
      else
        var trackNo := Get(info.fields, "trackNo");
        if !Truthy(trackNo) || !trackNo.JStr? then None
        else match FindByCode(records, trackNo.s)
          case None => None
          case Some(i) => Some((i, info))
  }

  /** What `process_track123_webhook` returns and the records it leaves: an
      error of the update is caught and answered `False`, with whatever the
      update had written before it kept. */
  function WebhookOutcome(records: seq<Rec>, payload: Json): (r: (bool, seq<Rec>))
    ensures |r.1| == |records|
    ensures WebhookTarget(records, payload).None? ==> r == (false, records)
    ensures r.0 <==>
      (&& WebhookTarget(records, payload).Some?
       && var t := WebhookTarget(records, payload).value;
          TrackingValues(t.1).Ok? && StatusesAccepted(TrackingValues(t.1).value))
    ensures WebhookTarget(records, payload).Some? ==>
      (var t := WebhookTarget(records, payload).value;
       r.1 == TrackingState(records, t.0, t.1).1)
  {
    match WebhookTarget(records, payload)
    case None => (false, records)
    case Some((i, info)) =>
      var t := TrackingState(records, i, info);
      (t.0.Ok?, t.1)
  }

  /** A successful webhook writes the values read from its data to the
      picking that carries its number, and nothing else. */
  lemma WebhookWritesTarget(records: seq<Rec>, payload: Json)
    requires WebhookOutcome(records, payload).0
    ensures var t := WebhookTarget(records, payload).value;
      WebhookOutcome(records, payload).1 == records[t.0 := records[t.0] + TrackingValues(t.1).value]
  {
  }

  /** A webhook for a tracking number no picking carries changes nothing. */
  lemma UnknownTrackNo(records: seq<Rec>, no: string, info: map<string, Json>)
    requires no != "" && Get(info, "trackNo") == JStr(no)
    requires forall i :: 0 <= i < |records| ==> !("tracking_code" in records[i] && records[i]["tracking_code"] == VText(no))
    ensures WebhookOutcome(records, JObj(map["data" := JObj(info)])) == (false, records)
  {
  }

  /** A carrier bill in the `account.move` table, as the picking sees it. */
  datatype Bill = Bill(id: nat, moveType: string, pickingId: Option<nat>, invoiceOrigin: Option<string>)

  /** A bill of the picking: a vendor bill linked by `picking_id` or by `invoice_origin`. */
  predicate BillOf(b: Bill, pickingId: nat, name: string) {
    b.moveType == "in_invoice" && (b.pickingId == Some(pickingId) || b.invoiceOrigin == Some(name))
  }

  /** `_compute_vendor_bill_count`. */
  function VendorBillCount(bills: seq<Bill>, pickingId: nat, name: string): (n: nat)
    ensures n <= |bills|
    ensures n == 0 <==> forall i :: 0 <= i < |bills| ==> !BillOf(bills[i], pickingId, name)
  {
    if bills == [] then 0
    else (if BillOf(bills[0], pickingId, name) then 1 else 0) + VendorBillCount(bills[1..], pickingId, name)
  }

  lemma {:induction false} CountAppend(bills: seq<Bill>, b: Bill, pickingId: nat, name: string)
    ensures VendorBillCount(bills + [b], pickingId, name)
      == VendorBillCount(bills, pickingId, name) + (if BillOf(b, pickingId, name) then 1 else 0)
  {
    if bills != [] {
      assert (bills + [b])[1..] == bills[1..] + [b];
      CountAppend(bills[1..], b, pickingId, name);
    }
  }

  /** The company data `action_create_vendor_bill` looks up. */
  datatype BillSetup = BillSetup(
    accountInstalled: bool,
    purchaseJournal: Option<nat>,
    deliveryProduct: Option<nat>,
    createdProduct: nat,
    productExpense: Option<nat>,  // the product's expense account, or its category's
    companyExpense: Option<nat>)  // the first expense account of the company

  /** The `move_vals` of the new vendor bill and its one line. */
  datatype BillDraft = BillDraft(
    moveType: string,
    partnerId: nat,
    invoiceOrigin: string,
    pickingId: nat,
    companyId: nat,
    journalId: Option<nat>,
    lineName: string,
    productId: nat,
    accountId: Option<nat>)

  const AlreadyBilledMsg := "This delivery is already linked to at least one vendor bill."
  const NoAccountingMsg := "The Accounting app is not installed."
  const NoCarrierMsg := "Please set a Carrier to use as Vendor for the bill."

  /** `action_create_vendor_bill`: refuses a picking that already has a bill,
      then a database without Accounting, then a picking without a carrier. */
  function VendorBill(bills: seq<Bill>, pickingId: nat, name: string, carrier: Option<nat>, companyId: nat,
                      setup: BillSetup): (r: Result<BillDraft>)
    ensures VendorBillCount(bills, pickingId, name) > 0 ==> r == Err(AlreadyBilledMsg)
    ensures VendorBillCount(bills, pickingId, name) == 0 && !setup.accountInstalled ==> r == Err(NoAccountingMsg)
    ensures VendorBillCount(bills, pickingId, name) == 0 && setup.accountInstalled && carrier.None? ==> r == Err(NoCarrierMsg)
    ensures r.Ok? <==> VendorBillCount(bills, pickingId, name) == 0 && setup.accountInstalled && carrier.Some?
    ensures r.Ok? ==> r.value.moveType == "in_invoice" && r.value.partnerId == carrier.value
                      && r.value.pickingId == pickingId && r.value.invoiceOrigin == name
                      && r.value.journalId == setup.purchaseJournal
    ensures r.Ok? ==> r.value.companyId == companyId && r.value.lineName == "Delivery service charge for " + name
    // the delivery product found by name, else the one created for the bill
    ensures r.Ok? ==> r.value.productId == setup.deliveryProduct.GetOr(setup.createdProduct)
    // the product's expense account, else the company's first expense account, else none
    ensures r.Ok? ==> r.value.accountId == (if setup.productExpense.Some? then setup.productExpense else setup.companyExpense)
  {
    if VendorBillCount(bills, pickingId, name) > 0 then Err(AlreadyBilledMsg)
    else if !setup.accountInstalled then Err(NoAccountingMsg)
    else if carrier.None? then Err(NoCarrierMsg)
    else
      var product := setup.deliveryProduct.GetOr(setup.createdProduct);
      var account := if setup.productExpense.Some? then setup.productExpense else setup.companyExpense;
      Ok(BillDraft("in_invoice", carrier.value, name, pickingId, companyId, setup.purchaseJournal,
                   "Delivery service charge for " + name, product, account))
  }

  /** Once the drafted bill is stored, a second request is refused. */
  lemma VendorBillOnce(bills: seq<Bill>, pickingId: nat, name: string, carrier: Option<nat>, companyId: nat,
                       setup: BillSetup, newId: nat)
    requires VendorBill(bills, pickingId, name, carrier, companyId, setup).Ok?
    ensures var d := VendorBill(bills, pickingId, name, carrier, companyId, setup).value;
      var stored := bills + [Bill(newId, d.moveType, Some(d.pickingId), Some(d.invoiceOrigin))];
      VendorBill(stored, pickingId, name, carrier, companyId, setup) == Err(AlreadyBilledMsg)
  {
    var d := VendorBill(bills, pickingId, name, carrier, companyId, setup).value;
    CountAppend(bills, Bill(newId, d.moveType, Some(d.pickingId), Some(d.invoiceOrigin)), pickingId, name);
  }

  /** `action_open_vendor_bills`: the form of the one bill, or the filtered list. */
  datatype BillsView = BillForm(id: nat) | BillList

  function FirstBill(bills: seq<Bill>, pickingId: nat, name: string): (r: Option<Bill>)
    ensures r.Some? <==> VendorBillCount(bills, pickingId, name) > 0
    ensures r.Some? ==> r.value in bills && BillOf(r.value, pickingId, name)
  {
    if bills == [] then None
    else if BillOf(bills[0], pickingId, name) then Some(bills[0])
    else FirstBill(bills[1..], pickingId, name)
  }

  function OpenVendorBills(bills: seq<Bill>, pickingId: nat, name: string): (r: BillsView)
    ensures r.BillForm? <==> VendorBillCount(bills, pickingId, name) == 1
    ensures r.BillForm? ==> exists b :: b in bills && BillOf(b, pickingId, name) && b.id == r.id
  {
    if VendorBillCount(bills, pickingId, name) == 1 then BillForm(FirstBill(bills, pickingId, name).value.id) else BillList
  }

  /** The event half of `_update_tracking_from_api`, built a field at a time. */
  method LatestEventValues(detail: map<string, Json>) returns (r: Result<Rec>)
    ensures r == EventValues(detail)
  {
    var values: Rec := map[];
    var utc := Get(detail, "eventTimeZeroUTC");
    if Truthy(utc) {
      if !utc.JStr? {
        return Err(ShapeFault);
      }
      var parsed := ParseTrack123Utc(utc.s);
      if parsed.Some? {
        values := values["eventTime" := VTime(parsed.value)];
      }
    }
    var eventDetail := Get(detail, "eventDetail");
    if Truthy(eventDetail) {
      values := values["eventDetail" := FromJson(eventDetail)];
    }
    return Ok(values);
  }

  /** The picking table, updated in place as the ORM methods do. */
  class PickingTable {
    var records: seq<Rec>

    constructor()
      ensures records == []
    {
      records := [];
    }

    /** `create`: every record is stored with its defaults first, then the
        ones with a partner and no recipient value get the partner's fields. */
    method Create(valsList: seq<Rec>, partners: map<nat, Partner>)
      modifies this
      ensures records == old(records) + CreatedAll(valsList, partners)
    {
      var base := |records|;
      ghost var start := records;
      var k := 0;
      assert PartlyCreated(valsList[..0], 0, partners) == [];
      while k < |valsList|
        invariant 0 <= k <= |valsList|
        invariant records == start + PartlyCreated(valsList[..k], 0, partners)
      {
        DefaultedStep(start, valsList, k, partners);
        records := records + [Defaults + valsList[k]];
        k := k + 1;
      }
      assert valsList[..k] == valsList;
      k := 0;
      while k < |valsList|
        invariant 0 <= k <= |valsList|
        invariant records == start + PartlyCreated(valsList, k, partners)
      {
        PartlyCreatedStep(start, valsList, k, partners);
        PrefillCreated(base + k, valsList[k], partners);
        k := k + 1;
      }
      PartlyCreatedAll(valsList, partners);
    }

    /** The second pass of `create` on the new record `j` made from `vals`:
        the partner's recipient fields when it has a partner and `vals`
        names no recipient field. */
    method PrefillCreated(j: nat, vals: Rec, partners: map<nat, Partner>)
      requires j < |records| && records[j] == Defaults + vals
      modifies this
      ensures records == old(records)[j := Created(vals, partners)]
    {
      var rec := records[j];
      var p := PartnerOf(rec, partners);
      if p.Some? && !MentionsRecipient(vals) {
        records := records[j := rec + Prefill(p.value)];
      } else {
        assert records[j := rec] == records;
      }
    }

    /** `write(vals)` on the records at `ids`: the values are written to all of
        them, then the recipient fields are refilled from the partner. */
    method Write(ids: seq<nat>, vals: Rec, partners: map<nat, Partner>)
      requires forall k :: 0 <= k < |ids| ==> ids[k] < |records|
      modifies this
      ensures |records| == |old(records)|
      ensures forall i :: 0 <= i < |records| ==>
        records[i] == if i in ids then Written(old(records)[i], vals, partners) else old(records)[i]
    {
      var k := 0;
      assert PlainWrite(old(records), ids[..0], vals) == old(records);
      while k < |ids|
        invariant 0 <= k <= |ids| && records == PlainWrite(old(records), ids[..k], vals)
      {
        PlainWriteStep(old(records), ids, k, vals);
        records := records[ids[k] := records[ids[k]] + vals];
        k := k + 1;
      }
      assert ids[..k] == ids;
      ghost var plain := records;
      if "partner_id" in vals && !MentionsRecipient(vals) {
        k := 0;
        assert Refill(plain, ids[..0], partners) == plain;
        while k < |ids|
          invariant 0 <= k <= |ids| && records == Refill(plain, ids[..k], partners)
        {
          RefillStep(plain, ids, k, partners);
          var i := ids[k];
          var rec := records[i];
          var p := PartnerOf(rec, partners);
          if p.Some? {
            records := records[i := rec + Prefill(p.value)];
          } else {
            assert records[i := rec] == records;
          }
          k := k + 1;
        }
        assert ids[..k] == ids;
      }
    }

    /** `_onchange_partner_id_fill_recipient` on one record. */
    method OnchangePartner(i: nat, partners: map<nat, Partner>)
      requires i < |records|
      modifies this
      ensures var p := PartnerOf(old(records)[i], partners);
        records == old(records)[i := if p.Some? then old(records)[i] + Prefill(p.value) else old(records)[i]]
    {
      var p := PartnerOf(records[i], partners);
      if p.Some? {
        records := records[i := records[i] + Prefill(p.value)];
      }
    }

    /** `_onchange_tracking_link` on one record. */
    method OnchangeTrackingLink(i: nat, partners: map<nat, Partner>)
      requires i < |records|
      modifies this
      ensures records == old(records)[i := old(records)[i]["tracking_link" := TrackingLink(old(records)[i], partners)]]
    {
      var link := TrackingLink(records[i], partners);
      records := records[i := records[i]["tracking_link" := link]];
    }

    /** `_update_tracking_from_api` on record `i`: builds the values in turn and
        writes them only when there are some, a field at a time. */
    method UpdateTrackingFromApi(i: nat, data: Json) returns (r: Result<()>)
      requires i < |records|
      modifies this
      ensures (r, records) == TrackingState(old(records), i, data)
    {
      if !data.JObj? {
        return Err(ShapeFault);
      }
      var d := data.fields;
      var status := Get(d, "transitStatus");
      var sub := Get(d, "transitSubStatus");
      var values: Rec := map[];
      if Truthy(status) {
        values := values["carrier_status" := FromJson(status)];
      }
      if Truthy(sub) {
        values := values["subdelivery_status" := FromJson(sub)];
      }
      assert values == StatusValues(d);
      ghost var statusPart := values;
      var latest := LatestDetail(d);
      if latest.Err? {
        assert TrackingValues(data) == Err(latest.error);
        return Err(latest.error);
      }
      if latest.value.Some? {
        var event := LatestEventValues(latest.value.value);
        if event.Err? {
          TrackingValuesErr(data, latest.value.value);
          return Err(event.error);
        }
        values := values + event.value;
        TrackingValuesOf(data, latest.value, event.value);
      } else {
        TrackingValuesOf(data, latest.value, map[]);
        assert values == statusPart + map[];
      }
      assert values == TrackingValues(data).value;
      if values == map[] {
        assert StatusesAccepted(values) && StoredPart(values) == values;
        assert records[i] + values == records[i];
        assert records[i := records[i]] == records;
        return Ok(());
      }
      r := WriteTracking(i, values);
    }

    /** `write(values)` of tracking values on record `i`: the carrier status
        is stored first, and a status outside its selection raises with only
        the fields before it stored. */
    method WriteTracking(i: nat, values: Rec) returns (r: Result<()>)
      requires i < |records|
      modifies this
      ensures records == old(records)[i := old(records)[i] + StoredPart(values)]
      ensures r == if SelectionFault(values).Some? then Err(SelectionFault(values).value) else Ok(())
    {
      if "carrier_status" in values && !SelectionAccepts(values["carrier_status"], CarrierStatuses) {
        assert records[i] + map[] == records[i];
        return Err(WrongValue("carrier_status", values["carrier_status"]));
      }
      if "subdelivery_status" in values && !SelectionAccepts(values["subdelivery_status"], SubStatuses) {
        if "carrier_status" in values {
          records := records[i := records[i]["carrier_status" := values["carrier_status"]]];
          assert old(records)[i]["carrier_status" := values["carrier_status"]]
            == old(records)[i] + map["carrier_status" := values["carrier_status"]];
        } else {
          assert records[i] + map[] == records[i];
        }
        return Err(WrongValue("subdelivery_status", values["subdelivery_status"]));
      }
      records := records[i := records[i] + values];
      return Ok(());
    }

    /** `action_track123_get_tracking` on record `i`, given the `track/query`
        response, as `action_track123_register` calls it: when it raises, the
        records are left as the failed update wrote them, for the caller to
        keep or roll back. */
    method GetTracking(i: nat, response: Result<Json>, repr: Json -> string) returns (r: Result<()>)
      requires i < |records|
      modifies this
      ensures (r, records) == QueryState(old(records), i, response, repr)
    {
      var code := if "tracking_code" in records[i] then ReadText(records[i]["tracking_code"]) else "";
      if code == "" {
        return Err(QueryNeedsCode);
      }
      var q := QueryOutcome(response, repr);
      if q.Err? {
        return Err(q.error);
      }
      var u := UpdateTrackingFromApi(i, q.value);
      if u.Err? {
        return Err(QueryFailedPrefix + u.error);
      }
      return Ok(());
    }

    /** `action_track123_get_tracking` pressed as a button: every error it
        raises ends the request, which rolls back what the update wrote. */
    method GetTrackingButton(i: nat, response: Result<Json>, repr: Json -> string) returns (r: Result<()>)
      requires i < |records|
      modifies this
      ensures r == QueryState(old(records), i, response, repr).0
      ensures r.Err? ==> records == old(records)
      ensures r.Ok? ==> records == QueryState(old(records), i, response, repr).1
    {
      var before := records;
      r := GetTracking(i, response, repr);
      if r.Err? {
        records := before;
      }
    }

    /** `action_track123_register` on record `i`: registers, then always asks
        for tracking. A failed query after an acceptance is caught and what it
        wrote stays; after a rejection it is raised again, so the call ends on
        that error and everything it wrote is rolled back. */
    method Register(i: nat, importResponse: Result<Json>, queryResponse: Result<Json>, repr: Json -> string)
      returns (r: Result<string>)
      requires i < |records|
      modifies this
      ensures var reg := RegisterOutcome(importResponse, repr);
        var q := QueryState(old(records), i, queryResponse, repr);
        && (TrackingCode(old(records)[i]) == "" ==> r == Err(RegisterNeedsCode) && records == old(records))
        && (TrackingCode(old(records)[i]) != "" && reg.Err? ==> r == Err(reg.error) && records == old(records))
        && (TrackingCode(old(records)[i]) != "" && reg.Ok? ==>
              && (q.0.Err? && QueryMustSucceed(reg.value) ==> r == Err(q.0.error) && records == old(records))
              && (!(q.0.Err? && QueryMustSucceed(reg.value)) ==> r == Ok(Message(reg.value)) && records == q.1))
    {
      var code := if "tracking_code" in records[i] then ReadText(records[i]["tracking_code"]) else "";
      if code == "" {
        return Err(RegisterNeedsCode);
      }
      var reg := RegisterOutcome(importResponse, repr);
      if reg.Err? {
        return Err(reg.error);
      }
      var before := records;
      var g := GetTracking(i, queryResponse, repr);
      if g.Err? && QueryMustSucceed(reg.value) {
        records := before;
        return Err(g.error);
      }
      return Ok(Message(reg.value));
    }

    /** `process_track123_webhook`: `True` exactly when a picking carries the
        pushed tracking number and its values could be written. */
    method ProcessWebhook(payload: Json) returns (ok: bool)
      modifies this
      ensures (ok, records) == WebhookOutcome(old(records), payload)
    {
      var info := GetOr(payload, "data", JObj(map[]));
      if info.None? || !info.value.JObj? {
        return false;
      }
      var trackNo := Get(info.value.fields, "trackNo");
      if !Truthy(trackNo) || !trackNo.JStr? {
        return false;
      }
      var found := FindByCode(records, trackNo.s);
      if found.None? {
        return false;
      }
      var u := UpdateTrackingFromApi(found.value, info.value);
      return u.Ok?;
    }
  }
}
