// The Track123 push endpoint: signature check over the `verify` block, then
// the picking update of `StockPicking.PickingTable.ProcessWebhook`.
module Track123Webhook {
  import opened Wrappers
  import opened Json
  import StockPicking

  /** `_verify_webhook_signature`. `apiKey` is the configured
      `track123.api_key` ("" when unset) and `sha256Hex` is the host's
      `hashlib.sha256(...).hexdigest()` of the UTF-8 text. Every exception the
      code can raise (a non-dictionary where `.get` is called, a non-text
      timestamp added to the key) also yields `false`. */
  function VerifySignature(payload: Json, apiKey: string, sha256Hex: string -> string): (ok: bool)
    ensures ok <==>
      && payload.JObj?
      && StockPicking.GetOr(payload, "verify", JObj(map[])).Some?
      && var info := StockPicking.GetOr(payload, "verify", JObj(map[])).value;
         && info.JObj?
         && Truthy(Get(info.fields, "signature"))
         && Truthy(Get(info.fields, "timestamp"))
         && Get(info.fields, "timestamp").JStr?
         && apiKey != ""
         && Get(info.fields, "signature") == JStr(sha256Hex(apiKey + Get(info.fields, "timestamp").s))
  {
    var info := StockPicking.GetOr(payload, "verify", JObj(map[]));
    if info.None? || !info.value.JObj? then false
    else
      var signature := Get(info.value.fields, "signature");
      var timestamp := Get(info.value.fields, "timestamp");
      if !Truthy(signature) || !Truthy(timestamp) then false
      else if apiKey == "" then false
      else if !timestamp.JStr? then false
      else signature == JStr(sha256Hex(apiKey + timestamp.s))
  }

  /** The `verify` block a Track123 sender attaches. */
  function Signed(signature: string, timestamp: string): Json {
    JObj(map["verify" := JObj(map["signature" := JStr(signature), "timestamp" := JStr(timestamp)])])
  }

  /** A payload signed with the configured key and a non-empty timestamp is accepted. */
  lemma SignedAccepted(apiKey: string, timestamp: string, sha256Hex: string -> string)
    requires apiKey != "" && timestamp != "" && sha256Hex(apiKey + timestamp) != ""
    ensures VerifySignature(Signed(sha256Hex(apiKey + timestamp), timestamp), apiKey, sha256Hex)
  {
    var info := map["signature" := JStr(sha256Hex(apiKey + timestamp)), "timestamp" := JStr(timestamp)];
    assert Get(info, "signature") == JStr(sha256Hex(apiKey + timestamp));
    assert Get(info, "timestamp") == JStr(timestamp);
  }

  /** Any other signature is refused: the comparison is exact, so a digest
      written in another letter case does not pass either. */
  lemma ForgedRejected(apiKey: string, signature: string, timestamp: string, sha256Hex: string -> string)
    requires signature != sha256Hex(apiKey + timestamp)
    ensures !VerifySignature(Signed(signature, timestamp), apiKey, sha256Hex)
  {
    var info := map["signature" := JStr(signature), "timestamp" := JStr(timestamp)];
    assert Get(info, "timestamp") == JStr(timestamp);
    assert Get(info, "signature") == JStr(signature);
  }

  /** The JSON reply `{'status': ..., 'message': ...}`. */
  datatype Reply = Reply(status: string, message: string)

  const EmptyData := Reply("error", "Empty data")
  const InvalidSignature := Reply("error", "Invalid signature")
  const Processed := Reply("success", "Webhook processed")
  const ProcessingFailed := Reply("error", "Processing failed")

  /** The reply to the `AttributeError` of `request.jsonrequest` on an Odoo
      whose request object no longer has that attribute (16 and later). */
  const NoJsonRequest := Reply("error", "'Request' object has no attribute 'jsonrequest'")

  /** `track123_webhook`. `hasJsonRequest` says whether the host's request
      object still offers `jsonrequest`; when it does not, the handler's own
      `except` answers with the error text before anything else happens. An
      empty body and a bad signature are answered before any picking is
      touched; otherwise the reply reports whether the picking update
      succeeded, and what the update wrote stays either way. */
  method HandleWebhook(table: StockPicking.PickingTable, hasJsonRequest: bool, payload: Json, apiKey: string,
                       sha256Hex: string -> string)
    returns (reply: Reply)
    modifies table
    ensures !hasJsonRequest ==> reply == NoJsonRequest && table.records == old(table.records)
    ensures hasJsonRequest && !Truthy(payload) ==> reply == EmptyData && table.records == old(table.records)
    ensures hasJsonRequest && Truthy(payload) && !VerifySignature(payload, apiKey, sha256Hex) ==>
      reply == InvalidSignature && table.records == old(table.records)
    ensures hasJsonRequest && Truthy(payload) && VerifySignature(payload, apiKey, sha256Hex) ==>
      var u := StockPicking.WebhookOutcome(old(table.records), payload);
      && reply == (if u.0 then Processed else ProcessingFailed)
      && table.records == u.1
  {
    if !hasJsonRequest {
      return NoJsonRequest;
    }
    if !Truthy(payload) {
      return EmptyData;
    }
    if !VerifySignature(payload, apiKey, sha256Hex) {
      return InvalidSignature;
    }
    var success := table.ProcessWebhook(payload);
    if success {
      reply := Processed;
    } else {
      reply := ProcessingFailed;
    }
  }
}
