// The `/casso/webhook` HTTP handler: IP allowlist, JSON body, HMAC signature
// header in two formats, payload shape check, then one call of the service.
module CassoWebhook {
  import opened Wrappers
  import opened Text
  import opened Json
  import opened CassoStore
  import opened CassoProcessor

  /** The raw body as the host parsed it: `Empty` when there were no bytes,
      `Unparseable` with the exception text when decoding or `json.loads` failed. */
  datatype Body = Empty | Parsed(payload: Json) | Unparseable(reason: string)

  /** `jsonRequest` is the value of `request.jsonrequest` (JSON `null` when absent). */
  datatype Request = Request(
    forwardedFor: Option<string>,
    remoteAddr: string,
    signature: Option<string>,
    body: Body,
    jsonRequest: Json)

  /** The `transaction_webhook.*` system parameters; `None` when unset. */
  datatype Config = Config(
    debug: Option<string>,
    allowedIps: Option<string>,
    hmacSecret: Option<string>,
    strictMode: Option<string>)

  /** `json.dumps(payload, separators=(",", ":"), sort_keys=True, ensure_ascii=False)`
      and the hex HMAC-SHA512 (RFC 2104, FIPS 180-4) of a message under a key. */
  datatype Crypto = Crypto(canonicalJson: Json -> string, hmacSha512Hex: (string, string) -> string)

  datatype Response = Response(status: int, body: Json)

  /** A parameter is on when it reads "1", "true" or "True"; unset reads "0". */
  predicate Flag(p: Option<string>) {
    p.Some? && (p.value == "1" || p.value == "true" || p.value == "True")
  }

  // ----- IP allowlist -----

  /** `{ip.strip() for ip in allow_ips.split(",") if ip.strip()}`. */
  function AllowedIps(param: string): (r: set<string>)
    ensures forall ip :: ip in r ==> ip != "" && Strip(ip) == ip
    ensures forall piece :: piece in Split(param, ',') && Strip(piece) != "" ==> Strip(piece) in r
    ensures forall ip :: ip in r ==> exists piece :: piece in Split(param, ',') && Strip(piece) == ip
  {
    set piece | piece in Split(param, ',') && Strip(piece) != "" :: StripTwice(piece); Strip(piece)
  }

  lemma {:induction false} StripTwice(s: string)
    ensures Strip(Strip(s)) == Strip(s)
  {
    var r := Strip(s);
    if r != [] {
      assert !IsSpace(r[0]) && !IsSpace(r[|r| - 1]);
    }
  }

  /** The first `X-Forwarded-For` entry, stripped, else `remote_addr`. */
  function ClientIp(req: Request): (ip: string)
    ensures var first := Strip(Split(req.forwardedFor.GetOr(""), ',')[0]);
      ip == if first != "" then first else req.remoteAddr
  {
    var first := Strip(Split(req.forwardedFor.GetOr(""), ',')[0]);
    if first != "" then first else req.remoteAddr
  }

  /** The allowlist applies only when the parameter is not blank. */
  predicate IpRefused(req: Request, cfg: Config) {
    var param := cfg.allowedIps.GetOr("");
    Strip(param) != "" && ClientIp(req) !in AllowedIps(param)
  }

  // ----- signature -----

  /** `dict((k.strip(), v.strip()) for p in pieces if "=" in p)`, split at the first
      `=`; a later key overrides an earlier one. */
  function Pairs(pieces: seq<string>): map<string, string> {
    if pieces == [] then map[]
    else
      var acc := Pairs(pieces[..|pieces| - 1]);
      var e := Entry(pieces[|pieces| - 1]);
      if e.Some? then acc[e.value.0 := e.value.1] else acc
  }

  /** One `key=value` piece, both sides stripped; `None` without `=`. */
  function Entry(p: string): Option<(string, string)> {
    match SplitFirst(p, '=')
    case None => None
    case Some(kv) => Some((Strip(kv.0), Strip(kv.1)))
  }

  /** The value of the last piece whose key is `k`, read from the front: a
      later piece with the key takes precedence over everything before it. */
  function LastValue(pieces: seq<string>, k: string): Option<string> {
    if pieces == [] then None
    else
      match LastValue(pieces[1..], k)
      case Some(v) => Some(v)
      case None => if Entry(pieces[0]).Some? && Entry(pieces[0]).value.0 == k then Some(Entry(pieces[0]).value.1) else None
  }

  lemma {:induction false} LastValueSnoc(pieces: seq<string>, x: string, k: string)
    ensures LastValue(pieces + [x], k) ==
      if Entry(x).Some? && Entry(x).value.0 == k then Some(Entry(x).value.1) else LastValue(pieces, k)
  {
    if pieces == [] {
      assert ([] + [x])[1..] == [];
    } else {
      assert (pieces + [x])[1..] == pieces[1..] + [x];
      assert (pieces + [x])[0] == pieces[0];
      LastValueSnoc(pieces[1..], x, k);
    }
  }

  /** The dictionary the pieces build holds, for every key, the value of the
      last piece with that key, and no other key. */
  lemma {:induction false} PairsLastValue(pieces: seq<string>, k: string)
    ensures k in Pairs(pieces) <==> LastValue(pieces, k).Some?
    ensures k in Pairs(pieces) ==> Pairs(pieces)[k] == LastValue(pieces, k).value
  {
    if pieces != [] {
      var init := pieces[..|pieces| - 1];
      assert pieces == init + [pieces[|pieces| - 1]];
      PairsLastValue(init, k);
      LastValueSnoc(init, pieces[|pieces| - 1], k);
    }
  }

  /** No whitespace at either end: what `strip` leaves alone. */
  predicate Trimmed(s: string) {
    s == [] || (!IsSpace(s[0]) && !IsSpace(s[|s| - 1]))
  }

  lemma StripTrimmed(s: string)
    requires Trimmed(s)
    ensures Strip(s) == s
  {
  }

  predicate AllAscii(s: string) {
    forall i :: 0 <= i < |s| ==> s[i] as int < 128
  }

  /** `hmac.compare_digest` of two strings; it raises (so: not ok) on non-ASCII text. */
  predicate CompareDigest(a: string, b: string) {
    AllAscii(a) && AllAscii(b) && a == b
  }

  /** The hex digest the header carries and the message it signs, as far as the
      header provides both; `None` when one of them is missing. */
  function SignedParts(sig: string, payload: Json, crypto: Crypto): (r: Option<(string, string)>)
    // `sha512=<hex>`, the prefix in any case: the digest is the stripped rest
    // of the header and the message is the canonical JSON
    ensures var s := Strip(sig); StartsWith(Lower(s), "sha512=") ==>
      r == if Strip(s[7..]) != "" then Some((Strip(s[7..]), crypto.canonicalJson(payload))) else None
    // otherwise comma-separated `key=value` pieces: the digest is the last `v1`
    // value and the message the last `t` value, a dot and the canonical JSON
    ensures var s := Strip(sig); !StartsWith(Lower(s), "sha512=") ==>
      r == match (LastValue(Split(s, ','), "v1"), LastValue(Split(s, ','), "t"))
           case (Some(v), Some(t)) =>
             if v != "" && t != "" then Some((v, t + "." + crypto.canonicalJson(payload))) else None
           case _ => None
  {
    var s := Strip(sig);
    var canonical := crypto.canonicalJson(payload);
    if StartsWith(Lower(s), "sha512=") then
      ShaPrefixSplit(s);
      var provided := Strip(SplitFirst(s, '=').value.1);
      if provided != "" then Some((provided, canonical)) else None
    else
      var parts := Pairs(Split(s, ','));
      PairsLastValue(Split(s, ','), "v1");
      PairsLastValue(Split(s, ','), "t");
      if "v1" in parts && "t" in parts && parts["v1"] != "" && parts["t"] != ""
      then Some((parts["v1"], parts["t"] + "." + canonical))
      else None
  }

  /** Under a `sha512=` prefix the first `=` is the seventh character. */
  lemma ShaPrefixSplit(s: string)
    requires StartsWith(Lower(s), "sha512=")
    ensures SplitFirst(s, '=') == Some((s[..6], s[7..]))
  {
    assert Lower(s)[..7] == "sha512=";
    forall i | 0 <= i < 6 ensures s[..6][i] != '=' {
      assert Lower(s)[i] == LowerChar(s[i]) == "sha512="[i];
    }
    assert Lower(s)[6] == '=';
    assert s == s[..6] + ['='] + s[7..];
    SplitFirstAfter(s[..6], '=', s[7..]);
  }

  /** Lines 65-105: fail-closed verification of `X-Casso-Signature`. */
  function SignatureOk(cfg: Config, req: Request, payload: Json, crypto: Crypto): (ok: bool)
    ensures (cfg.hmacSecret.None? || cfg.hmacSecret == Some("")) ==> !ok
    ensures (req.signature.None? || req.signature == Some("")) ==> !ok
    ensures ok <==> (cfg.hmacSecret.Some? && cfg.hmacSecret.value != ""
      && req.signature.Some? && req.signature.value != ""
      && SignedParts(req.signature.value, payload, crypto).Some?
      && var (provided, base) := SignedParts(req.signature.value, payload, crypto).value;
         CompareDigest(Lower(crypto.hmacSha512Hex(cfg.hmacSecret.value, base)), Lower(provided)))
  {
    if cfg.hmacSecret.None? || cfg.hmacSecret.value == "" || req.signature.None? || req.signature.value == "" then false
    else match SignedParts(req.signature.value, payload, crypto)
      case None => false
      case Some((provided, base)) =>
        CompareDigest(Lower(crypto.hmacSha512Hex(cfg.hmacSecret.value, base)), Lower(provided))
  }

  predicate IsHex(s: string) {
    forall i :: 0 <= i < |s| ==> IsDigit(s[i]) || 'a' <= s[i] <= 'f' || 'A' <= s[i] <= 'F'
  }

  lemma HexFacts(h: string)
    requires IsHex(h)
    ensures AllAscii(h) && AllAscii(Lower(h)) && ',' !in h && '=' !in h
    ensures h != [] ==> !IsSpace(h[0]) && !IsSpace(h[|h| - 1])
  {
    assert forall i :: 0 <= i < |h| ==> h[i] != ',' && h[i] != '=';
  }

  /** A `sha512=<hex>` header (prefix in any case) signs the canonical JSON itself. */
  lemma Sha512HeaderVerifies(cfg: Config, req: Request, payload: Json, crypto: Crypto, prefix: string)
    requires cfg.hmacSecret.Some? && cfg.hmacSecret.value != ""
    requires |prefix| == 7 && Lower(prefix) == "sha512="
    requires var d := crypto.hmacSha512Hex(cfg.hmacSecret.value, crypto.canonicalJson(payload));
      d != "" && IsHex(d) && req.signature == Some(prefix + d)
    ensures SignatureOk(cfg, req, payload, crypto)
  {
    var d := crypto.hmacSha512Hex(cfg.hmacSecret.value, crypto.canonicalJson(payload));
    ShaHeaderParts(prefix, d, payload, crypto);
  }

  /** The parts of a `sha512=<hex>` header: the digest and the canonical JSON. */
  lemma ShaHeaderParts(prefix: string, d: string, payload: Json, crypto: Crypto)
    requires |prefix| == 7 && Lower(prefix) == "sha512=" && d != "" && IsHex(d)
    ensures SignedParts(prefix + d, payload, crypto) == Some((d, crypto.canonicalJson(payload)))
  {
    HexFacts(d);
    var s := prefix + d;
    assert Strip(s) == s by { assert s[|s| - 1] == d[|d| - 1]; assert s[0] == prefix[0]; assert !IsSpace(Lower(prefix)[0]); }
    assert Lower(s)[..7] == Lower(prefix);
    assert s[7..] == d;
  }

  lemma NoComma(pre: string, x: string)
    requires ',' !in pre && ',' !in x
    ensures ',' !in pre + x
  {
    var s := pre + x;
    forall i | 0 <= i < |s| ensures s[i] != ',' {
      if i >= |pre| { assert s[i] == x[i - |pre|]; } else { assert s[i] == pre[i]; }
    }
  }

  lemma KeyValue(k: string, v: string)
    requires '=' !in k && Trimmed(k) && Trimmed(v)
    ensures Entry(k + "=" + v) == Some((k, v))
  {
    assert k + "=" + v == k + ['='] + v;
    SplitFirstAfter(k, '=', v);
    StripTrimmed(k);
    StripTrimmed(v);
  }

  lemma TimestampSplit(ts: string, d: string)
    requires ',' !in ts && ',' !in d
    ensures Split("t=" + ts + ",v1=" + d, ',') == ["t=" + ts, "v1=" + d]
  {
    var a, b := "t=" + ts, "v1=" + d;
    NoComma("t=", ts);
    NoComma("v1=", d);
    assert "t=" + ts + ",v1=" + d == a + [','] + b;
    SplitAfter(a, ',', b);
    SplitNone(b, ',');
  }

  lemma TwoPairs(a: string, b: string, ka: string, va: string, kb: string, vb: string)
    requires Entry(a) == Some((ka, va)) && Entry(b) == Some((kb, vb))
    ensures Pairs([a, b]) == map[ka := va][kb := vb]
  {
    OnePair(a, ka, va);
    PairsSnoc([a], b, kb, vb);
    SnocTwo(a, b);
  }

  lemma SnocTwo(a: string, b: string)
    ensures [a] + [b] == [a, b]
  {
  }

  lemma OnePair(a: string, ka: string, va: string)
    requires Entry(a) == Some((ka, va))
    ensures Pairs([a]) == map[ka := va]
  {
    assert [a][..0] == [];
  }

  lemma PairsSnoc(pieces: seq<string>, b: string, kb: string, vb: string)
    requires Entry(b) == Some((kb, vb))
    ensures Pairs(pieces + [b]) == Pairs(pieces)[kb := vb]
  {
    var q := pieces + [b];
    assert q[..|q| - 1] == pieces;
    assert q[|q| - 1] == b;
    assert Pairs(q) == Pairs(q[..|q| - 1])[kb := vb];
  }

  lemma TimestampPairs(ts: string, d: string)
    requires ts != [] && ',' !in ts && Trimmed(ts)
    requires d != [] && IsHex(d)
    ensures Pairs(Split("t=" + ts + ",v1=" + d, ',')) == map["t" := ts, "v1" := d]
  {
    HexFacts(d);
    TimestampSplit(ts, d);
    TimestampEntry(ts);
    DigestEntry(d);
    TwoPairs("t=" + ts, "v1=" + d, "t", ts, "v1", d);
  }

  lemma TimestampEntry(ts: string)
    requires ',' !in ts && Trimmed(ts)
    ensures Entry("t=" + ts) == Some(("t", ts))
  {
    assert "t=" + ts == "t" + "=" + ts;
    KeyValue("t", ts);
  }

  lemma DigestEntry(d: string)
    requires IsHex(d)
    ensures Entry("v1=" + d) == Some(("v1", d))
  {
    HexFacts(d);
    assert "v1=" + d == "v1" + "=" + d;
    KeyValue("v1", d);
  }

  /** A `t=<ts>,v1=<hex>` header signs `ts + "." + canonical JSON`. */
  lemma TimestampHeaderVerifies(cfg: Config, req: Request, payload: Json, crypto: Crypto, ts: string)
    requires cfg.hmacSecret.Some? && cfg.hmacSecret.value != ""
    requires ts != [] && ',' !in ts && Trimmed(ts)
    requires var d := crypto.hmacSha512Hex(cfg.hmacSecret.value, ts + "." + crypto.canonicalJson(payload));
      d != "" && IsHex(d) && req.signature == Some("t=" + ts + ",v1=" + d)
    ensures SignatureOk(cfg, req, payload, crypto)
  {
    var d := crypto.hmacSha512Hex(cfg.hmacSecret.value, ts + "." + crypto.canonicalJson(payload));
    HexFacts(d);
    TimestampParts(ts, d, payload, crypto);
  }

  lemma TimestampParts(ts: string, d: string, payload: Json, crypto: Crypto)
    requires ts != [] && ',' !in ts && Trimmed(ts)
    requires d != [] && IsHex(d)
    ensures SignedParts("t=" + ts + ",v1=" + d, payload, crypto) == Some((d, ts + "." + crypto.canonicalJson(payload)))
  {
    TimestampStripped(ts, d);
    TimestampNotSha(ts, d);
    TimestampPairs(ts, d);
  }

  lemma TimestampStripped(ts: string, d: string)
    requires ts != [] && d != [] && IsHex(d)
    ensures Strip("t=" + ts + ",v1=" + d) == "t=" + ts + ",v1=" + d
  {
    var s := "t=" + ts + ",v1=" + d;
    HexFacts(d);
    assert s[|s| - 1] == d[|d| - 1];
    assert s[0] == 't';
  }

  lemma TimestampNotSha(ts: string, d: string)
    ensures !StartsWith(Lower("t=" + ts + ",v1=" + d), "sha512=")
  {
    var s := "t=" + ts + ",v1=" + d;
    assert s[0] == 't';
    assert Lower(s)[0] == 't';
  }

  // ----- the handler's stages -----

  function Obj(m: map<string, Json>): Json { JObj(m) }

  /** A response of the handler that is decided before any transaction is processed,
      or the transactions to process. `Crash` is an unhandled exception. */
  datatype Gated = Reject(response: Response) | Accept(txs: seq<map<string, Json>>) | Crash

  function Payload(req: Request): Result<Json> {
    match req.body
    case Unparseable(reason) => Err(reason)
    case Parsed(p) => Ok(p)
    case Empty => Ok(if Truthy(req.jsonRequest) then req.jsonRequest else JObj(map[]))
  }

  function ForbiddenBody(debug: bool, ip: string): Json {
    Obj(map["error" := JNum(1), "message" := JStr("Forbidden IP")] + (if debug then map["ip" := JStr(ip)] else map[]))
  }

  function UnauthorizedBody(debug: bool): Json {
    Obj(map["error" := JNum(1), "message" := JStr("Unauthorized")]
        + (if debug then map["reason" := JStr("signature_invalid_or_missing")] else map[]))
  }

  const UnsupportedBody := Obj(map["error" := JNum(1), "message" := JStr("Unsupported payload")])

  /** The checks of lines 28-105, in order: 403, 400, 401; `Passed` carries the payload. */
  datatype Screened = Refused(response: Response) | Passed(payload: Json)

  function Screen(req: Request, cfg: Config, crypto: Crypto): (r: Screened)
    ensures IpRefused(req, cfg) <==> r.Refused? && r.response.status == 403
    ensures IpRefused(req, cfg) ==> r.response.body == ForbiddenBody(Flag(cfg.debug), ClientIp(req))
    ensures r.Refused? && r.response.status == 400 <==> !IpRefused(req, cfg) && Payload(req).Err?
    ensures r.Refused? && r.response.status == 401 <==>
      !IpRefused(req, cfg) && Payload(req).Ok? && !SignatureOk(cfg, req, Payload(req).value, crypto)
    ensures r.Passed? <==>
      !IpRefused(req, cfg) && Payload(req).Ok? && SignatureOk(cfg, req, Payload(req).value, crypto)
    ensures r.Passed? ==> r.payload == Payload(req).value
    ensures r.Refused? ==> r.response.status in {400, 401, 403}
  {
    var debug := Flag(cfg.debug);
    if IpRefused(req, cfg) then Refused(Response(403, ForbiddenBody(debug, ClientIp(req))))
    else match Payload(req)
      case Err(e) => Refused(Response(400, Obj(map["error" := JNum(1), "message" := JStr("Invalid JSON: " + e)])))
      case Ok(payload) =>
        if !SignatureOk(cfg, req, payload, crypto) then Refused(Response(401, UnauthorizedBody(debug)))
        else Passed(payload)
  }

  /** Lines 107-124 for an object payload: `data` must hold an object. */
  function DataShape(fields: map<string, Json>): Gated {
    match Get(fields, "data")
    case JObj(tx) => Accept([tx])
    case _ => Reject(Response(422, UnsupportedBody))
  }

  /** Lines 28-124 as written: a non-object JSON document that passes the signature
      check reaches `payload.get`, which raises. */
  function GateAsWritten(req: Request, cfg: Config, crypto: Crypto): Gated {
    match Screen(req, cfg, crypto)
    case Refused(resp) => Reject(resp)
    case Passed(payload) => if payload.JObj? then DataShape(payload.fields) else Crash
  }

  /** Lines 28-124 with the evidently intended shape check: anything but an object
      holding an object under `data` is refused with 422. */
  function Gate(req: Request, cfg: Config, crypto: Crypto): (g: Gated)
    ensures !g.Crash?
    ensures Screen(req, cfg, crypto).Refused? ==> g == Reject(Screen(req, cfg, crypto).response)
    ensures Screen(req, cfg, crypto).Passed? ==>
      var p := Screen(req, cfg, crypto).payload;
      if p.JObj? && Get(p.fields, "data").JObj?
      then g == Accept([Get(p.fields, "data").fields])
      else g == Reject(Response(422, UnsupportedBody))
  {
    match Screen(req, cfg, crypto)
    case Refused(resp) => Reject(resp)
    case Passed(payload) => if payload.JObj? then DataShape(payload.fields) else Reject(Response(422, UnsupportedBody))
  }

  /** The two agree except where the code as written crashes. */
  lemma GateAgreesWhereDefined(req: Request, cfg: Config, crypto: Crypto)
    ensures GateAsWritten(req, cfg, crypto).Crash? || GateAsWritten(req, cfg, crypto) == Gate(req, cfg, crypto)
  {
  }

  /** A signed JSON array takes the code as written into its crash; the corrected gate answers 422. */
  lemma SignedArrayCrashes(crypto: Crypto, secret: string)
    requires secret != ""
    requires var d := crypto.hmacSha512Hex(secret, crypto.canonicalJson(JArr([JNum(1)]))); d != "" && IsHex(d)
    ensures var d := crypto.hmacSha512Hex(secret, crypto.canonicalJson(JArr([JNum(1)])));
      var req := Request(None, "127.0.0.1", Some("sha512=" + d), Parsed(JArr([JNum(1)])), JNull);
      var cfg := Config(None, None, Some(secret), None);
      GateAsWritten(req, cfg, crypto).Crash? && Gate(req, cfg, crypto) == Reject(Response(422, UnsupportedBody))
  {
    var d := crypto.hmacSha512Hex(secret, crypto.canonicalJson(JArr([JNum(1)])));
    var req := Request(None, "127.0.0.1", Some("sha512=" + d), Parsed(JArr([JNum(1)])), JNull);
    var cfg := Config(None, None, Some(secret), None);
    SignedArrayPasses(crypto, secret, d, req, cfg);
  }

  lemma SignedArrayPasses(crypto: Crypto, secret: string, d: string, req: Request, cfg: Config)
    requires secret != ""
    requires d == crypto.hmacSha512Hex(secret, crypto.canonicalJson(JArr([JNum(1)]))) && d != "" && IsHex(d)
    requires req == Request(None, "127.0.0.1", Some("sha512=" + d), Parsed(JArr([JNum(1)])), JNull)
    requires cfg == Config(None, None, Some(secret), None)
    ensures Screen(req, cfg, crypto) == Passed(JArr([JNum(1)]))
  {
    SignedArraySignature(crypto, secret, d, req, cfg);
    assert !IpRefused(req, cfg) by { assert Strip("") == ""; }
    assert Payload(req) == Ok(JArr([JNum(1)]));
  }

  lemma SignedArraySignature(crypto: Crypto, secret: string, d: string, req: Request, cfg: Config)
    requires secret != ""
    requires d == crypto.hmacSha512Hex(secret, crypto.canonicalJson(JArr([JNum(1)]))) && d != "" && IsHex(d)
    requires req == Request(None, "127.0.0.1", Some("sha512=" + d), Parsed(JArr([JNum(1)])), JNull)
    requires cfg == Config(None, None, Some(secret), None)
    ensures SignatureOk(cfg, req, JArr([JNum(1)]), crypto)
  {
    assert Lower("sha512=") == "sha512=";
    Sha512HeaderVerifies(cfg, req, JArr([JNum(1)]), crypto, "sha512=");
  }

  /** The JSON a relation field holds: `False` when unset. */
  function CharJson(v: Option<string>): Json {
    if v.Some? then JStr(v.value) else JBool(false)
  }

  /** One entry of `results`, lines 131-139. */
  function ResultEntry(r: Result<Processed>): (j: Json)
    ensures r.Err? ==> j == Obj(map["error" := JNum(1), "message" := JStr(r.error)])
  {
    match r
    case Ok(p) => Obj(map["casso_id" := CharJson(p.line.cassoId), "reference" := CharJson(p.line.tid),
                          "line_id" := JNum(p.line.id), "created" := JBool(p.created)])
    case Err(e) => Obj(map["error" := JNum(1), "message" := JStr(e)])
  }

  datatype Batch = Batch(results: seq<Json>, lines: seq<StatementLine>, nextId: nat)

  /** The loop of lines 127-139: each transaction processed in turn, failures kept as entries. */
  function ProcessAll(lines: seq<StatementLine>, nextId: nat, txs: seq<map<string, Json>>, env: Env): (b: Batch)
    ensures |b.results| == |txs|
  {
    if txs == [] then Batch([], lines, nextId)
    else
      var b := ProcessAll(lines, nextId, txs[..|txs| - 1], env);
      var o := Process(b.lines, b.nextId, txs[|txs| - 1], env);
      Batch(b.results + [ResultEntry(o.result)], o.lines,
            if o.result.Ok? && o.result.value.created then b.nextId + 1 else b.nextId)
  }

  function OkBody(results: seq<Json>, strict: bool): Json {
    Obj(map["error" := JNum(0), "results" := JArr(results)] + (if strict then map["success" := JBool(true)] else map[]))
  }

  datatype Handled = Handled(response: Response, lines: seq<StatementLine>, nextId: nat)

  /** The handler's response and the store after it, on the gate as written:
      the `AttributeError` of a signed non-object body ends the request with a
      server error, and only a request that gets past every check reaches the
      store. */
  function Webhook(lines: seq<StatementLine>, nextId: nat, req: Request, cfg: Config, crypto: Crypto, env: Env): (h: Handled)
    ensures h.response.status == 500 <==>
      Screen(req, cfg, crypto).Passed? && !Screen(req, cfg, crypto).payload.JObj?
    ensures h.response.status != 200 ==> h.lines == lines && h.nextId == nextId
    ensures h.response.status == 200 <==> Gate(req, cfg, crypto).Accept?
  {
    match GateAsWritten(req, cfg, crypto)
    case Reject(resp) => Handled(resp, lines, nextId)
    case Crash => Handled(Response(500, JNull), lines, nextId)
    case Accept(txs) =>
      var b := ProcessAll(lines, nextId, txs, env);
      Handled(Response(200, OkBody(b.results, Flag(cfg.strictMode))), b.lines, b.nextId)
  }

  lemma ProcessOne(lines: seq<StatementLine>, nextId: nat, tx: map<string, Json>, env: Env)
    ensures var b := ProcessAll(lines, nextId, [tx], env);
      var o := Process(lines, nextId, tx, env);
      b.lines == o.lines && b.results == [ResultEntry(o.result)]
  {
    assert [tx][..0] == [];
  }

  /** Only an accepted request touches the store; its single transaction yields
      exactly one result, an error entry if processing failed, under `error: 0`;
      `success` appears exactly in strict mode. A signed body that is not an
      object answers 500 and leaves the store alone. */
  lemma WebhookOutcome(lines: seq<StatementLine>, nextId: nat, req: Request, cfg: Config, crypto: Crypto, env: Env)
    ensures var h := Webhook(lines, nextId, req, cfg, crypto, env);
      h.response.status in {200, 400, 401, 403, 422, 500}
      && (h.response.status == 500 ==> h.lines == lines && h.nextId == nextId && h.response.body == JNull)
      && (h.response.status != 200 ==> h.lines == lines && h.nextId == nextId)
      && (h.response.status == 200 ==>
            var tx := Get(Payload(req).value.fields, "data").fields;
            var o := Process(lines, nextId, tx, env);
            h.lines == o.lines
            && h.response.body == OkBody([ResultEntry(o.result)], Flag(cfg.strictMode)))
  {
    var g := GateAsWritten(req, cfg, crypto);
    if g.Accept? {
      var sc := Screen(req, cfg, crypto);
      assert sc.Passed? && sc.payload == Payload(req).value;
      ProcessOne(lines, nextId, g.txs[0], env);
    }
  }

  /** With no secret configured, or no signature sent, nothing gets past 401. */
  lemma FailClosed(lines: seq<StatementLine>, nextId: nat, req: Request, cfg: Config, crypto: Crypto, env: Env)
    requires cfg.hmacSecret.None? || cfg.hmacSecret == Some("") || req.signature.None? || req.signature == Some("")
    ensures Webhook(lines, nextId, req, cfg, crypto, env).response.status in {400, 401, 403}
    ensures Webhook(lines, nextId, req, cfg, crypto, env).lines == lines
  {
  }

  lemma ProcessAllKeepsUnique(lines: seq<StatementLine>, nextId: nat, txs: seq<map<string, Json>>, env: Env)
    requires UniqueCassoIds(lines)
    ensures UniqueCassoIds(ProcessAll(lines, nextId, txs, env).lines)
  {
    if txs != [] {
      var b := ProcessAll(lines, nextId, txs[..|txs| - 1], env);
      ProcessAllKeepsUnique(lines, nextId, txs[..|txs| - 1], env);
      ProcessKeepsUnique(b.lines, b.nextId, txs[|txs| - 1], env);
    }
  }

  /** `casso_webhook` against the store. */
  method HandleWebhook(store: StatementLineStore, req: Request, cfg: Config, crypto: Crypto, env: Env)
    returns (resp: Response)
    requires store.Valid()
    modifies store
    ensures store.Valid()
    ensures var h := Webhook(old(store.lines), old(store.nextId), req, cfg, crypto, env);
      resp == h.response && store.lines == h.lines && store.nextId == h.nextId
  {
    var g := GateAsWritten(req, cfg, crypto);
    if g.Reject? {
      return g.response;
    } else if g.Crash? {
      return Response(500, JNull);
    }
    var results := ProcessTxs(store, g.txs, env);
    resp := Response(200, OkBody(results, Flag(cfg.strictMode)));
  }

  /** The loop of lines 127-139 against the store. */
  method ProcessTxs(store: StatementLineStore, txs: seq<map<string, Json>>, env: Env) returns (results: seq<Json>)
    requires store.Valid()
    modifies store
    ensures store.Valid()
    ensures ProcessAll(old(store.lines), old(store.nextId), txs, env) == Batch(results, store.lines, store.nextId)
  {
    results := [];
    ghost var lines0, next0 := store.lines, store.nextId;
    var i := 0;
    while i < |txs|
      invariant 0 <= i <= |txs| && store.Valid()
      invariant ProcessAll(lines0, next0, txs[..i], env) == Batch(results, store.lines, store.nextId)
    {
      ghost var b := Batch(results, store.lines, store.nextId);
      var r := store.ProcessCassoPayload(txs[i], env);
      ProcessAllStep(lines0, next0, txs, i, env, b);
      results := results + [ResultEntry(r)];
      i := i + 1;
    }
    assert txs[..i] == txs;
  }

  /** One more transaction: the batch so far, then that transaction processed. */
  lemma ProcessAllStep(lines: seq<StatementLine>, nextId: nat, txs: seq<map<string, Json>>, i: nat, env: Env, b: Batch)
    requires i < |txs| && ProcessAll(lines, nextId, txs[..i], env) == b
    ensures var o := Process(b.lines, b.nextId, txs[i], env);
      ProcessAll(lines, nextId, txs[..i + 1], env)
        == Batch(b.results + [ResultEntry(o.result)], o.lines,
                 if o.result.Ok? && o.result.value.created then b.nextId + 1 else b.nextId)
  {
    assert txs[..i + 1][..i] == txs[..i];
  }
}
