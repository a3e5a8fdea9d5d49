// The Casso webhook service: `process_casso_payload`, `_resolve_journal` and
// `_normalize_date` over an in-memory statement-line store.
module CassoProcessor {
  import opened Wrappers
  import opened Text
  import opened Json
  import opened DateTimes
  import opened CassoStore

  /** What the service reads from its environment. `defaultJournalParam` is the
      `transaction_webhook.default_journal_id` parameter (None when unset), `today`
      is `context_today`, and the last three are host routines: Python `repr` of a
      container, `float()` of a string and `fields.Datetime.to_datetime` of a string. */
  datatype Env = Env(
    today: Date,
    companyId: nat,
    journals: seq<Journal>,
    maps: seq<BankMap>,
    defaultJournalParam: Option<string>,
    reprContainer: Json -> string,
    parseFloat: string -> Option<real>,
    toDatetime: string -> Option<DateTime>)

  const MsgMissingId := "Missing Casso transaction id (data.id)"
  const MsgMissingAmount := "Missing amount"
  const MsgMissingAccount := "Missing account identifier (accountNumber)"
  const MsgDefaultNotBank := "Configured default journal must be of type 'bank'."
  const MsgNoJournal := "Cannot resolve bank journal. Set system parameter 'transaction_webhook.default_journal_id' to a Bank journal ID."
  // Texts of exceptions raised by Python or the ORM rather than by this add-on.
  const MsgBadInt := "invalid literal for int() with base 10"
  const MsgMissingRecord := "Record does not exist or has been deleted."
  const MsgBadFloat := "could not convert to float"

  // ----- _normalize_date -----

  function CutAtPlus(s: string): string {
    if '+' in s then Strip(Split(s, '+')[0]) else s
  }

  function DropZ(s: string): string {
    if 'Z' in s then Strip(RemoveChar(s, 'Z')) else s
  }

  /** The text `strptime` is given: every `T` made a space, cut at the first `+`,
      every `Z` removed, stripped after each step. */
  function CleanDateText(raw: string): string {
    DropZ(CutAtPlus(Strip(ReplaceChar(raw, 'T', ' '))))
  }

  /** No `T`, `+` or `Z` reaches `strptime`. */
  lemma CleanDateTextRemoves(raw: string)
    ensures var s := CleanDateText(raw); 'T' !in s && '+' !in s && 'Z' !in s
  {
    var r := ReplaceChar(raw, 'T', ' ');
    assert 'T' !in r;
    var s0 := Strip(r);
    StripKeeps(r, 'T');
    var s1 := CutAtPlus(s0);
    if '+' in s0 {
      var p := Split(s0, '+')[0];
      var k := IndexOf(s0, '+').value;
      assert p == s0[..k];
      forall i | 0 <= i < |p| ensures p[i] != 'T' { assert p[i] == s0[i]; }
      StripKeeps(p, 'T');
      StripKeeps(p, '+');
    }
    assert 'T' !in s1 && '+' !in s1;
    if 'Z' in s1 {
      var q := RemoveChar(s1, 'Z');
      RemoveCharSubset(s1, 'Z');
      StripKeeps(q, 'T');
      StripKeeps(q, '+');
      StripKeeps(q, 'Z');
    }
  }

  lemma {:induction false} RemoveCharSubset(s: string, a: char)
    ensures forall c :: c in RemoveChar(s, a) ==> c in s
  {
    if s != [] { RemoveCharSubset(s[1..], a); }
  }

  /** `_normalize_date`: total; falsy input and unreadable text give today. */
  function NormalizeDate(dt: Json, env: Env): (d: Date)
    ensures !Truthy(dt) ==> d == env.today
    ensures Truthy(dt) && ParseFixed(CleanDateText(Str(dt, env.reprContainer)), ' ').Some? ==>
      d == DateOf(ParseFixed(CleanDateText(Str(dt, env.reprContainer)), ' ').value)
  {
    if !Truthy(dt) then env.today
    else match ParseFixed(CleanDateText(Str(dt, env.reprContainer)), ' ')
      case Some(t) => DateOf(t)
      case None =>
        if !dt.JStr? then env.today
        else match env.toDatetime(dt.s)
          case Some(t) => DateOf(t)
          case None => env.today
  }

  lemma FormatShape(t: DateTime, sep: char)
    requires ValidDateTime(t)
    ensures |Format(t, sep)| == 19 && Format(t, sep)[10] == sep
    ensures forall i :: 0 <= i < 19 && i != 10 ==>
      IsDigit(Format(t, sep)[i]) || Format(t, sep)[i] == '-' || Format(t, sep)[i] == ':'
    ensures IsDigit(Format(t, sep)[0]) && IsDigit(Format(t, sep)[18])
  {
    var f := Format(t, sep);
    var y, mo, d, h, mi, s := Digits(t.year, 4), Digits(t.month, 2), Digits(t.day, 2),
                              Digits(t.hour, 2), Digits(t.minute, 2), Digits(t.second, 2);
    assert f == y + "-" + mo + "-" + d + [sep] + h + ":" + mi + ":" + s;
    forall i | 0 <= i < 19 && i != 10 ensures IsDigit(f[i]) || f[i] == '-' || f[i] == ':' {
      if i < 4 { assert f[i] == y[i]; }
      else if i == 4 || i == 7 { }
      else if i < 7 { assert f[i] == mo[i - 5]; }
      else if i < 10 { assert f[i] == d[i - 8]; }
      else if i < 13 { assert f[i] == h[i - 11]; }
      else if i == 13 || i == 16 { }
      else if i < 16 { assert f[i] == mi[i - 14]; }
      else { assert f[i] == s[i - 17]; }
    }
    assert f[0] == y[0] && f[18] == s[1];
  }

  lemma ReplaceSeparator(t: DateTime)
    requires ValidDateTime(t)
    ensures ReplaceChar(Format(t, 'T'), 'T', ' ') == Format(t, ' ')
  {
    FormatShape(t, 'T');
    FormatShape(t, ' ');
    var a, b := ReplaceChar(Format(t, 'T'), 'T', ' '), Format(t, ' ');
    assert Format(t, 'T')[..10] == b[..10] && Format(t, 'T')[11..] == b[11..];
    forall i | 0 <= i < 19 ensures a[i] == b[i] {
      if i < 10 { assert Format(t, 'T')[i] == b[..10][i]; }
      else if i > 10 { assert Format(t, 'T')[i] == Format(t, 'T')[11..][i - 11]; }
    }
  }

  lemma ReplaceCharConcat(a: string, b: string, x: char, y: char)
    ensures ReplaceChar(a + b, x, y) == ReplaceChar(a, x, y) + ReplaceChar(b, x, y)
  {
  }

  lemma CleanFormatFacts(t: DateTime)
    requires ValidDateTime(t)
    ensures var f := Format(t, ' '); |f| == 19 && '+' !in f && 'Z' !in f && 'T' !in f
    ensures ParseFixed(Format(t, ' '), ' ') == Some(t)
    ensures ReplaceChar(Format(t, 'T'), 'T', ' ') == Format(t, ' ')
    ensures !IsSpace(Format(t, ' ')[0]) && !IsSpace(Format(t, ' ')[18])
  {
    var f := Format(t, ' ');
    FormatShape(t, ' ');
    ReplaceSeparator(t);
    ParseFormat(t, ' ');
    forall i | 0 <= i < |f| ensures f[i] != '+' && f[i] != 'Z' && f[i] != 'T' { if i != 10 { } }
  }

  predicate Bare(f: string) {
    f != [] && '+' !in f && 'Z' !in f && !IsSpace(f[0]) && !IsSpace(f[|f| - 1])
  }

  lemma CutAtPlusNone(s: string)
    requires '+' !in s
    ensures CutAtPlus(s) == s
  {
  }

  lemma DropZNone(s: string)
    requires 'Z' !in s
    ensures DropZ(s) == s
  {
  }

  lemma DropZSuffix(f: string)
    requires Bare(f)
    ensures DropZ(f + "Z") == f
  {
    RemoveCharAppend(f, 'Z');
    assert (f + "Z")[|f|] == 'Z';
  }

  lemma StripZSuffix(f: string)
    requires Bare(f)
    ensures Strip(f + "Z") == f + "Z" && '+' !in f + "Z"
  {
    var z := f + "Z";
    assert z[0] == f[0];
    forall i | 0 <= i < |z| ensures z[i] != '+' { if i < |f| { assert z[i] == f[i]; } }
  }

  lemma CutOffset(f: string, w: string)
    requires Bare(f) && w != [] && w[0] == '+'
    ensures CutAtPlus(f + w) == f
  {
    var p := f + w;
    assert p[|f|] == '+';
    assert IndexOf(p, '+') == Some(|f|) by { assert p[..|f|] == f; }
    assert Split(p, '+')[0] == f;
  }

  /** Cleaning text that needs only its `T` replaced. */
  lemma CleanPlain(x: string, f: string)
    requires ReplaceChar(x, 'T', ' ') == f && Bare(f)
    ensures CleanDateText(x) == f
  {
    CutAtPlusNone(f);
    DropZNone(f);
  }

  /** Cleaning text whose `Z` suffix must go. */
  lemma CleanZ(x: string, f: string)
    requires ReplaceChar(x, 'T', ' ') == f + "Z" && Bare(f)
    ensures CleanDateText(x) == f
  {
    StripZSuffix(f);
    CutAtPlusNone(f + "Z");
    DropZSuffix(f);
  }

  /** Cleaning text with a `+...` suffix that must be cut. */
  lemma CleanOffset(x: string, f: string, w: string)
    requires ReplaceChar(x, 'T', ' ') == f + w && Bare(f) && w != [] && w[0] == '+' && !IsSpace(w[|w| - 1])
    ensures CleanDateText(x) == f
  {
    var p := f + w;
    assert Strip(p) == p;
    CutOffset(f, w);
    DropZNone(f);
  }

  /** ISO text from Casso with a `T` separator yields its own date. */
  lemma NormalizeIsoDate(t: DateTime, env: Env)
    requires ValidDateTime(t)
    ensures NormalizeDate(JStr(Format(t, 'T')), env) == DateOf(t)
  {
    var x := Format(t, 'T');
    FormatBare(t);
    CleanPlain(x, Format(t, ' '));
    assert Truthy(JStr(x)) && Str(JStr(x), env.reprContainer) == x;
  }

  lemma FormatBare(t: DateTime)
    requires ValidDateTime(t)
    ensures Bare(Format(t, ' '))
    ensures ReplaceChar(Format(t, 'T'), 'T', ' ') == Format(t, ' ')
    ensures ParseFixed(Format(t, ' '), ' ') == Some(t)
  {
    CleanFormatFacts(t);
  }

  /** A trailing `Z` is removed, not applied. */
  lemma NormalizeUtcDate(t: DateTime, env: Env)
    requires ValidDateTime(t)
    ensures NormalizeDate(JStr(Format(t, 'T') + "Z"), env) == DateOf(t)
  {
    var x := Format(t, 'T') + "Z";
    var f := Format(t, ' ');
    FormatBare(t);
    ReplaceCharConcat(Format(t, 'T'), "Z", 'T', ' ');
    assert ReplaceChar("Z", 'T', ' ') == "Z";
    CleanZ(x, f);
    assert Truthy(JStr(x)) && Str(JStr(x), env.reprContainer) == x;
  }

  predicate OffsetChars(offset: string) {
    forall i :: 0 <= i < |offset| ==> IsDigit(offset[i]) || offset[i] == ':'
  }

  lemma OffsetText(offset: string)
    requires OffsetChars(offset)
    ensures var w := "+" + offset; ReplaceChar(w, 'T', ' ') == w && w[0] == '+' && !IsSpace(w[|w| - 1])
  {
    var w := "+" + offset;
    forall i | 0 <= i < |w| ensures w[i] != 'T' { if i > 0 { assert w[i] == offset[i - 1]; } }
    if |offset| > 0 { assert w[|w| - 1] == offset[|offset| - 1]; }
  }

  /** A `+hh:mm` offset is cut off, not applied: the local date is kept. */
  lemma NormalizeOffsetDate(t: DateTime, offset: string, env: Env)
    requires ValidDateTime(t) && OffsetChars(offset)
    ensures NormalizeDate(JStr(Format(t, 'T') + "+" + offset), env) == DateOf(t)
  {
    var f := Format(t, ' ');
    FormatBare(t);
    var w := "+" + offset;
    var x := Format(t, 'T') + w;
    ReplaceCharConcat(Format(t, 'T'), w, 'T', ' ');
    OffsetText(offset);
    CleanOffset(x, f, w);
    assert Format(t, 'T') + "+" + offset == x;
    assert Truthy(JStr(x)) && Str(JStr(x), env.reprContainer) == x;
  }

  lemma RemoveCharAppend(f: string, a: char)
    requires a !in f
    ensures RemoveChar(f + [a], a) == f
    decreases |f|
  {
    if f != [] {
      assert (f + [a])[1..] == f[1..] + [a];
      RemoveCharAppend(f[1..], a);
    }
  }

  // ----- _resolve_journal -----

  predicate MapMatches(m: BankMap, identifier: string, company: Option<nat>) {
    m.active && m.identifier == identifier && (company.Some? ==> m.companyId == company.value)
  }

  /** `Map.search([identifier, active(, company)], limit=1)`: the first match in table order. */
  function FindMapping(maps: seq<BankMap>, identifier: string, company: Option<nat>): (r: Option<BankMap>)
    ensures r.Some? ==> r.value in maps && MapMatches(r.value, identifier, company)
    ensures r.None? <==> forall m :: m in maps ==> !MapMatches(m, identifier, company)
  {
    if maps == [] then None
    else if MapMatches(maps[0], identifier, company) then Some(maps[0])
    else FindMapping(maps[1..], identifier, company)
  }

  predicate AccountMatches(j: Journal, identifier: string) {
    j.jtype == "bank" && j.bankAccountNumber == Some(identifier)
  }

  function FindBankJournal(journals: seq<Journal>, identifier: string): (r: Option<Journal>)
    ensures r.Some? ==> r.value in journals && AccountMatches(r.value, identifier)
    ensures r.None? <==> forall j :: j in journals ==> !AccountMatches(j, identifier)
  {
    if journals == [] then None
    else if AccountMatches(journals[0], identifier) then Some(journals[0])
    else FindBankJournal(journals[1..], identifier)
  }

  /** `_resolve_journal`: a mapping in the current company, then a mapping in any
      company, then a bank journal whose account number is the identifier. */
  function ResolveJournal(identifier: string, env: Env): (r: Option<nat>)
    ensures (exists m :: m in env.maps && MapMatches(m, identifier, Some(env.companyId))) ==>
      exists m :: m in env.maps && MapMatches(m, identifier, Some(env.companyId)) && r == Some(m.journalId)
    ensures ((forall m :: m in env.maps ==> !MapMatches(m, identifier, Some(env.companyId)))
             && (exists m :: m in env.maps && MapMatches(m, identifier, None))) ==>
      exists m :: m in env.maps && MapMatches(m, identifier, None) && r == Some(m.journalId)
    ensures (forall m :: m in env.maps ==> !MapMatches(m, identifier, None)) ==>
      (r.Some? <==> exists j :: j in env.journals && AccountMatches(j, identifier))
      && (r.Some? ==> exists j :: j in env.journals && AccountMatches(j, identifier) && r.value == j.id)
  {
    var mapping := match FindMapping(env.maps, identifier, Some(env.companyId))
                   case Some(m) => Some(m)
                   case None => FindMapping(env.maps, identifier, None);
    if mapping.Some? then
      assert forall m :: MapMatches(m, identifier, Some(env.companyId)) ==> MapMatches(m, identifier, None);
      Some(mapping.value.journalId)
    else match FindBankJournal(env.journals, identifier)
      case Some(j) => Some(j.id)
      case None => None
  }

  /** The default-journal parameter is set and `int()` reads it as `n`. */
  predicate DefaultNames(env: Env, n: int) {
    env.defaultJournalParam.Some? && PyInt(env.defaultJournalParam.value) == Some(n)
  }

  /** Some journal has id `n`, and the first one is a bank journal. */
  predicate BankJournalId(env: Env, n: nat) {
    FindJournal(env.journals, n).Some? && FindJournal(env.journals, n).value.jtype == "bank"
  }

  /** Lines 52-71: the resolved journal, else the configured default (which must
      be a bank journal), else an error. `browse(0)` is the empty recordset, so a
      default of 0 is "cannot resolve"; any other id is a record whose `type`
      read fails when no journal has that id. */
  function JournalFor(identifier: string, env: Env): (r: Result<nat>)
    ensures ResolveJournal(identifier, env).Some? ==> r == Ok(ResolveJournal(identifier, env).value)
    ensures ResolveJournal(identifier, env).None? && (env.defaultJournalParam.None? || env.defaultJournalParam == Some(""))
      ==> r == Err(MsgNoJournal)
    ensures ResolveJournal(identifier, env).None? && DefaultNames(env, 0) ==> r == Err(MsgNoJournal)
    // the default is used exactly when it names an existing bank journal
    ensures ResolveJournal(identifier, env).None? && r.Ok? ==>
      r.value != 0 && DefaultNames(env, r.value) && BankJournalId(env, r.value)
    ensures forall n: nat :: n != 0 && DefaultNames(env, n) && BankJournalId(env, n) ==>
      (ResolveJournal(identifier, env).None? ==> r == Ok(n))
    ensures r.Err? ==> r.error in {MsgNoJournal, MsgBadInt, MsgMissingRecord, MsgDefaultNotBank}
  {
    match ResolveJournal(identifier, env)
    case Some(j) => Ok(j)
    case None =>
      if env.defaultJournalParam.None? || env.defaultJournalParam.value == "" then Err(MsgNoJournal)
      else match PyInt(env.defaultJournalParam.value)
        case None => Err(MsgBadInt)
        case Some(n) =>
          if n == 0 then Err(MsgNoJournal)
          else if n < 0 then Err(MsgMissingRecord)
          else match FindJournal(env.journals, n)
            case None => Err(MsgMissingRecord)
            case Some(j) => if j.jtype != "bank" then Err(MsgDefaultNotBank) else Ok(j.id)
  }

  // ----- process_casso_payload -----

  /** The payload fields read before the store is consulted. */
  datatype Prepared = Prepared(
    cassoId: string, description: Json, amount: Json, date: Date, identifier: string,
    accountNumber: Json, subAccount: Json, bankAbbreviation: Json, bankName: Json,
    counterAccount: Json, virtualAccount: Json, reference: Json, journalId: nat)

  /** Lines 20-71: field checks in source order, then journal resolution. */
  function Prepare(tx: map<string, Json>, env: Env): (r: Result<Prepared>)
    ensures Get(tx, "id") == JNull ==> r == Err(MsgMissingId)
    ensures Get(tx, "id") != JNull && Get(tx, "amount") == JNull ==> r == Err(MsgMissingAmount)
    ensures Get(tx, "id") != JNull && Get(tx, "amount") == JNum(0) ==> r != Err(MsgMissingAmount)
    ensures (Get(tx, "id") != JNull && Get(tx, "amount") != JNull
             && !Truthy(Get(tx, "accountNumber")) && !Truthy(Get(tx, "bank_sub_acc_id"))) ==> r == Err(MsgMissingAccount)
    ensures r.Ok? ==> r.value.cassoId == Str(Get(tx, "id"), env.reprContainer)
    ensures r.Ok? ==> r.value.identifier == Strip(Str(Or(Get(tx, "accountNumber"), Get(tx, "bank_sub_acc_id")), env.reprContainer))
    ensures r.Ok? ==> JournalFor(r.value.identifier, env) == Ok(r.value.journalId)
  {
    if Get(tx, "id") == JNull then Err(MsgMissingId)
    else if Get(tx, "amount") == JNull then Err(MsgMissingAmount)
    else if !Truthy(Or(Get(tx, "accountNumber"), Get(tx, "bank_sub_acc_id"))) then Err(MsgMissingAccount)
    else Resolved(tx, env)
  }

  /** Lines 26-71 once the id, the amount and an account identifier are present. */
  function Resolved(tx: map<string, Json>, env: Env): (r: Result<Prepared>)
    ensures var j := JournalFor(Strip(Str(Or(Get(tx, "accountNumber"), Get(tx, "bank_sub_acc_id")), env.reprContainer)), env);
      r.Err? <==> j.Err? && (r.Err? ==> r.error == j.error)
    ensures r.Ok? ==> r.value.cassoId == Str(Get(tx, "id"), env.reprContainer)
    ensures r.Ok? ==> r.value.identifier == Strip(Str(Or(Get(tx, "accountNumber"), Get(tx, "bank_sub_acc_id")), env.reprContainer))
    ensures r.Ok? ==> JournalFor(r.value.identifier, env) == Ok(r.value.journalId)
  {
    var description := Or(Get(tx, "description"), JStr(""));
    var date := NormalizeDate(Get(tx, "transactionDateTime"), env);
    var accountNumber := Get(tx, "accountNumber");
    var subAccount := Get(tx, "bank_sub_acc_id");
    var identifier := Strip(Str(Or(accountNumber, subAccount), env.reprContainer));
    var counter := Or(Get(tx, "counterAccountNumber"), Or(Get(tx, "corresponsiveAccount"), Get(tx, "corresponsiveAccountNumber")));
    var virtual := Or(Get(tx, "virtualAccountNumber"), Or(Get(tx, "virtualAccount"), JStr("")));
    var reference := Or(Get(tx, "reference"), JStr(""));
    match JournalFor(identifier, env)
    case Err(e) => Err(e)
    case Ok(journalId) =>
      Ok(Prepared(Str(Get(tx, "id"), env.reprContainer), description, Get(tx, "amount"), date, identifier,
                  accountNumber, subAccount, Get(tx, "bankAbbreviation"), Get(tx, "bankName"), counter, virtual,
                  reference, journalId))
  }

  /** Python `float(j)`; `None` where it raises. */
  function FloatOf(j: Json, parseFloat: string -> Option<real>): Option<real> {
    match j
    case JNum(n) => Some(n as real)
    case JBool(b) => Some(if b then 1.0 else 0.0)
    case JStr(s) => parseFloat(s)
    case _ => None
  }

  /** `search([("x_tw_casso_id", "=", id)], limit=1)`. */
  function FindLine(lines: seq<StatementLine>, cassoId: string): (r: Option<StatementLine>)
    ensures r.Some? ==> r.value in lines && r.value.cassoId == Some(cassoId)
    ensures r.None? <==> !UsesCassoId(lines, cassoId)
  {
    if lines == [] then None
    else if lines[0].cassoId == Some(cassoId) then Some(lines[0])
    else
      var r := FindLine(lines[1..], cassoId);
      assert UsesCassoId(lines, cassoId) <==> UsesCassoId(lines[1..], cassoId) by {
        if UsesCassoId(lines, cassoId) {
          var i :| 0 <= i < |lines| && lines[i].cassoId == Some(cassoId);
          assert lines[1..][i - 1] == lines[i];
        }
        if UsesCassoId(lines[1..], cassoId) {
          var i :| 0 <= i < |lines| - 1 && lines[1..][i].cassoId == Some(cassoId);
          assert lines[i + 1] == lines[1..][i];
        }
      }
      r
  }

  /** The line `create(vals)` stores, lines 81-97. */
  function NewLine(p: Prepared, amount: real, id: nat, env: Env): StatementLine {
    var repr := env.reprContainer;
    StatementLine(
      id, p.journalId, p.date,
      Str(Or(p.description, Or(p.reference, JStr(p.cassoId))), repr),
      amount, Some(Casso),
      if Truthy(p.reference) then CharValue(p.reference, repr) else None,
      Some(p.cassoId), Some(p.identifier),
      CharValue(p.bankAbbreviation, repr), CharValue(p.bankName, repr),
      CharValue(p.counterAccount, repr), CharValue(p.virtualAccount, repr),
      CharValue(p.accountNumber, repr), CharValue(p.subAccount, repr))
  }

  datatype Processed = Processed(line: StatementLine, created: bool)
  datatype Outcome = Outcome(result: Result<Processed>, lines: seq<StatementLine>)

  /** `process_casso_payload` on a store `lines` whose next record id is `nextId`. */
  function Process(lines: seq<StatementLine>, nextId: nat, tx: map<string, Json>, env: Env): (o: Outcome)
    ensures o.result.Err? ==> o.lines == lines
    ensures o.result.Ok? && !o.result.value.created ==> o.lines == lines && o.result.value.line in lines
    ensures o.result.Ok? && o.result.value.created ==> o.lines == lines + [o.result.value.line]
  {
    ProcessPrepared(lines, nextId, Prepare(tx, env), env)
  }

  /** Lines 72-99, once the payload fields are read. */
  function ProcessPrepared(lines: seq<StatementLine>, nextId: nat, prepared: Result<Prepared>, env: Env): (o: Outcome)
    ensures o.result.Err? ==> o.lines == lines
    ensures o.result.Ok? && !o.result.value.created ==> o.lines == lines && o.result.value.line in lines
    ensures o.result.Ok? && o.result.value.created ==> o.lines == lines + [o.result.value.line]
  {
    match prepared
    case Err(e) => Outcome(Err(e), lines)
    case Ok(p) =>
      match FindLine(lines, p.cassoId)
      case Some(l) => Outcome(Ok(Processed(l, false)), lines)
      case None =>
        match FloatOf(p.amount, env.parseFloat)
        case None => Outcome(Err(MsgBadFloat), lines)
        case Some(a) =>
          var line := NewLine(p, a, nextId, env);
          Outcome(Ok(Processed(line, true)), lines + [line])
  }

  /** The store never holds two lines with one Casso id. */
  lemma ProcessKeepsUnique(lines: seq<StatementLine>, nextId: nat, tx: map<string, Json>, env: Env)
    requires UniqueCassoIds(lines)
    ensures UniqueCassoIds(Process(lines, nextId, tx, env).lines)
  {
    var o := Process(lines, nextId, tx, env);
    if o.result.Ok? && o.result.value.created {
      var p := Prepare(tx, env).value;
      assert FindLine(lines, p.cassoId).None?;
      InsertKeepsUnique(lines, o.result.value.line);
    }
  }

  /** Appending the line numbered `nextId` keeps every id below the next one. */
  lemma AppendBelowNext(lines: seq<StatementLine>, nextId: nat, line: StatementLine)
    requires forall i :: 0 <= i < |lines| ==> lines[i].id < nextId
    requires line.id == nextId
    ensures forall i :: 0 <= i < |lines + [line]| ==> (lines + [line])[i].id < nextId + 1
  {
    forall i | 0 <= i < |lines + [line]|
      ensures (lines + [line])[i].id < nextId + 1
    {
      if i < |lines| {
        assert (lines + [line])[i] == lines[i];
      }
    }
  }

  /** A created line carries the Casso id, the `casso` source, `payment_ref` =
      description, else reference, else the Casso id, and `x_tw_tid` = reference or unset. */
  lemma CreatedLineFields(lines: seq<StatementLine>, nextId: nat, tx: map<string, Json>, env: Env)
    requires Process(lines, nextId, tx, env).result.Ok?
    requires Process(lines, nextId, tx, env).result.value.created
    ensures var l := Process(lines, nextId, tx, env).result.value.line;
      var repr := env.reprContainer;
      var cid := Str(Get(tx, "id"), repr);
      var desc := Get(tx, "description");
      var ref := Get(tx, "reference");
      l.id == nextId && l.source == Some(Casso) && l.cassoId == Some(cid)
      && !UsesCassoId(lines, cid)
      && l.paymentRef == (if Truthy(desc) then Str(desc, repr) else if Truthy(ref) then Str(ref, repr) else cid)
      && l.tid == (if Truthy(ref) then CharValue(ref, repr) else None)
      && JournalFor(l.accountIdentifier.value, env) == Ok(l.journalId)
  {
    var pr := Prepare(tx, env);
    assert Process(lines, nextId, tx, env) == ProcessPrepared(lines, nextId, pr, env);
    var p := pr.value;
    assert FindLine(lines, p.cassoId).None?;
    var a := FloatOf(p.amount, env.parseFloat).value;
    assert Process(lines, nextId, tx, env).result.value.line == NewLine(p, a, nextId, env);
  }

  /** A payload whose Casso id is already stored returns that line, not created,
      once the journal resolves; the journal is resolved first, so a resolution
      error wins over the existing line. */
  lemma ExistingLineReturned(lines: seq<StatementLine>, nextId: nat, tx: map<string, Json>, env: Env, l: StatementLine)
    requires UniqueCassoIds(lines) && l in lines
    requires Get(tx, "id") != JNull && l.cassoId == Some(Str(Get(tx, "id"), env.reprContainer))
    ensures Prepare(tx, env).Ok? ==> Process(lines, nextId, tx, env) == Outcome(Ok(Processed(l, false)), lines)
    ensures Prepare(tx, env).Err? ==> Process(lines, nextId, tx, env) == Outcome(Err(Prepare(tx, env).error), lines)
  {
    if Prepare(tx, env).Ok? {
      var cid := Prepare(tx, env).value.cassoId;
      var f := FindLine(lines, cid);
      assert UsesCassoId(lines, cid) by {
        var i :| 0 <= i < |lines| && lines[i] == l;
      }
      var i :| 0 <= i < |lines| && lines[i] == f.value;
      var k :| 0 <= k < |lines| && lines[k] == l;
      SameCassoIdSameIndex(lines, i, k);
    }
  }

  lemma SameCassoIdSameIndex(lines: seq<StatementLine>, i: nat, k: nat)
    requires UniqueCassoIds(lines) && i < |lines| && k < |lines|
    requires lines[i].cassoId.Some? && lines[i].cassoId == lines[k].cassoId
    ensures i == k
  {
  }

  /** Processing the same payload twice creates one line: `True`, then the same line with `False`. */
  lemma ProcessTwice(lines: seq<StatementLine>, nextId: nat, tx: map<string, Json>, env: Env)
    requires UniqueCassoIds(lines)
    requires Process(lines, nextId, tx, env).result.Ok?
    ensures var first := Process(lines, nextId, tx, env);
      var second := Process(first.lines, nextId + 1, tx, env);
      second.result.Ok? && !second.result.value.created
      && second.result.value.line == first.result.value.line && second.lines == first.lines
  {
    var first := Process(lines, nextId, tx, env);
    ProcessKeepsUnique(lines, nextId, tx, env);
    var l := first.result.value.line;
    var cid := Prepare(tx, env).value.cassoId;
    assert l.cassoId == Some(cid);
    assert l in first.lines;
    ExistingLineReturned(first.lines, nextId + 1, tx, env, l);
  }

  /** A missing id is reported before anything else is looked at. */
  lemma MissingIdFirst(lines: seq<StatementLine>, nextId: nat, tx: map<string, Json>, env: Env)
    requires Get(tx, "id") == JNull
    ensures Process(lines, nextId, tx, env) == Outcome(Err(MsgMissingId), lines)
  {
  }

  /** The in-place store used by the service. */
  class StatementLineStore {
    var lines: seq<StatementLine>
    var nextId: nat

    ghost predicate Valid()
      reads this
    {
      UniqueCassoIds(lines) && forall i :: 0 <= i < |lines| ==> lines[i].id < nextId
    }

    constructor ()
      ensures Valid() && lines == [] && nextId == 1
    {
      lines := [];
      nextId := 1;
    }

    /** The existence search of lines 74-76. */
    method FindByCassoId(cassoId: string) returns (r: Option<StatementLine>)
      ensures r == FindLine(lines, cassoId)
    {
      var i := 0;
      while i < |lines|
        invariant 0 <= i <= |lines|
        invariant FindLine(lines, cassoId) == FindLine(lines[i..], cassoId)
      {
        if lines[i].cassoId == Some(cassoId) {
          return Some(lines[i]);
        }
        assert lines[i..][1..] == lines[i + 1..];
        i := i + 1;
      }
      return None;
    }

    /** `process_casso_payload`: preserves the store invariant and grows the store
        by at most the one line it reports as created. */
    method ProcessCassoPayload(tx: map<string, Json>, env: Env) returns (r: Result<Processed>)
      requires Valid()
      modifies this
      ensures Valid()
      ensures var o := Process(old(lines), old(nextId), tx, env);
        r == o.result && lines == o.lines
      ensures nextId == if r.Ok? && r.value.created then old(nextId) + 1 else old(nextId)
    {
      ghost var o := Process(lines, nextId, tx, env);
      var p := Prepare(tx, env);
      assert o == ProcessPrepared(lines, nextId, p, env);
      if p.Err? {
        assert o == Outcome(Err(p.error), lines);
        return Err(p.error);
      }
      var existing := FindByCassoId(p.value.cassoId);
      if existing.Some? {
        assert o == Outcome(Ok(Processed(existing.value, false)), lines);
        return Ok(Processed(existing.value, false));
      }
      var amount := FloatOf(p.value.amount, env.parseFloat);
      if amount.None? {
        assert o == Outcome(Err(MsgBadFloat), lines);
        return Err(MsgBadFloat);
      }
      var line := NewLine(p.value, amount.value, nextId, env);
      assert o == Outcome(Ok(Processed(line, true)), lines + [line]);
      ProcessKeepsUnique(lines, nextId, tx, env);
      AppendBelowNext(lines, nextId, line);
      lines := lines + [line];
      nextId := nextId + 1;
      r := Ok(Processed(line, true));
    }
  }
}
