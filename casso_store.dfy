// The bank-statement lines that carry Casso webhook metadata, and the table
// that maps an external account identifier to a bank journal.
module CassoStore {
  import opened Wrappers
  import opened DateTimes

  /** `x_tw_source` is a selection with the single value `casso`. */
  datatype Source = Casso

  /** A bank-statement line with the webhook fields added by this add-on. */
  datatype StatementLine = StatementLine(
    id: nat,
    journalId: nat,
    date: Date,
    paymentRef: string,
    amount: real,
    source: Option<Source>,
    tid: Option<string>,
    cassoId: Option<string>,
    accountIdentifier: Option<string>,
    bankAbbreviation: Option<string>,
    bankName: Option<string>,
    counterAccount: Option<string>,
    virtualAccount: Option<string>,
    accountNumber: Option<string>,
    bankSubAccId: Option<string>)

  /** `uniq_tw_casso_id`: SQL `unique` ignores NULLs, so only set ids must differ. */
  predicate UniqueCassoIds(lines: seq<StatementLine>) {
    forall i, j :: 0 <= i < j < |lines| && lines[i].cassoId.Some? ==> lines[i].cassoId != lines[j].cassoId
  }

  predicate UsesCassoId(lines: seq<StatementLine>, cassoId: string) {
    exists i :: 0 <= i < |lines| && lines[i].cassoId == Some(cassoId)
  }

  /** `create` of one line: the database refuses a second line with a Casso id in use. */
  function InsertLine(lines: seq<StatementLine>, line: StatementLine): (r: Result<seq<StatementLine>>)
    ensures r.Ok? <==> (line.cassoId.None? || !UsesCassoId(lines, line.cassoId.value))
    ensures r.Ok? ==> r.value == lines + [line]
    ensures r.Err? ==> r.error == MsgDuplicateCassoId
  {
    if line.cassoId.Some? && UsesCassoId(lines, line.cassoId.value) then Err(MsgDuplicateCassoId)
    else Ok(lines + [line])
  }

  const MsgDuplicateCassoId := "A bank statement line with this Casso ID already exists."

  lemma InsertKeepsUnique(lines: seq<StatementLine>, line: StatementLine)
    requires UniqueCassoIds(lines) && InsertLine(lines, line).Ok?
    ensures UniqueCassoIds(InsertLine(lines, line).value)
  {
    var r := lines + [line];
    forall i, j | 0 <= i < j < |r| && r[i].cassoId.Some?
      ensures r[i].cassoId != r[j].cassoId
    {
      if j == |lines| && line.cassoId.Some? {
        assert r[i] == lines[i];
      }
    }
  }

  /** `copy()` of a line: every webhook field is `copy=False`, so none is carried over. */
  function CopyLine(l: StatementLine, newId: nat): (c: StatementLine)
    ensures c.id == newId && c.journalId == l.journalId && c.date == l.date
    ensures c.paymentRef == l.paymentRef && c.amount == l.amount
    ensures c.source.None? && c.tid.None? && c.cassoId.None? && c.accountIdentifier.None?
    ensures c.bankAbbreviation.None? && c.bankName.None? && c.counterAccount.None?
    ensures c.virtualAccount.None? && c.accountNumber.None? && c.bankSubAccId.None?
  {
    StatementLine(newId, l.journalId, l.date, l.paymentRef, l.amount,
      None, None, None, None, None, None, None, None, None, None)
  }

  /** Duplicating a line never collides with the Casso id constraint. */
  lemma CopyAlwaysInsertable(lines: seq<StatementLine>, l: StatementLine, newId: nat)
    ensures InsertLine(lines, CopyLine(l, newId)) == Ok(lines + [CopyLine(l, newId)])
  {
  }

  /** `x_tw_tid` is only indexed: two lines with the same reference are a valid store. */
  lemma TidMayRepeat(a: StatementLine, b: StatementLine)
    requires a.tid == b.tid && a.cassoId.Some? && b.cassoId.Some? && a.cassoId != b.cassoId
    ensures UniqueCassoIds([a, b])
    ensures InsertLine([a], b).Ok?
  {
    assert !UsesCassoId([a], b.cassoId.value) by {
      forall i | 0 <= i < 1 ensures [a][i].cassoId != Some(b.cassoId.value) { }
    }
  }

  datatype Journal = Journal(id: nat, jtype: string, companyId: nat, bankAccountNumber: Option<string>)

  /** A `transaction.webhook.bank.map` record; `companyId` is stored from the journal. */
  datatype BankMap = BankMap(id: nat, identifier: string, journalId: nat, companyId: nat, active: bool)

  function FindJournal(journals: seq<Journal>, id: nat): (r: Option<Journal>)
    ensures r.Some? ==> r.value in journals && r.value.id == id
    ensures r.None? ==> forall j :: j in journals ==> j.id != id
  {
    if journals == [] then None
    else if journals[0].id == id then Some(journals[0])
    else FindJournal(journals[1..], id)
  }

  /** The mapping table's invariants: one mapping per (identifier, company), and
      each mapping's company is its journal's company. */
  predicate MapsValid(maps: seq<BankMap>, journals: seq<Journal>) {
    (forall i, j :: 0 <= i < j < |maps| ==>
       !(maps[i].identifier == maps[j].identifier && maps[i].companyId == maps[j].companyId))
    && (forall i :: 0 <= i < |maps| ==>
       FindJournal(journals, maps[i].journalId).Some?
       && FindJournal(journals, maps[i].journalId).value.companyId == maps[i].companyId)
  }

  /** Creating a mapping from the form: identifier and journal are required, only bank
      journals are offered, `active` defaults to True, the company is the journal's, and
      the database refuses a second mapping for the same identifier and company. */
  function AddMapping(maps: seq<BankMap>, journals: seq<Journal>, id: nat, identifier: string, journalId: nat)
    : (r: Result<seq<BankMap>>)
    ensures r.Ok? <==>
      (FindJournal(journals, journalId).Some? && FindJournal(journals, journalId).value.jtype == "bank"
       && forall m :: m in maps ==>
            !(m.identifier == identifier && m.companyId == FindJournal(journals, journalId).value.companyId))
    ensures r.Ok? ==> |r.value| == |maps| + 1 && r.value[..|maps|] == maps
    ensures r.Ok? ==> var m := r.value[|maps|];
      m.active && m.identifier == identifier && m.journalId == journalId
      && m.companyId == FindJournal(journals, journalId).value.companyId
  {
    match FindJournal(journals, journalId)
    case None => Err("Bank Journal is required")
    case Some(j) =>
      if j.jtype != "bank" then Err("Bank Journal must be of type 'bank'")
      else if exists m :: m in maps && m.identifier == identifier && m.companyId == j.companyId
      then Err("Mapping for this account identifier already exists in this company.")
      else Ok(maps + [BankMap(id, identifier, journalId, j.companyId, true)])
  }

  lemma AddMappingKeepsValid(maps: seq<BankMap>, journals: seq<Journal>, id: nat, identifier: string, journalId: nat)
    requires MapsValid(maps, journals)
    requires AddMapping(maps, journals, id, identifier, journalId).Ok?
    ensures MapsValid(AddMapping(maps, journals, id, identifier, journalId).value, journals)
  {
    var r := AddMapping(maps, journals, id, identifier, journalId).value;
    forall i, j | 0 <= i < j < |r|
      ensures !(r[i].identifier == r[j].identifier && r[i].companyId == r[j].companyId)
    {
      if j == |maps| { assert r[i] in maps; }
      else { assert r[i] == maps[i] && r[j] == maps[j]; }
    }
    forall i | 0 <= i < |r|
      ensures FindJournal(journals, r[i].journalId).Some?
      ensures FindJournal(journals, r[i].journalId).value.companyId == r[i].companyId
    {
      if i < |maps| { assert r[i] == maps[i]; }
    }
  }
}
