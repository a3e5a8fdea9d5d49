// `res.partner.relation`: directed relations between contacts, each meant to
// have a reverse ("mirror") row that create, write and unlink try to maintain.
module PartnerRelation {
  import opened Wrappers

  datatype RelationType = Friend | Family

  /** One row: `partner_id` is related to `related_partner_id`. */
  datatype Relation = Relation(id: nat, partner: nat, related: nat, kind: RelationType)

  /** The values of one `create` entry; an omitted `relation_type` defaults to friend. */
  datatype NewRelation = NewRelation(partner: nat, related: nat, kind: Option<RelationType>)

  /** The keys a `write` sets; `None` for a key that is not in the values. */
  datatype Changes = Changes(partner: Option<nat>, related: Option<nat>, kind: Option<RelationType>)

  datatype Table = Table(rows: seq<Relation>, nextId: nat)

  const MsgSelf := "A contact cannot be related to itself."
  const MsgUnique := "This related contact already exists for this contact."
  /** The first line of the ORM's `MissingError` for a deleted record. */
  const MsgMissing := "Record does not exist or has been deleted."

  // ----- constraints and invariants -----

  function Pair(r: Relation): (nat, nat) { (r.partner, r.related) }

  function Rev(p: (nat, nat)): (nat, nat) { (p.1, p.0) }

  function PairSet(rows: seq<Relation>): set<(nat, nat)> {
    set i | 0 <= i < |rows| :: Pair(rows[i])
  }

  /** `_check_not_self`. */
  predicate NoSelf(rows: seq<Relation>) {
    forall i :: 0 <= i < |rows| ==> rows[i].partner != rows[i].related
  }

  /** `unique(partner_id, related_partner_id)`. */
  predicate UniquePairs(rows: seq<Relation>) {
    forall i, j :: 0 <= i < j < |rows| ==> Pair(rows[i]) != Pair(rows[j])
  }

  predicate Constraints(rows: seq<Relation>) { NoSelf(rows) && UniquePairs(rows) }

  /** Record ids are distinct and below the next id to hand out. */
  predicate IdsFresh(t: Table) {
    (forall i :: 0 <= i < |t.rows| ==> t.rows[i].id < t.nextId)
    && (forall i, j :: 0 <= i < j < |t.rows| ==> t.rows[i].id != t.rows[j].id)
  }

  predicate ValidTable(t: Table) { Constraints(t.rows) && IdsFresh(t) }

  /** Every relation has its reverse. */
  predicate Symmetric(rows: seq<Relation>) {
    forall p :: p in PairSet(rows) ==> Rev(p) in PairSet(rows)
  }

  // ----- lookups -----

  /** `search(rec._mirror_domain(), limit=1)` for the pair (p, q): the first row. */
  function Find(rows: seq<Relation>, p: nat, q: nat): (r: Option<nat>)
    ensures r.Some? ==> (r.value < |rows| && Pair(rows[r.value]) == (p, q)
      && forall i :: 0 <= i < r.value ==> Pair(rows[i]) != (p, q))
    ensures r.None? <==> (p, q) !in PairSet(rows)
  {
    if rows == [] then None
    else if Pair(rows[0]) == (p, q) then Some(0)
    else
      var r := Find(rows[1..], p, q);
      assert forall i :: 0 < i < |rows| ==> rows[i] == rows[1..][i - 1];
      assert PairSet(rows) == {Pair(rows[0])} + PairSet(rows[1..]) by {
        forall x | x in PairSet(rows) ensures x in {Pair(rows[0])} + PairSet(rows[1..]) {
          var i :| 0 <= i < |rows| && Pair(rows[i]) == x;
          if i > 0 { assert Pair(rows[1..][i - 1]) == x; }
        }
      }
      if r.None? then None else Some(r.value + 1)
  }

  /** The index of the record with a given id. */
  function FindId(rows: seq<Relation>, id: nat): (r: Option<nat>)
    ensures r.Some? ==> r.value < |rows| && rows[r.value].id == id
    ensures r.None? ==> forall i :: 0 <= i < |rows| ==> rows[i].id != id
  {
    if rows == [] then None
    else if rows[0].id == id then Some(0)
    else
      var r := FindId(rows[1..], id);
      if r.None? then None else Some(r.value + 1)
  }

  // ----- pair-set algebra -----

  lemma PairSetAppend(rows: seq<Relation>, x: Relation)
    ensures PairSet(rows + [x]) == PairSet(rows) + {Pair(x)}
  {
    var s := rows + [x];
    forall p | p in PairSet(s) ensures p in PairSet(rows) + {Pair(x)} {
      var i :| 0 <= i < |s| && Pair(s[i]) == p;
      if i < |rows| { assert s[i] == rows[i]; }
    }
    forall p | p in PairSet(rows) ensures p in PairSet(s) {
      var i :| 0 <= i < |rows| && Pair(rows[i]) == p;
      assert s[i] == rows[i];
    }
    assert s[|rows|] == x;
  }

  lemma PairSetConcat(a: seq<Relation>, b: seq<Relation>)
    ensures PairSet(a + b) == PairSet(a) + PairSet(b)
  {
    var s := a + b;
    forall p | p in PairSet(s) ensures p in PairSet(a) + PairSet(b) {
      var i :| 0 <= i < |s| && Pair(s[i]) == p;
      if i < |a| { assert s[i] == a[i]; } else { assert s[i] == b[i - |a|]; }
    }
    forall p | p in PairSet(a) ensures p in PairSet(s) {
      var i :| 0 <= i < |a| && Pair(a[i]) == p;
      assert s[i] == a[i];
    }
    forall p | p in PairSet(b) ensures p in PairSet(s) {
      var i :| 0 <= i < |b| && Pair(b[i]) == p;
      assert s[|a| + i] == b[i];
    }
  }

  /** Replacing the row at k, whose pair occurs nowhere else, swaps one pair for another. */
  lemma PairSetUpdate(rows: seq<Relation>, k: nat, x: Relation)
    requires k < |rows| && UniquePairs(rows)
    ensures PairSet(rows[k := x]) == PairSet(rows) - {Pair(rows[k])} + {Pair(x)}
  {
    var s := rows[k := x];
    forall p | p in PairSet(s) ensures p in PairSet(rows) - {Pair(rows[k])} + {Pair(x)} {
      var i :| 0 <= i < |s| && Pair(s[i]) == p;
      if i != k {
        assert s[i] == rows[i];
        assert Pair(rows[i]) != Pair(rows[k]);
      }
    }
    forall p | p in PairSet(rows) - {Pair(rows[k])} ensures p in PairSet(s) {
      var i :| 0 <= i < |rows| && Pair(rows[i]) == p;
      assert i != k && s[i] == rows[i];
    }
    assert s[k] == x;
  }

  /** Rows whose pairs are kept at every index have the same pair set. */
  lemma PairSetSamePairs(a: seq<Relation>, b: seq<Relation>)
    requires |a| == |b| && forall i :: 0 <= i < |a| ==> Pair(a[i]) == Pair(b[i])
    ensures PairSet(a) == PairSet(b)
  {
    forall p | p in PairSet(a) ensures p in PairSet(b) {
      var i :| 0 <= i < |a| && Pair(a[i]) == p;
      assert Pair(b[i]) == p;
    }
    forall p | p in PairSet(b) ensures p in PairSet(a) {
      var i :| 0 <= i < |b| && Pair(b[i]) == p;
      assert Pair(a[i]) == p;
    }
  }

  function Reverses(pairs: set<(nat, nat)>): set<(nat, nat)> {
    set p | p in pairs :: Rev(p)
  }

  lemma ReversesAdd(a: set<(nat, nat)>, p: (nat, nat))
    ensures Reverses(a + {p}) == Reverses(a) + {Rev(p)}
  {
  }

  /** A symmetric set stays symmetric when a set and all its reverses are added. */
  lemma SymmetricUnion(s: set<(nat, nat)>, a: set<(nat, nat)>)
    requires forall p :: p in s ==> Rev(p) in s
    ensures forall p :: p in s + a + Reverses(a) ==> Rev(p) in s + a + Reverses(a)
  {
    forall p | p in s + a + Reverses(a) ensures Rev(p) in s + a + Reverses(a) {
      if p in Reverses(a) {
        var q :| q in a && Rev(q) == p;
        assert Rev(p) == q;
      } else if p in a {
        assert Rev(p) in Reverses(a);
      }
    }
  }

  // ----- create -----

  function KindOf(v: NewRelation): RelationType { v.kind.GetOr(Friend) }

  /** The rows `super().create(vals_list)` inserts, numbered from `nextId`. */
  function Batch(nextId: nat, vals: seq<NewRelation>): (added: seq<Relation>)
    ensures |added| == |vals|
    ensures forall i :: 0 <= i < |vals| ==>
      added[i] == Relation(nextId + i, vals[i].partner, vals[i].related, KindOf(vals[i]))
  {
    seq(|vals|, i requires 0 <= i < |vals| => Relation(nextId + i, vals[i].partner, vals[i].related, KindOf(vals[i])))
  }

  /** The mirror loop of `create`: a reverse row for each record that has none,
      carrying the record's type, itself created without mirroring. */
  function Mirrors(t: Table, recs: seq<Relation>): (r: Table)
    ensures |t.rows| <= |r.rows| && r.rows[..|t.rows|] == t.rows && t.nextId <= r.nextId
    ensures r.nextId - t.nextId == |r.rows| - |t.rows|
    ensures forall i :: |t.rows| <= i < |r.rows| ==> r.rows[i].id == t.nextId + (i - |t.rows|)
  {
    if recs == [] then t
    else
      var m := Mirrors(t, recs[..|recs| - 1]);
      var rec := recs[|recs| - 1];
      if Find(m.rows, rec.related, rec.partner).Some? then m
      else Table(m.rows + [Relation(m.nextId, rec.related, rec.partner, rec.kind)], m.nextId + 1)
  }

  /** Lines 54-67: insert the batch (the unique constraint first, then `_check_not_self`),
      then, unless `_skip_mirror` is set, add the missing mirrors. */
  function TableCreate(t: Table, vals: seq<NewRelation>, skipMirror: bool): (r: Result<Table>)
    ensures r.Ok? ==> (|t.rows| + |vals| <= |r.value.rows|
                       && r.value.rows[..|t.rows| + |vals|] == t.rows + Batch(t.nextId, vals))
    ensures r.Ok? && skipMirror ==> |r.value.rows| == |t.rows| + |vals|
  {
    var added := Batch(t.nextId, vals);
    if !UniquePairs(t.rows + added) then Err(MsgUnique)
    else if !NoSelf(added) then Err(MsgSelf)
    else
      var t1 := Table(t.rows + added, t.nextId + |vals|);
      Ok(if skipMirror then t1 else Mirrors(t1, added))
  }

  /** Mirrors add exactly the reverses that were missing. */
  lemma {:induction false} MirrorsPairs(t: Table, recs: seq<Relation>)
    ensures PairSet(Mirrors(t, recs).rows) == PairSet(t.rows) + Reverses(PairSet(recs))
  {
    if recs == [] {
    } else {
      var init := recs[..|recs| - 1];
      var m := Mirrors(t, init);
      var rec := recs[|recs| - 1];
      MirrorsPairs(t, init);
      assert recs == init + [rec];
      PairSetAppend(init, rec);
      ReversesAdd(PairSet(init), Pair(rec));
      if Find(m.rows, rec.related, rec.partner).None? {
        PairSetAppend(m.rows, Relation(m.nextId, rec.related, rec.partner, rec.kind));
      } else {
        assert Rev(Pair(rec)) in PairSet(m.rows);
      }
    }
  }

  /** Mirrors never duplicate a pair and are never self-relations. */
  lemma {:induction false} MirrorsConstraints(t: Table, recs: seq<Relation>)
    requires Constraints(t.rows) && NoSelf(recs)
    ensures Constraints(Mirrors(t, recs).rows)
  {
    if recs != [] {
      var init := recs[..|recs| - 1];
      var m := Mirrors(t, init);
      var rec := recs[|recs| - 1];
      assert NoSelf(init) by { assert forall i :: 0 <= i < |init| ==> init[i] == recs[i]; }
      MirrorsConstraints(t, init);
      if Find(m.rows, rec.related, rec.partner).None? {
        var x := Relation(m.nextId, rec.related, rec.partner, rec.kind);
        var s := m.rows + [x];
        forall i, j | 0 <= i < j < |s| ensures Pair(s[i]) != Pair(s[j]) {
          if j == |m.rows| {
            assert Pair(s[i]) in PairSet(m.rows) by { assert s[i] == m.rows[i]; }
          } else {
            assert s[i] == m.rows[i] && s[j] == m.rows[j];
          }
        }
      }
    }
  }

  lemma {:induction false} MirrorsIds(t: Table, recs: seq<Relation>)
    requires IdsFresh(t)
    ensures IdsFresh(Mirrors(t, recs))
  {
    var r := Mirrors(t, recs);
    forall i | 0 <= i < |r.rows| ensures r.rows[i].id < r.nextId {
      if i < |t.rows| { assert r.rows[i] == r.rows[..|t.rows|][i]; }
    }
    forall i, j | 0 <= i < j < |r.rows| ensures r.rows[i].id != r.rows[j].id {
      if j < |t.rows| {
        assert r.rows[i] == t.rows[i] && r.rows[j] == t.rows[j] by { assert r.rows[..|t.rows|] == t.rows; }
      } else if i < |t.rows| {
        assert r.rows[i] == t.rows[i] by { assert r.rows[..|t.rows|] == t.rows; }
      }
    }
  }

  lemma BatchFacts(t: Table, vals: seq<NewRelation>)
    requires IdsFresh(t)
    ensures IdsFresh(Table(t.rows + Batch(t.nextId, vals), t.nextId + |vals|))
  {
    var added := Batch(t.nextId, vals);
    var s := t.rows + added;
    forall i | 0 <= i < |s| ensures s[i].id < t.nextId + |vals| {
      if i >= |t.rows| { assert s[i] == added[i - |t.rows|]; } else { assert s[i] == t.rows[i]; }
    }
    forall i, j | 0 <= i < j < |s| ensures s[i].id != s[j].id {
      if j >= |t.rows| {
        assert s[j] == added[j - |t.rows|];
        if i >= |t.rows| { assert s[i] == added[i - |t.rows|]; } else { assert s[i] == t.rows[i]; }
      } else {
        assert s[i] == t.rows[i] && s[j] == t.rows[j];
      }
    }
  }

  lemma NoSelfConcat(a: seq<Relation>, b: seq<Relation>)
    requires NoSelf(a) && NoSelf(b)
    ensures NoSelf(a + b)
  {
    forall i | 0 <= i < |a + b| ensures (a + b)[i].partner != (a + b)[i].related {
      if i < |a| { assert (a + b)[i] == a[i]; } else { assert (a + b)[i] == b[i - |a|]; }
    }
  }

  /** `create` keeps the constraints; it fails exactly when the batch breaks one,
      and then with the unique-pair error before the self-relation error. */
  lemma CreateValid(t: Table, vals: seq<NewRelation>, skipMirror: bool)
    requires ValidTable(t)
    ensures TableCreate(t, vals, skipMirror).Ok? ==> ValidTable(TableCreate(t, vals, skipMirror).value)
    ensures TableCreate(t, vals, skipMirror).Err? <==>
      !UniquePairs(t.rows + Batch(t.nextId, vals)) || !NoSelf(Batch(t.nextId, vals))
  {
    var added := Batch(t.nextId, vals);
    if UniquePairs(t.rows + added) && NoSelf(added) {
      var t1 := Table(t.rows + added, t.nextId + |vals|);
      BatchFacts(t, vals);
      NoSelfConcat(t.rows, added);
      if !skipMirror {
        MirrorsConstraints(t1, added);
        MirrorsIds(t1, added);
      }
    }
  }

  /** The outcome of a batch that passes both checks. */
  lemma CreateOk(t: Table, vals: seq<NewRelation>, skipMirror: bool, t1: Table)
    requires ValidTable(t)
    requires UniquePairs(t.rows + Batch(t.nextId, vals)) && NoSelf(Batch(t.nextId, vals))
    requires t1 == Table(t.rows + Batch(t.nextId, vals), t.nextId + |vals|)
    ensures TableCreate(t, vals, skipMirror) == Ok(if skipMirror then t1 else Mirrors(t1, Batch(t.nextId, vals)))
    ensures ValidTable(if skipMirror then t1 else Mirrors(t1, Batch(t.nextId, vals)))
  {
    CreateValid(t, vals, skipMirror);
  }

  lemma CreatePairs(t: Table, vals: seq<NewRelation>)
    requires TableCreate(t, vals, false).Ok?
    ensures var added := Batch(t.nextId, vals);
      PairSet(TableCreate(t, vals, false).value.rows) == PairSet(t.rows) + PairSet(added) + Reverses(PairSet(added))
  {
    var added := Batch(t.nextId, vals);
    var t1 := Table(t.rows + added, t.nextId + |vals|);
    CreateMirrored(t, vals);
    MirrorsPairs(t1, added);
    PairSetConcat(t.rows, added);
  }

  /** A successful mirrored create is the batch followed by its mirrors. */
  lemma CreateMirrored(t: Table, vals: seq<NewRelation>)
    requires TableCreate(t, vals, false).Ok?
    ensures TableCreate(t, vals, false).value
      == Mirrors(Table(t.rows + Batch(t.nextId, vals), t.nextId + |vals|), Batch(t.nextId, vals))
  {
  }

  /** After a mirrored `create` every relation has its reverse, if it did before. */
  lemma CreateSymmetric(t: Table, vals: seq<NewRelation>)
    requires Symmetric(t.rows) && TableCreate(t, vals, false).Ok?
    ensures Symmetric(TableCreate(t, vals, false).value.rows)
  {
    CreatePairs(t, vals);
    SymmetricUnion(PairSet(t.rows), PairSet(Batch(t.nextId, vals)));
  }

  /** Each created relation b->a gets a reverse a->b. */
  lemma CreateMirrors(t: Table, vals: seq<NewRelation>, i: nat)
    requires TableCreate(t, vals, false).Ok? && i < |vals|
    ensures (vals[i].related, vals[i].partner) in PairSet(TableCreate(t, vals, false).value.rows)
  {
    var added := Batch(t.nextId, vals);
    CreatePairs(t, vals);
    assert Pair(added[i]) in PairSet(added);
    assert Rev(Pair(added[i])) == (vals[i].related, vals[i].partner);
  }

  /** With `_skip_mirror` only the batch itself is inserted. */
  lemma CreateSkipMirror(t: Table, vals: seq<NewRelation>)
    requires TableCreate(t, vals, true).Ok?
    ensures TableCreate(t, vals, true).value == Table(t.rows + Batch(t.nextId, vals), t.nextId + |vals|)
  {
  }

  // ----- write -----

  predicate TouchesEndpoints(c: Changes) { c.partner.Some? || c.related.Some? }
  predicate Touches(c: Changes) { TouchesEndpoints(c) || c.kind.Some? }

  function Apply(r: Relation, c: Changes): (x: Relation)
    ensures x.id == r.id
    ensures c == Changes(None, None, None) ==> x == r
  {
    Relation(r.id, c.partner.GetOr(r.partner), c.related.GetOr(r.related), c.kind.GetOr(r.kind))
  }

  /** `super().write(vals)` on the records with the given ids. */
  function ApplyAll(rows: seq<Relation>, ids: seq<nat>, c: Changes): (r: seq<Relation>)
    ensures |r| == |rows|
    ensures forall i :: 0 <= i < |rows| ==> r[i] == if rows[i].id in ids then Apply(rows[i], c) else rows[i]
  {
    seq(|rows|, i requires 0 <= i < |rows| => if rows[i].id in ids then Apply(rows[i], c) else rows[i])
  }

  /** The mirror row after lines 75-85: type synced when it was written, endpoints
      pointed back at the record when they were written. */
  function Realign(mirror: Relation, rec: Relation, c: Changes): Relation {
    Relation(mirror.id,
             if TouchesEndpoints(c) then rec.related else mirror.partner,
             if TouchesEndpoints(c) then rec.partner else mirror.related,
             if c.kind.Some? then rec.kind else mirror.kind)
  }

  /** Lines 72-92 for one record: look the mirror up by the record's current
      endpoints; realign it, or create it when there is none. */
  function SyncOne(t: Table, id: nat, c: Changes): (r: Table)
    ensures |t.rows| <= |r.rows| && t.nextId <= r.nextId
  {
    match FindId(t.rows, id)
    case None => t
    case Some(k) =>
      var rec := t.rows[k];
      match Find(t.rows, rec.related, rec.partner)
      case Some(m) => Table(t.rows[m := Realign(t.rows[m], rec, c)], t.nextId)
      case None => Table(t.rows + [Relation(t.nextId, rec.related, rec.partner, rec.kind)], t.nextId + 1)
  }

  function Sync(t: Table, ids: seq<nat>, c: Changes): (r: Table)
    ensures |t.rows| <= |r.rows| && t.nextId <= r.nextId
  {
    if ids == [] then t else SyncOne(Sync(t, ids[..|ids| - 1], c), ids[|ids| - 1], c)
  }

  /** Lines 69-93 as written: apply the values, check the constraints, then fix
      the mirrors of the written records, found by their new endpoints.
      `_check_not_self` runs inside `super().write`, before the updated rows
      reach the unique index, so a write breaking both fails as a self-relation. */
  function TableWrite(t: Table, ids: seq<nat>, c: Changes, skipMirror: bool): (r: Result<Table>)
    ensures r.Ok? ==> |t.rows| <= |r.value.rows| && t.nextId <= r.value.nextId
    ensures r.Ok? ==> forall i :: 0 <= i < |t.rows| ==> r.value.rows[i].id == t.rows[i].id
  {
    var rows := ApplyAll(t.rows, ids, c);
    if !NoSelf(rows) then Err(MsgSelf)
    else if !UniquePairs(rows) then Err(MsgUnique)
    else
      var t1 := Table(rows, t.nextId);
      SyncPreserves(t1, ids, c);
      Ok(if Touches(c) && !skipMirror then Sync(t1, ids, c) else t1)
  }

  /** Mirror fixing keeps every existing row's id and endpoints. */
  lemma SyncOnePreserves(t: Table, id: nat, c: Changes)
    ensures var r := SyncOne(t, id, c);
      forall i :: 0 <= i < |t.rows| ==> r.rows[i].id == t.rows[i].id && Pair(r.rows[i]) == Pair(t.rows[i])
  {
    match FindId(t.rows, id)
    case None =>
    case Some(k) =>
      var rec := t.rows[k];
      match Find(t.rows, rec.related, rec.partner)
      case Some(m) =>
      case None =>
        var r := SyncOne(t, id, c);
        assert forall i :: 0 <= i < |t.rows| ==> r.rows[i] == t.rows[i];
  }

  lemma {:induction false} SyncPreserves(t: Table, ids: seq<nat>, c: Changes)
    ensures var r := Sync(t, ids, c);
      forall i :: 0 <= i < |t.rows| ==> r.rows[i].id == t.rows[i].id && Pair(r.rows[i]) == Pair(t.rows[i])
  {
    if ids != [] {
      SyncPreserves(t, ids[..|ids| - 1], c);
      SyncOnePreserves(Sync(t, ids[..|ids| - 1], c), ids[|ids| - 1], c);
    }
  }

  lemma PairSetGrows(a: seq<Relation>, b: seq<Relation>)
    requires |a| <= |b| && forall i :: 0 <= i < |a| ==> Pair(b[i]) == Pair(a[i])
    ensures PairSet(a) <= PairSet(b)
  {
    forall p | p in PairSet(a) ensures p in PairSet(b) {
      var i :| 0 <= i < |a| && Pair(a[i]) == p;
      assert Pair(b[i]) == p;
    }
  }

  /** After the mirror step for a record, its reverse pair is present. */
  lemma SyncOneCovers(t: Table, k: nat, c: Changes)
    requires k < |t.rows| && IdsFresh(t)
    ensures Rev(Pair(t.rows[k])) in PairSet(SyncOne(t, t.rows[k].id, c).rows)
  {
    var id := t.rows[k].id;
    var j := FindId(t.rows, id).value;
    assert j == k;
    var rec := t.rows[k];
    var r := SyncOne(t, id, c);
    match Find(t.rows, rec.related, rec.partner)
    case Some(m) =>
      assert r.rows[m] == Realign(t.rows[m], rec, c);
      assert Pair(r.rows[m]) == Rev(Pair(rec));
    case None =>
      assert r.rows[|t.rows|] == Relation(t.nextId, rec.related, rec.partner, rec.kind);
  }

  lemma {:induction false} SyncCovers(t: Table, ids: seq<nat>, c: Changes)
    requires IdsFresh(t)
    ensures forall k :: 0 <= k < |t.rows| && t.rows[k].id in ids ==>
      Rev(Pair(t.rows[k])) in PairSet(Sync(t, ids, c).rows)
  {
    if ids != [] {
      var init := ids[..|ids| - 1];
      var s := Sync(t, init, c);
      SyncCovers(t, init, c);
      SyncPreserves(t, init, c);
      SyncOnePreserves(s, ids[|ids| - 1], c);
      PairSetGrows(s.rows, SyncOne(s, ids[|ids| - 1], c).rows);
      assert IdsFresh(s) by { SyncIds(t, init, c); }
      forall k | 0 <= k < |t.rows| && t.rows[k].id in ids
        ensures Rev(Pair(t.rows[k])) in PairSet(Sync(t, ids, c).rows)
      {
        if t.rows[k].id !in init {
          assert t.rows[k].id == ids[|ids| - 1];
          SyncOneCovers(s, k, c);
        }
      }
    }
  }

  lemma SyncOneIds(t: Table, id: nat, c: Changes)
    requires IdsFresh(t)
    ensures IdsFresh(SyncOne(t, id, c))
  {
    var r := SyncOne(t, id, c);
    match FindId(t.rows, id)
    case None =>
    case Some(k) =>
      var rec := t.rows[k];
      match Find(t.rows, rec.related, rec.partner)
      case Some(m) =>
        assert forall i :: 0 <= i < |t.rows| ==> r.rows[i].id == t.rows[i].id;
      case None =>
        assert forall i :: 0 <= i < |t.rows| ==> r.rows[i] == t.rows[i];
  }

  lemma {:induction false} SyncIds(t: Table, ids: seq<nat>, c: Changes)
    requires IdsFresh(t)
    ensures IdsFresh(Sync(t, ids, c))
  {
    if ids != [] {
      SyncIds(t, ids[..|ids| - 1], c);
      SyncOneIds(Sync(t, ids[..|ids| - 1], c), ids[|ids| - 1], c);
    }
  }

  /** After a mirrored write that touches endpoints or type, each written record
      (with its new endpoints) has its reverse, and keeps id and endpoints. */
  lemma WriteCovers(t: Table, ids: seq<nat>, c: Changes)
    requires IdsFresh(t) && Touches(c) && TableWrite(t, ids, c, false).Ok?
    ensures var w := ApplyAll(t.rows, ids, c);
      var r := TableWrite(t, ids, c, false).value;
      forall k :: 0 <= k < |w| && w[k].id in ids ==>
        r.rows[k].id == w[k].id && Pair(r.rows[k]) == Pair(w[k]) && Rev(Pair(w[k])) in PairSet(r.rows)
  {
    var t1 := Table(ApplyAll(t.rows, ids, c), t.nextId);
    SyncCovers(t1, ids, c);
    SyncPreserves(t1, ids, c);
  }

  /** A write of none of the three keys changes nothing. */
  lemma WriteNothing(t: Table, ids: seq<nat>, skipMirror: bool)
    requires Constraints(t.rows)
    ensures TableWrite(t, ids, Changes(None, None, None), skipMirror) == Ok(t)
  {
    assert ApplyAll(t.rows, ids, Changes(None, None, None)) == t.rows;
  }

  /** Rows 1 -> 2, 2 -> 1, 3 -> 2 and 2 -> 3. */
  function TwoPairs(): Table {
    Table([Relation(1, 1, 2, Friend), Relation(2, 2, 1, Friend), Relation(3, 3, 2, Friend), Relation(4, 2, 3, Friend)], 5)
  }

  lemma TwoPairsValid()
    ensures ValidTable(TwoPairs())
  {
    var t := TwoPairs();
    assert Pair(t.rows[0]) == (1, 2) && Pair(t.rows[1]) == (2, 1) && Pair(t.rows[2]) == (3, 2) && Pair(t.rows[3]) == (2, 3);
  }

  /** Writing partner 2 on rows 1 and 3 of `TwoPairs` makes both of them 2 -> 2,
      a self-relation twice over: the self-relation error wins over the
      duplicated pair. */
  lemma WriteSelfBeforeUnique()
    ensures var w := ApplyAll(TwoPairs().rows, [1, 3], Changes(Some(2), None, None));
      ValidTable(TwoPairs()) && !NoSelf(w) && !UniquePairs(w)
      && TableWrite(TwoPairs(), [1, 3], Changes(Some(2), None, None), false) == Err(MsgSelf)
  {
    TwoPairsValid();
    var w := ApplyAll(TwoPairs().rows, [1, 3], Changes(Some(2), None, None));
    assert w[0] == Relation(1, 2, 2, Friend);
    assert w[2] == Relation(3, 2, 2, Friend);
  }

  /** Lines 69-92 with the old mirror realigned: the mirror is looked up by the
      record's endpoints before the write, and then pointed back at its new ones. */
  function WriteRealigned(t: Table, id: nat, c: Changes): (r: Result<Table>)
    ensures r.Ok? ==> |t.rows| <= |r.value.rows| && t.nextId <= r.value.nextId
    ensures r.Ok? ==> forall i :: 0 <= i < |t.rows| ==> r.value.rows[i].id == t.rows[i].id
  {
    match FindId(t.rows, id)
    case None => Ok(t)
    case Some(k) =>
      var before := t.rows[k];
      var oldMirror := Find(t.rows, before.related, before.partner);
      var rows := t.rows[k := Apply(before, c)];
      if !NoSelf(rows) then Err(MsgSelf)
      else if !UniquePairs(rows) then Err(MsgUnique)
      else if !Touches(c) then Ok(Table(rows, t.nextId))
      else match oldMirror
        case Some(m) =>
          var rows2 := rows[m := Realign(rows[m], rows[k], Changes(Some(rows[k].partner), None, c.kind))];
          if !UniquePairs(rows2) then Err(MsgUnique) else Ok(Table(rows2, t.nextId))
        case None =>
          SyncOnePreserves(Table(rows, t.nextId), id, c);
          Ok(SyncOne(Table(rows, t.nextId), id, c))
  }

  /** The realigned write keeps the table symmetric. */
  lemma WriteRealignedSymmetric(t: Table, id: nat, c: Changes)
    requires Constraints(t.rows) && Symmetric(t.rows) && WriteRealigned(t, id, c).Ok?
    ensures Symmetric(WriteRealigned(t, id, c).value.rows)
  {
    match FindId(t.rows, id)
    case None =>
    case Some(k) =>
      var before := t.rows[k];
      var rows := t.rows[k := Apply(before, c)];
      assert Pair(before) in PairSet(t.rows);
      assert Rev(Pair(before)) in PairSet(t.rows);
      var m := Find(t.rows, before.related, before.partner).value;
      if Touches(c) {
        assert m != k;
        var x := rows[k];
        var y := Realign(rows[m], x, Changes(Some(x.partner), None, c.kind));
        var rows2 := rows[m := y];
        PairSetUpdate(t.rows, k, x);
        assert rows[m] == t.rows[m];
        PairSetUpdate(rows, m, y);
        var s := PairSet(t.rows) - {Pair(before), Rev(Pair(before))};
        assert PairSet(rows2) == s + {Pair(x)} + Reverses({Pair(x)}) by {
          assert Reverses({Pair(x)}) == {Rev(Pair(x))};
          assert Pair(y) == Rev(Pair(x));
          assert Pair(before) != Rev(Pair(before));
        }
        assert forall p :: p in s ==> Rev(p) in s by {
          forall p | p in s ensures Rev(p) in s {
            assert Rev(Rev(p)) == p;
          }
        }
        SymmetricUnion(s, {Pair(x)});
      } else {
        assert rows == t.rows;
      }
  }

  /** The example table: 1 -> 2 and its mirror 2 -> 1. */
  function Example(): Table {
    Table([Relation(1, 1, 2, Friend), Relation(2, 2, 1, Friend)], 3)
  }

  /** Pointing row 1 at contact 3. */
  const Repoint := Changes(None, Some(3), None)

  lemma ExampleValid()
    ensures ValidTable(Example()) && Symmetric(Example().rows)
  {
    var t := Example();
    assert PairSet(t.rows) == {(1, 2), (2, 1)} by {
      assert Pair(t.rows[0]) == (1, 2) && Pair(t.rows[1]) == (2, 1);
    }
  }

  /** The write as written breaks symmetry: row 1 becomes 1 -> 3 and gets a new
      mirror 3 -> 1, while row 2 keeps 2 -> 1 and nothing points 1 -> 2 any more. */
  lemma WriteLeavesOrphanMirror()
    ensures TableWrite(Example(), [1], Repoint, false)
      == Ok(Table([Relation(1, 1, 3, Friend), Relation(2, 2, 1, Friend), Relation(3, 3, 1, Friend)], 4))
    ensures !Symmetric(TableWrite(Example(), [1], Repoint, false).value.rows)
  {
    var t := Example();
    var rows := ApplyAll(t.rows, [1], Repoint);
    assert rows == [Relation(1, 1, 3, Friend), Relation(2, 2, 1, Friend)];
    assert Constraints(rows);
    var t1 := Table(rows, 3);
    assert FindId(rows, 1) == Some(0);
    assert (3, 1) !in PairSet(rows) by {
      forall i | 0 <= i < |rows| ensures Pair(rows[i]) != (3, 1) { }
    }
    var r := Table(rows + [Relation(3, 3, 1, Friend)], 4);
    assert r.rows == [Relation(1, 1, 3, Friend), Relation(2, 2, 1, Friend), Relation(3, 3, 1, Friend)];
    assert SyncOne(t1, 1, Repoint) == r;
    assert [1][..0] == [];
    assert Sync(t1, [1], Repoint) == r;
    assert Touches(Repoint);
    assert TableWrite(t, [1], Repoint, false) == Ok(Sync(t1, [1], Repoint));
    assert (2, 1) in PairSet(r.rows) by { assert Pair(r.rows[1]) == (2, 1); }
    assert (1, 2) !in PairSet(r.rows) by {
      forall i | 0 <= i < |r.rows| ensures Pair(r.rows[i]) != (1, 2) { }
    }
    assert Rev((2, 1)) == (1, 2);
  }

  /** On a table holding only a relation and its mirror, re-pointing the
      relation at a third contact re-points the mirror too. */
  lemma RealignedPair(a: Relation, b: Relation, q: nat, next: nat)
    requires a.partner != a.related && Pair(b) == Rev(Pair(a)) && q != a.partner
    ensures WriteRealigned(Table([a, b], next), a.id, Changes(None, Some(q), None))
      == Ok(Table([Relation(a.id, a.partner, q, a.kind), Relation(b.id, q, a.partner, b.kind)], next))
  {
    var rows := [a, b];
    assert FindId(rows, a.id) == Some(0);
    assert Find(rows, a.related, a.partner) == Some(1);
    var a1 := Relation(a.id, a.partner, q, a.kind);
    var b1 := Relation(b.id, q, a.partner, b.kind);
    assert rows[0 := Apply(a, Changes(None, Some(q), None))] == [a1, b];
    assert [a1, b][1 := Realign(b, a1, Changes(Some(a.partner), None, None))] == [a1, b1];
  }

  /** The realigned write on the example re-points the mirror to 3 -> 1 and
      keeps the table symmetric. */
  lemma RealignedKeepsExample()
    ensures WriteRealigned(Example(), 1, Repoint) == Ok(Table([Relation(1, 1, 3, Friend), Relation(2, 3, 1, Friend)], 3))
    ensures Symmetric(WriteRealigned(Example(), 1, Repoint).value.rows)
  {
    RealignedPair(Relation(1, 1, 2, Friend), Relation(2, 2, 1, Friend), 3, 3);
    ExampleValid();
    WriteRealignedSymmetric(Example(), 1, Repoint);
  }

  // ----- unlink -----

  /** The ids of the mirrors found, before deletion, for the given records. */
  function MirrorIds(rows: seq<Relation>, ids: seq<nat>): (r: set<nat>)
    ensures forall k :: 0 <= k < |rows| && rows[k].id in ids && HasMirror(rows, k) ==> rows[MirrorOf(rows, k)].id in r
  {
    set k | 0 <= k < |rows| && rows[k].id in ids && HasMirror(rows, k) :: rows[MirrorOf(rows, k)].id
  }

  predicate HasMirror(rows: seq<Relation>, k: nat)
    requires k < |rows|
  {
    Find(rows, rows[k].related, rows[k].partner).Some?
  }

  function MirrorOf(rows: seq<Relation>, k: nat): (m: nat)
    requires k < |rows| && HasMirror(rows, k)
    ensures m < |rows| && Pair(rows[m]) == Rev(Pair(rows[k]))
  {
    Find(rows, rows[k].related, rows[k].partner).value
  }

  function Without(rows: seq<Relation>, drop: set<nat>): (r: seq<Relation>)
    ensures forall x :: x in r <==> x in rows && x.id !in drop
    ensures |r| <= |rows|
  {
    if rows == [] then []
    else if rows[0].id in drop then Without(rows[1..], drop)
    else [rows[0]] + Without(rows[1..], drop)
  }

  /** Some record being unlinked has its mirror among the records. */
  predicate MirrorUnlinked(rows: seq<Relation>, ids: seq<nat>) {
    exists k :: 0 <= k < |rows| && rows[k].id in ids && HasMirror(rows, k) && rows[MirrorOf(rows, k)].id in ids
  }

  lemma MirrorUnlinkedIff(rows: seq<Relation>, ids: seq<nat>)
    ensures MirrorIds(rows, ids) * IdSet(ids) != {} <==> MirrorUnlinked(rows, ids)
  {
    if MirrorIds(rows, ids) * IdSet(ids) != {} {
      var x :| x in MirrorIds(rows, ids) * IdSet(ids);
      var k :| 0 <= k < |rows| && rows[k].id in ids && HasMirror(rows, k) && rows[MirrorOf(rows, k)].id == x;
    }
    if MirrorUnlinked(rows, ids) {
      var k :| 0 <= k < |rows| && rows[k].id in ids && HasMirror(rows, k) && rows[MirrorOf(rows, k)].id in ids;
      assert rows[MirrorOf(rows, k)].id in MirrorIds(rows, ids) * IdSet(ids);
    }
  }

  /** Lines 95-103 with the nested `unlink` of the mirrors honouring
      `_skip_mirror`: delete the records and the mirrors found for them. */
  function UnlinkSkipping(t: Table, ids: seq<nat>): (r: Table)
    ensures r.nextId == t.nextId
    ensures forall x :: x in r.rows <==> x in t.rows && x.id !in ids && x.id !in MirrorIds(t.rows, ids)
  {
    Table(Without(t.rows, Dropped(t, ids)), t.nextId)
  }

  /** Lines 95-103 as written. The nested `mirrors.unlink()` runs this override
      again, `_skip_mirror` or not, and its loop reads the endpoints of every
      mirror. A mirror that was itself among the records is deleted by then:
      reading it raises `MissingError` and the whole unlink is rolled back.
      Any other mirror's own mirror is a deleted record, so the nested call
      finds no further mirrors and deletes the ones it was given. */
  function TableUnlink(t: Table, ids: seq<nat>): (r: Result<Table>)
    ensures r.Err? <==> MirrorUnlinked(t.rows, ids)
    ensures r.Err? ==> r.error == MsgMissing
    ensures r.Ok? ==> r.value.nextId == t.nextId
    ensures r.Ok? ==> forall x :: x in r.value.rows <==> x in t.rows && x.id !in ids && x.id !in MirrorIds(t.rows, ids)
  {
    MirrorUnlinkedIff(t.rows, ids);
    if MirrorIds(t.rows, ids) * IdSet(ids) != {} then Err(MsgMissing) else Ok(UnlinkSkipping(t, ids))
  }

  lemma PairSetMembers(rows: seq<Relation>, p: (nat, nat))
    ensures p in PairSet(rows) <==> exists x :: x in rows && Pair(x) == p
  {
    if p in PairSet(rows) {
      var i :| 0 <= i < |rows| && Pair(rows[i]) == p;
      assert rows[i] in rows;
    }
    if exists x :: x in rows && Pair(x) == p {
      var x :| x in rows && Pair(x) == p;
      var i :| 0 <= i < |rows| && rows[i] == x;
    }
  }

  /** In a valid table the row with the reverse pair is the mirror `search` finds. */
  lemma MirrorIsUnique(rows: seq<Relation>, i: nat, m: nat)
    requires UniquePairs(rows) && i < |rows| && m < |rows| && Pair(rows[m]) == Rev(Pair(rows[i]))
    ensures HasMirror(rows, i) && MirrorOf(rows, i) == m
  {
    assert Pair(rows[m]) in PairSet(rows);
    var f := MirrorOf(rows, i);
    assert Pair(rows[f]) == Pair(rows[m]);
  }

  /** A row whose mirror is unlinked is itself among the mirrors removed. */
  lemma MirrorOfUnlinked(t: Table, ids: seq<nat>, i: nat, m: nat)
    requires ValidTable(t) && i < |t.rows| && m < |t.rows| && Pair(t.rows[m]) == Rev(Pair(t.rows[i]))
    ensures t.rows[m].id in ids ==> t.rows[i].id in MirrorIds(t.rows, ids)
  {
    MirrorIsUnique(t.rows, m, i);
  }

  /** A row removed as a mirror was removed for the row it mirrors. */
  lemma RemovedMirror(t: Table, ids: seq<nat>, i: nat, m: nat)
    requires ValidTable(t) && i < |t.rows| && m < |t.rows| && Pair(t.rows[m]) == Rev(Pair(t.rows[i]))
    ensures t.rows[m].id in MirrorIds(t.rows, ids) ==> t.rows[i].id in ids
  {
    if t.rows[m].id in MirrorIds(t.rows, ids) {
      var k :| 0 <= k < |t.rows| && t.rows[k].id in ids && HasMirror(t.rows, k) && t.rows[MirrorOf(t.rows, k)].id == t.rows[m].id;
      var f := MirrorOf(t.rows, k);
      assert f == m;
      assert Pair(t.rows[k]) == Pair(t.rows[i]);
      assert k == i;
    }
  }

  /** The ids of a recordset. */
  function IdSet(ids: seq<nat>): set<nat> { set id | id in ids }

  /** The ids `unlink` deletes: the records and the mirrors found for them. */
  function Dropped(t: Table, ids: seq<nat>): set<nat> {
    IdSet(ids) + MirrorIds(t.rows, ids)
  }

  /** A row that survives `unlink` keeps its mirror. */
  lemma KeptMirror(t: Table, ids: seq<nat>, i: nat)
    requires ValidTable(t) && Symmetric(t.rows) && i < |t.rows| && t.rows[i].id !in Dropped(t, ids)
    ensures Rev(Pair(t.rows[i])) in PairSet(UnlinkSkipping(t, ids).rows)
    ensures TableUnlink(t, ids).Ok? ==> Rev(Pair(t.rows[i])) in PairSet(TableUnlink(t, ids).value.rows)
  {
    var p := Pair(t.rows[i]);
    assert p in PairSet(t.rows);
    assert Rev(p) == (p.1, p.0) && Rev(p) in PairSet(t.rows);
    var m := Find(t.rows, p.1, p.0).value;
    MirrorOfUnlinked(t, ids, i, m);
    RemovedMirror(t, ids, i, m);
    var r := UnlinkSkipping(t, ids).rows;
    assert t.rows[m] in r;
    var j :| 0 <= j < |r| && r[j] == t.rows[m];
    assert Pair(r[j]) == Rev(p);
  }

  /** `unlink` keeps the table symmetric: the corrected one always, the one as
      written whenever it succeeds. */
  lemma UnlinkSymmetric(t: Table, ids: seq<nat>)
    requires ValidTable(t) && Symmetric(t.rows)
    ensures Symmetric(UnlinkSkipping(t, ids).rows)
    ensures TableUnlink(t, ids).Ok? ==> Symmetric(TableUnlink(t, ids).value.rows)
  {
    var r := UnlinkSkipping(t, ids).rows;
    forall p | p in PairSet(r) ensures Rev(p) in PairSet(r) {
      var j :| 0 <= j < |r| && Pair(r[j]) == p;
      assert r[j] in r;
      var i :| 0 <= i < |t.rows| && t.rows[i] == r[j];
      KeptMirror(t, ids, i);
    }
  }

  /** In the example each row is the other's mirror. */
  lemma ExampleMirrors()
    ensures HasMirror(Example().rows, 0) && MirrorOf(Example().rows, 0) == 1
    ensures HasMirror(Example().rows, 1) && MirrorOf(Example().rows, 1) == 0
  {
    var rows := Example().rows;
    assert rows[1..] == [Relation(2, 2, 1, Friend)];
    assert Find(rows[1..], 2, 1) == Some(0);
  }

  /** As written, unlinking the example relation together with its mirror fails. */
  lemma UnlinkPairFails()
    ensures TableUnlink(Example(), [1, 2]) == Err(MsgMissing)
  {
    var rows := Example().rows;
    ExampleMirrors();
    assert 0 < |rows| && rows[0].id in [1, 2] && HasMirror(rows, 0) && rows[MirrorOf(rows, 0)].id in [1, 2];
  }

  /** As written, unlinking one side of the example removes both rows. */
  lemma UnlinkOneSide()
    ensures TableUnlink(Example(), [1]) == Ok(Table([], 3))
  {
    var t := Example();
    ExampleMirrors();
    assert MirrorIds(t.rows, [1]) == {2};
    assert IdSet([1]) == {1};
    assert Dropped(t, [1]) == {1, 2};
    assert t.rows[1..] == [Relation(2, 2, 1, Friend)];
    assert Without(t.rows[1..], {1, 2}) == [];
    assert UnlinkSkipping(t, [1]) == Table([], 3);
  }

  /** The corrected unlink removes the example relation and its mirror together. */
  lemma UnlinkPairSkipping()
    ensures UnlinkSkipping(Example(), [1, 2]) == Table([], 3)
  {
  }

  lemma MirrorsStep(t: Table, recs: seq<Relation>, i: nat)
    requires i < |recs|
    ensures Mirrors(t, recs[..i + 1]) == var m := Mirrors(t, recs[..i]);
      if Find(m.rows, recs[i].related, recs[i].partner).Some? then m
      else Table(m.rows + [Relation(m.nextId, recs[i].related, recs[i].partner, recs[i].kind)], m.nextId + 1)
  {
    assert recs[..i + 1][..i] == recs[..i];
  }

  lemma SyncStep(t: Table, ids: seq<nat>, i: nat, c: Changes)
    requires i < |ids|
    ensures Sync(t, ids[..i + 1], c) == SyncOne(Sync(t, ids[..i], c), ids[i], c)
  {
    assert ids[..i + 1][..i] == ids[..i];
  }

  lemma {:induction false} SyncConstraints(t: Table, ids: seq<nat>, c: Changes)
    requires Constraints(t.rows)
    ensures Constraints(Sync(t, ids, c).rows)
  {
    if ids != [] {
      SyncConstraints(t, ids[..|ids| - 1], c);
      SyncOneConstraints(Sync(t, ids[..|ids| - 1], c), ids[|ids| - 1], c);
    }
  }

  /** `write` keeps the constraints and fresh ids; it fails exactly when the
      written values break a constraint, and then with the self-relation error
      whenever they make a self-relation, duplicated pair or not. */
  lemma WriteValid(t: Table, ids: seq<nat>, c: Changes, skipMirror: bool)
    requires ValidTable(t)
    ensures TableWrite(t, ids, c, skipMirror).Ok? ==> ValidTable(TableWrite(t, ids, c, skipMirror).value)
    ensures TableWrite(t, ids, c, skipMirror).Err? <==> !Constraints(ApplyAll(t.rows, ids, c))
    ensures TableWrite(t, ids, c, skipMirror).Err? ==>
      (TableWrite(t, ids, c, skipMirror).error == MsgSelf <==> !NoSelf(ApplyAll(t.rows, ids, c)))
  {
    var applied := ApplyAll(t.rows, ids, c);
    if Constraints(applied) {
      var t1 := Table(applied, t.nextId);
      assert IdsFresh(t1) by { assert forall i :: 0 <= i < |t.rows| ==> applied[i].id == t.rows[i].id; }
      SyncConstraints(t1, ids, c);
      SyncIds(t1, ids, c);
    }
  }

  /** The ids `create` hands out to a batch of n records. */
  function IdRange(first: nat, n: nat): (r: seq<nat>)
    ensures |r| == n && forall i :: 0 <= i < n ==> r[i] == first + i
  {
    seq(n, i => first + i)
  }

  // ----- the table as a record store -----

  class RelationTable {
    var rows: seq<Relation>
    var nextId: nat

    function State(): Table reads this { Table(rows, nextId) }

    predicate Valid() reads this { ValidTable(State()) }

    constructor ()
      ensures Valid() && rows == [] && nextId == 1
    {
      rows := [];
      nextId := 1;
    }

    /** `create(vals_list)`, with or without `_skip_mirror`. */
    method Create(vals: seq<NewRelation>, skipMirror: bool) returns (r: Result<seq<nat>>)
      requires Valid()
      modifies this
      ensures Valid()
      ensures TableCreate(old(State()), vals, skipMirror).Err? ==>
        r == Err(TableCreate(old(State()), vals, skipMirror).error) && State() == old(State())
      ensures TableCreate(old(State()), vals, skipMirror).Ok? ==>
        State() == TableCreate(old(State()), vals, skipMirror).value && r == Ok(IdRange(old(nextId), |vals|))
    {
      ghost var t0 := State();
      var added := Batch(nextId, vals);
      if !UniquePairs(rows + added) {
        assert TableCreate(t0, vals, skipMirror) == Err(MsgUnique);
        return Err(MsgUnique);
      }
      if !NoSelf(added) {
        assert TableCreate(t0, vals, skipMirror) == Err(MsgSelf);
        return Err(MsgSelf);
      }
      var t1 := Table(rows + added, nextId + |vals|);
      CreateOk(t0, vals, skipMirror, t1);
      r := Ok(IdRange(nextId, |vals|));
      rows, nextId := t1.rows, t1.nextId;
      if !skipMirror {
        AddMirrors(added, t1);
      }
    }

    /** The mirror loop of `create`: a reversed row for each record whose
        reverse is missing. */
    method AddMirrors(added: seq<Relation>, ghost t1: Table)
      requires State() == t1
      modifies this
      ensures State() == Mirrors(t1, added)
    {
      var i := 0;
      while i < |added|
        invariant 0 <= i <= |added|
        invariant State() == Mirrors(t1, added[..i])
      {
        MirrorsStep(t1, added, i);
        var rec := added[i];
        var found := Find(rows, rec.related, rec.partner);
        if found.None? {
          rows := rows + [Relation(nextId, rec.related, rec.partner, rec.kind)];
          nextId := nextId + 1;
        }
        i := i + 1;
      }
      assert added[..i] == added;
    }

    /** `write(vals)` on the records with the given ids, as written. */
    method Write(ids: seq<nat>, c: Changes, skipMirror: bool) returns (r: Result<()>)
      requires Valid()
      modifies this
      ensures Valid()
      ensures TableWrite(old(State()), ids, c, skipMirror).Err? ==>
        r == Err(TableWrite(old(State()), ids, c, skipMirror).error) && State() == old(State())
      ensures TableWrite(old(State()), ids, c, skipMirror).Ok? ==>
        r == Ok(()) && State() == TableWrite(old(State()), ids, c, skipMirror).value
    {
      WriteValid(State(), ids, c, skipMirror);
      var applied := ApplyAll(rows, ids, c);
      if !NoSelf(applied) {
        return Err(MsgSelf);
      }
      if !UniquePairs(applied) {
        return Err(MsgUnique);
      }
      ghost var t1 := Table(applied, nextId);
      rows := applied;
      r := Ok(());
      if !Touches(c) || skipMirror {
        return;
      }
      var i := 0;
      while i < |ids|
        invariant 0 <= i <= |ids|
        invariant State() == Sync(t1, ids[..i], c)
      {
        SyncStep(t1, ids, i, c);
        var k := FindId(rows, ids[i]);
        if k.Some? {
          var rec := rows[k.value];
          var m := Find(rows, rec.related, rec.partner);
          if m.Some? {
            rows := rows[m.value := Realign(rows[m.value], rec, c)];
          } else {
            rows := rows + [Relation(nextId, rec.related, rec.partner, rec.kind)];
            nextId := nextId + 1;
          }
        }
        i := i + 1;
      }
      assert ids[..i] == ids;
    }

    /** The loop of lines 97-99: the mirror `search` finds for each record. */
    method CollectMirrors(ids: seq<nat>) returns (mirrors: set<nat>)
      ensures mirrors == MirrorIds(rows, ids)
    {
      var i := 0;
      mirrors := {};
      while i < |rows|
        invariant 0 <= i <= |rows|
        invariant mirrors == MirrorIdsUpTo(rows, ids, i)
      {
        if rows[i].id in ids {
          var m := Find(rows, rows[i].related, rows[i].partner);
          if m.Some? {
            mirrors := mirrors + {rows[m.value].id};
          }
        }
        i := i + 1;
      }
      MirrorIdsAll(rows, ids);
    }

    /** `unlink()` of the records with the given ids, as written. */
    method Unlink(ids: seq<nat>) returns (r: Result<()>)
      requires Valid()
      modifies this
      ensures Valid()
      ensures TableUnlink(old(State()), ids).Err? ==> r == Err(MsgMissing) && State() == old(State())
      ensures TableUnlink(old(State()), ids).Ok? ==> r == Ok(()) && State() == TableUnlink(old(State()), ids).value
    {
      var mirrors := CollectMirrors(ids);
      UnlinkDone(State(), ids, mirrors);
      if mirrors * IdSet(ids) != {} {
        return Err(MsgMissing);
      }
      rows := Without(rows, IdSet(ids) + mirrors);
      r := Ok(());
    }
  }

  /** With the mirrors the `unlink` loop collects, the outcome is `TableUnlink`'s,
      and a successful unlink leaves the table valid. */
  lemma UnlinkDone(t: Table, ids: seq<nat>, mirrors: set<nat>)
    requires ValidTable(t) && mirrors == MirrorIds(t.rows, ids)
    ensures TableUnlink(t, ids) == if mirrors * IdSet(ids) != {} then Err(MsgMissing)
                                   else Ok(Table(Without(t.rows, IdSet(ids) + mirrors), t.nextId))
    ensures TableUnlink(t, ids).Ok? ==> ValidTable(TableUnlink(t, ids).value)
  {
    UnlinkValid(t, ids);
  }

  /** The mirrors of the records among the first n rows. */
  function MirrorIdsUpTo(rows: seq<Relation>, ids: seq<nat>, n: nat): set<nat>
    requires n <= |rows|
  {
    if n == 0 then {}
    else
      var s := MirrorIdsUpTo(rows, ids, n - 1);
      var k := n - 1;
      if rows[k].id in ids && Find(rows, rows[k].related, rows[k].partner).Some?
      then s + {rows[Find(rows, rows[k].related, rows[k].partner).value].id}
      else s
  }

  lemma {:induction false} MirrorIdsUpToMembers(rows: seq<Relation>, ids: seq<nat>, n: nat)
    requires n <= |rows|
    ensures forall x :: x in MirrorIdsUpTo(rows, ids, n) <==>
      exists k, m :: 0 <= k < n && rows[k].id in ids && Find(rows, rows[k].related, rows[k].partner) == Some(m) && rows[m].id == x
  {
    if n > 0 {
      MirrorIdsUpToMembers(rows, ids, n - 1);
    }
  }

  lemma MirrorIdsAll(rows: seq<Relation>, ids: seq<nat>)
    ensures MirrorIdsUpTo(rows, ids, |rows|) == MirrorIds(rows, ids)
  {
    MirrorIdsUpToMembers(rows, ids, |rows|);
  }

  lemma SyncOneConstraints(t: Table, id: nat, c: Changes)
    requires Constraints(t.rows)
    ensures Constraints(SyncOne(t, id, c).rows)
  {
    match FindId(t.rows, id)
    case None =>
    case Some(k) =>
      var rec := t.rows[k];
      match Find(t.rows, rec.related, rec.partner)
      case Some(m) =>
        var r := SyncOne(t, id, c);
        assert Pair(r.rows[m]) == Pair(t.rows[m]);
        PairSetSamePairs(t.rows, r.rows);
        assert forall i :: 0 <= i < |t.rows| ==> Pair(r.rows[i]) == Pair(t.rows[i]);
      case None =>
        var x := Relation(t.nextId, rec.related, rec.partner, rec.kind);
        var s := t.rows + [x];
        forall i, j | 0 <= i < j < |s| ensures Pair(s[i]) != Pair(s[j]) {
          if j == |t.rows| {
            assert Pair(s[i]) in PairSet(t.rows) by { assert s[i] == t.rows[i]; }
          } else {
            assert s[i] == t.rows[i] && s[j] == t.rows[j];
          }
        }
  }

  /** `unlink` keeps the constraints and fresh ids: the corrected one always,
      the one as written whenever it succeeds. */
  lemma UnlinkValid(t: Table, ids: seq<nat>)
    requires ValidTable(t)
    ensures ValidTable(UnlinkSkipping(t, ids))
    ensures TableUnlink(t, ids).Ok? ==> ValidTable(TableUnlink(t, ids).value)
  {
    WithoutValid(t.rows, Dropped(t, ids), t.nextId);
  }

  lemma TailValid(rows: seq<Relation>, nextId: nat)
    requires rows != [] && ValidTable(Table(rows, nextId))
    ensures ValidTable(Table(rows[1..], nextId))
    ensures forall x :: x in rows[1..] ==> Pair(x) != Pair(rows[0]) && x.id != rows[0].id
  {
    var tail := rows[1..];
    assert forall i :: 0 <= i < |tail| ==> tail[i] == rows[i + 1];
    forall x | x in tail ensures Pair(x) != Pair(rows[0]) && x.id != rows[0].id {
      var j :| 0 <= j < |tail| && tail[j] == x;
      assert rows[j + 1] == x;
    }
  }

  lemma ConsValid(x: Relation, w: seq<Relation>, nextId: nat)
    requires ValidTable(Table(w, nextId)) && x.partner != x.related && x.id < nextId
    requires forall y :: y in w ==> Pair(y) != Pair(x) && y.id != x.id
    ensures ValidTable(Table([x] + w, nextId))
  {
    var s := [x] + w;
    assert forall i :: 1 <= i < |s| ==> s[i] == w[i - 1] && s[i] in w;
  }

  lemma {:induction false} WithoutValid(rows: seq<Relation>, drop: set<nat>, nextId: nat)
    requires ValidTable(Table(rows, nextId))
    ensures ValidTable(Table(Without(rows, drop), nextId))
  {
    if rows != [] {
      TailValid(rows, nextId);
      WithoutValid(rows[1..], drop, nextId);
      if rows[0].id !in drop {
        ConsValid(rows[0], Without(rows[1..], drop), nextId);
      }
    }
  }
}
