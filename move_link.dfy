// Vendor bills (`account.move`) linked back to the pickings they pay for:
// through `picking_id`, or through the picking names listed in
// `invoice_origin`.
module MoveLink {
  import opened Wrappers
  import Text

  /** The separators of `re.split(r"[,\n\r]+", origin)`. */
  predicate IsSep(c: char) {
    c == ',' || c == '\n' || c == '\r'
  }

  predicate NoSep(s: string) {
    forall i :: 0 <= i < |s| ==> !IsSep(s[i])
  }

  /** The length of the run of non-separators that starts `s`. */
  function RunLength(s: string): (k: nat)
    ensures k <= |s| && NoSep(s[..k])
    ensures k < |s| ==> IsSep(s[k])
  {
    if s == [] || IsSep(s[0]) then 0
    else
      var k := RunLength(s[1..]);
      assert s[..k + 1] == [s[0]] + s[1..][..k];
      k + 1
  }

  /** The non-empty pieces `re.split(r"[,\n\r]+", s)` yields, in order: the
      maximal runs without a separator. */
  function Runs(s: string): (r: seq<string>)
    ensures forall i :: 0 <= i < |r| ==> r[i] != "" && NoSep(r[i])
    decreases |s|
  {
    if s == [] then []
    else if IsSep(s[0]) then Runs(s[1..])
    else
      var k := RunLength(s);
      [s[..k]] + Runs(s[k..])
  }

  /** `[part.strip() for part in parts if part and part.strip()]`. */
  function StripAll(parts: seq<string>): (r: seq<string>)
    ensures forall i :: 0 <= i < |r| ==> r[i] != ""
    ensures forall i :: 0 <= i < |r| ==> !Text.IsSpace(r[i][0]) && !Text.IsSpace(r[i][|r[i]| - 1])
    ensures |r| <= |parts|
  {
    if parts == [] then []
    else
      var t := Text.Strip(parts[0]);
      var rest := StripAll(parts[1..]);
      if t != "" then
        ConsTrimmed(t, rest);
        [t] + rest
      else rest
  }

  /** Every entry is non-empty with no whitespace at either end. */
  predicate Trimmed(r: seq<string>) {
    forall i :: 0 <= i < |r| ==> r[i] != "" && !Text.IsSpace(r[i][0]) && !Text.IsSpace(r[i][|r[i]| - 1])
  }

  lemma ConsTrimmed(t: string, rest: seq<string>)
    requires Trimmed([t]) && Trimmed(rest)
    ensures Trimmed([t] + rest)
  {
    forall i | 0 <= i < |[t] + rest|
      ensures ([t] + rest)[i] == if i == 0 then t else rest[i - 1]
    {
    }
  }

  /** The origin tokens: pieces between runs of `,`, `\n` and `\r`, trimmed,
      blank ones dropped. */
  function Tokens(origin: string): (r: seq<string>)
    ensures forall i :: 0 <= i < |r| ==> r[i] != "" && NoSep(r[i])
    ensures forall i :: 0 <= i < |r| ==> !Text.IsSpace(r[i][0]) && !Text.IsSpace(r[i][|r[i]| - 1])
  {
    var r := StripAll(Runs(origin));
    StripAllKeepsNoSep(Runs(origin));
    r
  }

  lemma {:induction false} StripAllKeepsNoSep(parts: seq<string>)
    requires forall i :: 0 <= i < |parts| ==> NoSep(parts[i])
    ensures forall i :: 0 <= i < |StripAll(parts)| ==> NoSep(StripAll(parts)[i])
  {
    if parts != [] {
      StripAllKeepsNoSep(parts[1..]);
      var t := Text.Strip(parts[0]);
      forall c | IsSep(c) ensures c !in t {
        assert c !in parts[0];
        Text.StripKeeps(parts[0], c);
      }
    }
  }

  /** A clean token: non-empty, without separators, not padded with blanks. */
  predicate Clean(t: string) {
    t != "" && NoSep(t) && !Text.IsSpace(t[0]) && !Text.IsSpace(t[|t| - 1])
  }

  lemma {:induction false} RunsOfPiece(a: string, rest: string)
    requires a != [] && NoSep(a) && (rest == [] || IsSep(rest[0]))
    ensures Runs(a + rest) == [a] + Runs(rest)
  {
    var s := a + rest;
    RunLengthOf(a, rest);
    assert s[..|a|] == a && s[|a|..] == rest;
  }

  lemma {:induction false} RunLengthOf(a: string, rest: string)
    requires NoSep(a) && (rest == [] || IsSep(rest[0]))
    ensures RunLength(a + rest) == |a|
  {
    if a != [] {
      assert (a + rest)[1..] == a[1..] + rest;
      RunLengthOf(a[1..], rest);
    } else {
      assert a + rest == rest;
    }
  }

  /** Splitting a comma-joined list of clean names gives the names back. */
  lemma {:induction false} TokensOfJoin(names: seq<string>)
    requires forall i :: 0 <= i < |names| ==> Clean(names[i])
    ensures Tokens(Text.Join(names, ",")) == names
  {
    RunsOfJoin(names);
    StripAllClean(names);
  }

  lemma {:induction false} RunsOfJoin(names: seq<string>)
    requires forall i :: 0 <= i < |names| ==> Clean(names[i])
    ensures Runs(Text.Join(names, ",")) == names
  {
    if names == [] {
    } else if |names| == 1 {
      RunsOfPiece(names[0], "");
      assert names[0] + "" == names[0];
    } else {
      var rest := Text.Join(names[1..], ",");
      RunsOfPiece(names[0], "," + rest);
      assert Text.Join(names, ",") == names[0] + ("," + rest);
      assert ("," + rest)[1..] == rest;
      RunsOfJoin(names[1..]);
      assert names == [names[0]] + names[1..];
    }
  }

  lemma {:induction false} StripAllClean(names: seq<string>)
    requires forall i :: 0 <= i < |names| ==> Clean(names[i])
    ensures StripAll(names) == names
  {
    if names != [] {
      StripAllClean(names[1..]);
      assert names == [names[0]] + names[1..];
    }
  }

  /** Text with no separator is one token: itself, trimmed, unless blank. */
  lemma TokensWithoutSep(origin: string)
    requires NoSep(origin)
    ensures Tokens(origin) == if Text.Strip(origin) == "" then [] else [Text.Strip(origin)]
  {
    if origin != [] {
      RunsOfPiece(origin, "");
      assert origin + "" == origin;
    }
  }

  /** A vendor bill, with `invoice_origin` as text (`""` for `False`). */
  datatype Move = Move(id: nat, pickingId: Option<nat>, invoiceOrigin: string)

  datatype Picking = Picking(id: nat, name: string)

  /** `vendor_bill_ids`, the inverse of `picking_id`: the moves pointing at `p`. */
  function VendorBillIds(p: Picking, allMoves: seq<Move>): set<nat> {
    set m | m in allMoves && m.pickingId == Some(p.id) :: m.id
  }

  /** The link `has_related_picking` reports: a set `picking_id`, or an origin
      token that names a picking. */
  predicate HasRelatedPicking(m: Move, pickings: seq<Picking>) {
    m.pickingId.Some? || exists t, p :: t in Tokens(m.invoiceOrigin) && p in pickings && p.name == t
  }

  /** The move table's own facts: ids are unique, and the moves being computed are stored. */
  predicate Stored(moves: seq<Move>, allMoves: seq<Move>) {
    && (forall m :: m in moves ==> m in allMoves)
    && (forall a, b :: a in allMoves && b in allMoves && a.id == b.id ==> a == b)
  }

  /** The ids of the moves with `picking_id` set. */
  ghost predicate DirectSet(moves: seq<Move>, linked: set<nat>) {
    forall x :: x in linked <==> exists j :: 0 <= j < |moves| && moves[j].pickingId.Some? && moves[j].id == x
  }

  /** `direct` plus every bill of each picking that has a bill among `selfIds`. */
  ghost predicate LinkedSet(direct: set<nat>, pickings: seq<Picking>, allMoves: seq<Move>, selfIds: set<nat>, linked: set<nat>) {
    forall x :: x in linked <==>
      (x in direct || exists j :: 0 <= j < |pickings| && VendorBillIds(pickings[j], allMoves) * selfIds != {}
                                   && x in VendorBillIds(pickings[j], allMoves))
  }

  /** `all` holds exactly the elements of the groups. */
  ghost predicate UnionOf<T(!new)>(groups: seq<seq<T>>, all: set<T>) {
    forall t :: t in all <==> exists j :: 0 <= j < |groups| && t in groups[j]
  }

  /** The origin tokens of each move. */
  function TokenLists(moves: seq<Move>): (r: seq<seq<string>>) {
    seq(|moves|, j requires 0 <= j < |moves| => Tokens(moves[j].invoiceOrigin))
  }

  /** Every token of every move. */
  ghost predicate TokenSet(moves: seq<Move>, tokens: set<string>) {
    UnionOf(TokenLists(moves), tokens)
  }

  /** The tokens of each move with an origin, by move id. */
  ghost predicate TokenMap(moves: seq<Move>, moveTokens: map<nat, seq<string>>) {
    && (forall id :: id in moveTokens ==> exists j :: 0 <= j < |moves| && moves[j].id == id && moveTokens[id] == Tokens(moves[j].invoiceOrigin))
    && (forall j :: 0 <= j < |moves| && moves[j].invoiceOrigin != "" ==> moves[j].id in moveTokens)
  }

  /** The picking names that are among `tokens`. */
  ghost predicate NameSet(pickings: seq<Picking>, tokens: set<string>, names: set<string>) {
    forall n :: n in names <==> exists j :: 0 <= j < |pickings| && pickings[j].name == n && n in tokens
  }

  /** The ids of the moves whose own `picking_id` is set. */
  method DirectLinks(moves: seq<Move>) returns (linked: set<nat>)
    ensures DirectSet(moves, linked)
  {
    linked := {};
    var k := 0;
    while k < |moves|
      invariant 0 <= k <= |moves|
      invariant forall x :: x in linked <==> exists j :: 0 <= j < k && moves[j].pickingId.Some? && moves[j].id == x
    {
      if moves[k].pickingId.Some? {
        linked := linked + {moves[k].id};
      }
      k := k + 1;
    }
  }

  /** Adds every bill of each picking that has a bill among `selfIds`. */
  method AddBillLinks(direct: set<nat>, pickings: seq<Picking>, allMoves: seq<Move>, selfIds: set<nat>)
    returns (linked: set<nat>)
    ensures LinkedSet(direct, pickings, allMoves, selfIds, linked)
  {
    linked := direct;
    var k := 0;
    while k < |pickings|
      invariant 0 <= k <= |pickings|
      invariant forall x :: x in linked <==>
        (x in direct || exists j :: 0 <= j < k && VendorBillIds(pickings[j], allMoves) * selfIds != {}
                                     && x in VendorBillIds(pickings[j], allMoves))
    {
      var bills := VendorBillIds(pickings[k], allMoves);
      if bills * selfIds != {} {
        linked := linked + bills;
      }
      k := k + 1;
    }
  }

  /** One more group adds its elements to the union. */
  lemma UnionStep<T(!new)>(groups: seq<seq<T>>, k: nat, all: set<T>)
    requires k < |groups| && UnionOf(groups[..k], all)
    ensures UnionOf(groups[..k + 1], all + set t | t in groups[k])
  {
    var next := groups[..k + 1];
    var grown := all + set u | u in groups[k];
    forall t ensures t in grown <==> exists j :: 0 <= j < |next| && t in next[j]
    {
      if t in all {
        var j :| 0 <= j < k && t in groups[..k][j];
        assert next[j] == groups[..k][j];
      } else if t in groups[k] {
        assert next[k] == groups[k];
      } else {
        forall j | 0 <= j < |next| ensures t !in next[j] {
          if j < k { assert next[j] == groups[..k][j]; }
        }
      }
    }
  }

  lemma TokenMapAdd(moves: seq<Move>, k: nat, moveTokens: map<nat, seq<string>>)
    requires k < |moves| && TokenMap(moves[..k], moveTokens) && moves[k].invoiceOrigin != ""
    ensures TokenMap(moves[..k + 1], moveTokens[moves[k].id := Tokens(moves[k].invoiceOrigin)])
  {
    var next := moves[..k + 1];
    var m := moveTokens[moves[k].id := Tokens(moves[k].invoiceOrigin)];
    assert next[k] == moves[k];
    forall id | id in m
      ensures exists j :: 0 <= j < |next| && next[j].id == id && m[id] == Tokens(next[j].invoiceOrigin)
    {
      if id != moves[k].id {
        var j :| 0 <= j < k && moves[..k][j].id == id && moveTokens[id] == Tokens(moves[..k][j].invoiceOrigin);
        assert next[j] == moves[..k][j] && m[id] == moveTokens[id];
        assert next[j].id == id && m[id] == Tokens(next[j].invoiceOrigin);
      } else {
        assert next[k].id == id && m[id] == Tokens(next[k].invoiceOrigin);
      }
    }
    forall j | 0 <= j < |next| && next[j].invoiceOrigin != "" ensures next[j].id in m {
      if j < k { assert next[j] == moves[..k][j]; }
    }
  }

  lemma TokenMapSkip(moves: seq<Move>, k: nat, moveTokens: map<nat, seq<string>>)
    requires k < |moves| && TokenMap(moves[..k], moveTokens) && moves[k].invoiceOrigin == ""
    ensures TokenMap(moves[..k + 1], moveTokens)
  {
    var next := moves[..k + 1];
    forall id | id in moveTokens
      ensures exists j :: 0 <= j < |next| && next[j].id == id && moveTokens[id] == Tokens(next[j].invoiceOrigin)
    {
      var j :| 0 <= j < k && moves[..k][j].id == id && moveTokens[id] == Tokens(moves[..k][j].invoiceOrigin);
      assert next[j] == moves[..k][j];
    }
    forall j | 0 <= j < |next| && next[j].invoiceOrigin != "" ensures next[j].id in moveTokens {
      if j < k { assert next[j] == moves[..k][j]; }
    }
  }

  /** The tokens of each move with an origin, and all of them together. */
  method CollectTokens(moves: seq<Move>) returns (nameTokens: set<string>, moveTokens: map<nat, seq<string>>)
    ensures TokenMap(moves, moveTokens) && TokenSet(moves, nameTokens)
  {
    nameTokens := {};
    moveTokens := map[];
    ghost var lists := TokenLists(moves);
    var k := 0;
    while k < |moves|
      invariant 0 <= k <= |moves|
      invariant TokenMap(moves[..k], moveTokens) && UnionOf(lists[..k], nameTokens)
    {
      var origin := moves[k].invoiceOrigin;
      UnionStep(lists, k, nameTokens);
      assert lists[k] == Tokens(origin);
      if origin != "" {
        TokenMapAdd(moves, k, moveTokens);
        var parts := Tokens(origin);
        moveTokens := moveTokens[moves[k].id := parts];
        nameTokens := nameTokens + set t | t in parts;
      } else {
        TokenMapSkip(moves, k, moveTokens);
        assert Tokens(origin) == [];
        assert (set t | t in Tokens(origin)) == {};
        assert nameTokens + (set t | t in Tokens(origin)) == nameTokens;
      }
      k := k + 1;
    }
    assert moves[..k] == moves && lists[..k] == lists;
  }

  /** The names of the pickings that are among `tokens`. */
  method NamesFound(pickings: seq<Picking>, tokens: set<string>) returns (names: set<string>)
    ensures NameSet(pickings, tokens, names)
  {
    names := {};
    var k := 0;
    while k < |pickings|
      invariant 0 <= k <= |pickings|
      invariant forall n :: n in names <==> exists j :: 0 <= j < k && pickings[j].name == n && n in tokens
    {
      if pickings[k].name in tokens {
        names := names + {pickings[k].name};
      }
      k := k + 1;
    }
  }

  /** The token loop, stopping at the first token that names a picking. */
  method AnyFound(tokens: seq<string>, names: set<string>) returns (found: bool)
    ensures found <==> exists q :: 0 <= q < |tokens| && tokens[q] in names
  {
    var t := 0;
    while t < |tokens|
      invariant 0 <= t <= |tokens|
      invariant forall q :: 0 <= q < t ==> tokens[q] !in names
    {
      if tokens[t] in names {
        return true;
      }
      t := t + 1;
    }
    return false;
  }

  /** `_compute_has_related_picking`: the set of moves linked directly or through
      a picking's `vendor_bill_ids`, the origin tokens of each move, the
      pickings found by name, then one flag per move. */
  method ComputeHasRelatedPicking(moves: seq<Move>, allMoves: seq<Move>, pickings: seq<Picking>)
    returns (flags: seq<bool>)
    requires Stored(moves, allMoves)
    ensures |flags| == |moves|
    ensures forall i :: 0 <= i < |moves| ==> (flags[i] <==> HasRelatedPicking(moves[i], pickings))
  {
    var selfIds := set m | m in moves :: m.id;
    var direct := DirectLinks(moves);
    var linked := AddBillLinks(direct, pickings, allMoves, selfIds);
    var nameTokens, moveTokens := CollectTokens(moves);
    var pickingNames := NamesFound(pickings, nameTokens);
    flags := [];
    var k := 0;
    while k < |moves|
      invariant 0 <= k <= |moves| && |flags| == k
      invariant forall j :: 0 <= j < k ==> (flags[j] <==> HasRelatedPicking(moves[j], pickings))
    {
      var hasLink := MoveFlag(moves[k], moves, allMoves, pickings, selfIds, direct, linked,
                              nameTokens, moveTokens, pickingNames);
      flags := flags + [hasLink];
      k := k + 1;
    }
  }

  /** The flag of one move: in the linked set, or one of its tokens names a
      picking. */
  method MoveFlag(m: Move, moves: seq<Move>, allMoves: seq<Move>, pickings: seq<Picking>,
                  selfIds: set<nat>, direct: set<nat>, linked: set<nat>,
                  nameTokens: set<string>, moveTokens: map<nat, seq<string>>, pickingNames: set<string>)
    returns (hasLink: bool)
    requires Stored(moves, allMoves) && m in moves
    requires selfIds == set m | m in moves :: m.id
    requires DirectSet(moves, direct) && LinkedSet(direct, pickings, allMoves, selfIds, linked)
    requires TokenMap(moves, moveTokens) && TokenSet(moves, nameTokens)
    requires NameSet(pickings, nameTokens, pickingNames)
    ensures hasLink <==> HasRelatedPicking(m, pickings)
  {
    LinkedMeansDirect(m, moves, allMoves, pickings, selfIds, direct, linked);
    hasLink := m.id in linked;
    if !hasLink {
      var tokens := if m.id in moveTokens then moveTokens[m.id] else [];
      TokensOfMove(m, moves, allMoves, moveTokens);
      hasLink := AnyFound(tokens, pickingNames);
      TokenNamesPicking(m, moves, pickings, nameTokens, pickingNames, tokens);
    }
  }

  /** `move_tokens.get(move.id, [])` holds the move's own tokens. */
  lemma TokensOfMove(m: Move, moves: seq<Move>, allMoves: seq<Move>, moveTokens: map<nat, seq<string>>)
    requires Stored(moves, allMoves) && m in moves && TokenMap(moves, moveTokens)
    ensures (if m.id in moveTokens then moveTokens[m.id] else []) == Tokens(m.invoiceOrigin)
  {
    if m.id in moveTokens {
      var j :| 0 <= j < |moves| && moves[j].id == m.id && moveTokens[m.id] == Tokens(moves[j].invoiceOrigin);
      assert moves[j] in allMoves && m in allMoves;
    } else {
      var i :| 0 <= i < |moves| && moves[i] == m;
      assert m.invoiceOrigin == "";
      assert Runs("") == [];
    }
  }

  /** A token is in the by-name lookup exactly when it names a picking. */
  lemma TokenNamesPicking(m: Move, moves: seq<Move>, pickings: seq<Picking>, nameTokens: set<string>,
                          pickingNames: set<string>, tokens: seq<string>)
    requires m in moves && tokens == Tokens(m.invoiceOrigin)
    requires TokenSet(moves, nameTokens) && NameSet(pickings, nameTokens, pickingNames)
    ensures (exists q :: 0 <= q < |tokens| && tokens[q] in pickingNames)
            <==> (exists t, p :: t in tokens && p in pickings && p.name == t)
  {
    var i :| 0 <= i < |moves| && moves[i] == m;
    if exists t, p :: t in tokens && p in pickings && p.name == t {
      var t, p :| t in tokens && p in pickings && p.name == t;
      var q :| 0 <= q < |tokens| && tokens[q] == t;
      var j :| 0 <= j < |pickings| && pickings[j] == p;
      assert TokenLists(moves)[i] == tokens;
      assert t in nameTokens;
      assert tokens[q] in pickingNames;
    }
    if exists q :: 0 <= q < |tokens| && tokens[q] in pickingNames {
      var q :| 0 <= q < |tokens| && tokens[q] in pickingNames;
      var j :| 0 <= j < |pickings| && pickings[j].name == tokens[q] && tokens[q] in nameTokens;
      assert tokens[q] in tokens && pickings[j] in pickings;
    }
  }

  /** On the table's facts, a move is in the linked set exactly when its own
      `picking_id` is set: the reverse relation adds nothing new. */
  lemma LinkedMeansDirect(m: Move, moves: seq<Move>, allMoves: seq<Move>, pickings: seq<Picking>,
                          selfIds: set<nat>, direct: set<nat>, linked: set<nat>)
    requires Stored(moves, allMoves) && m in moves
    requires selfIds == set m | m in moves :: m.id
    requires DirectSet(moves, direct) && LinkedSet(direct, pickings, allMoves, selfIds, linked)
    ensures m.id in linked ==> m.pickingId.Some?
  {
    if m.pickingId.None? {
      assert m in allMoves;
      forall j | 0 <= j < |moves| && moves[j].id == m.id ensures moves[j].pickingId.None? {
        assert moves[j] in allMoves;
      }
      forall j | 0 <= j < |pickings| ensures m.id !in VendorBillIds(pickings[j], allMoves) {
        forall b | b in allMoves && b.id == m.id ensures b.pickingId.None? {
          assert b == m;
        }
      }
    }
  }

  /** What `action_open_picking` opens: the picking's form, or the picking
      list filtered on names, or on `id = 0` when there is nothing to filter on. */
  datatype PickingView = PickingForm(id: nat) | PickingList(names: seq<string>) | NoPickings

  /** `search(..., limit=1)` over the pickings in the table's order. */
  function FirstNamed(pickings: seq<Picking>, names: seq<string>): (r: Option<Picking>)
    ensures r.Some? ==> r.value in pickings && r.value.name in names
    ensures r.None? ==> forall p :: p in pickings ==> p.name !in names
  {
    if pickings == [] then None
    else if pickings[0].name in names then Some(pickings[0])
    else FirstNamed(pickings[1..], names)
  }

  /** The tokens `action_open_picking` searches for, as written: the origin is
      split only when it contains `,` or `\n`. */
  function OpenTokensAsWritten(origin: string): seq<string> {
    if ',' in origin || '\n' in origin then Tokens(origin) else [Text.Strip(origin)]
  }

  /** The tokens with the split done whenever any separator occurs. */
  function OpenTokens(origin: string): seq<string> {
    if ',' in origin || '\n' in origin || '\r' in origin then Tokens(origin) else [Text.Strip(origin)]
  }

  function OpenWith(m: Move, pickings: seq<Picking>, tokens: seq<string>): PickingView {
    if m.pickingId.Some? then PickingForm(m.pickingId.value)
    else if m.invoiceOrigin == "" then NoPickings
    else
      var found := FirstNamed(pickings, if tokens != [] then tokens else [m.invoiceOrigin]);
      if found.Some? then PickingForm(found.value.id) else PickingList(tokens)
  }

  /** `action_open_picking` as written. */
  function OpenPickingAsWritten(m: Move, pickings: seq<Picking>): (r: PickingView)
    ensures m.pickingId.None? && m.invoiceOrigin == "" ==> r == NoPickings
  {
    OpenWith(m, pickings, OpenTokensAsWritten(m.invoiceOrigin))
  }

  /** Two clean names separated by a lone `\r` are both origin tokens. */
  lemma CarriageReturnSplits(a: string, b: string)
    requires Clean(a) && Clean(b)
    ensures Tokens(a + "\r" + b) == [a, b]
  {
    var origin := a + "\r" + b;
    assert origin == a + ("\r" + b);
    RunsOfPiece(a, "\r" + b);
    assert ("\r" + b)[1..] == b;
    RunsOfPiece(b, "");
    assert b + "" == b;
    assert Runs(origin) == [a, b];
    StripAllClean([a, b]);
  }

  /** An origin that separates two picking names by a lone `\r` counts as
      linked, yet the action as written cannot open the picking. */
  lemma LoneCarriageReturnNotOpened()
    ensures var m := Move(7, None, "A\rB");
      var pickings := [Picking(1, "A")];
      HasRelatedPicking(m, pickings) && OpenPickingAsWritten(m, pickings) == PickingList(["A\rB"])
  {
    LoneCarriageReturnTokens();
    assert "A" in Tokens("A\rB") && Picking(1, "A") in [Picking(1, "A")];
    LoneCarriageReturnAsWritten();
  }

  lemma LoneCarriageReturnTokens()
    ensures Tokens("A\rB") == ["A", "B"]
  {
    assert "A\rB" == "A" + "\r" + "B";
    assert Clean("A") && Clean("B");
    CarriageReturnSplits("A", "B");
  }

  lemma LoneCarriageReturnAsWritten()
    ensures OpenPickingAsWritten(Move(7, None, "A\rB"), [Picking(1, "A")]) == PickingList(["A\rB"])
  {
    LoneCarriageReturnUnsplit();
    LoneCarriageReturnUnmatched();
  }

  lemma LoneCarriageReturnUnsplit()
    ensures OpenTokensAsWritten("A\rB") == ["A\rB"]
  {
    var origin := "A\rB";
    assert origin == ['A', '\r', 'B'];
    assert ',' !in origin && '\n' !in origin;
    assert !Text.IsSpace(origin[0]) && !Text.IsSpace(origin[|origin| - 1]);
  }

  lemma LoneCarriageReturnUnmatched()
    ensures FirstNamed([Picking(1, "A")], ["A\rB"]) == None
  {
    assert |"A"| != |"A\rB"|;
    var ps := [Picking(1, "A")];
    assert ps[1..] == [];
  }

  /** `action_open_picking`, splitting on every separator: it opens a picking
      form whenever the move has a related picking, and falls back to `id = 0`
      only without a picking and an origin. */
  function OpenPicking(m: Move, pickings: seq<Picking>): (r: PickingView)
    ensures m.pickingId.Some? ==> r == PickingForm(m.pickingId.value)
    ensures m.pickingId.None? && m.invoiceOrigin == "" ==> r == NoPickings
    ensures r.PickingForm? && m.pickingId.None? ==> exists p :: p in pickings && p.id == r.id
  {
    OpenWith(m, pickings, OpenTokens(m.invoiceOrigin))
  }

  lemma LinkedMoveOpens(m: Move, pickings: seq<Picking>)
    requires HasRelatedPicking(m, pickings)
    ensures OpenPicking(m, pickings).PickingForm?
  {
    if m.pickingId.None? {
      var t, p :| t in Tokens(m.invoiceOrigin) && p in pickings && p.name == t;
      assert m.invoiceOrigin != "";
      var tokens := OpenTokens(m.invoiceOrigin);
      if !(',' in m.invoiceOrigin || '\n' in m.invoiceOrigin || '\r' in m.invoiceOrigin) {
        assert NoSep(m.invoiceOrigin);
        TokensWithoutSep(m.invoiceOrigin);
      }
      assert t in tokens;
    }
  }
}
