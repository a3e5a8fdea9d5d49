// Counting into a dictionary in order of first appearance
// (`counts[e] = counts.get(e, 0) + 1`), and `max(counts, key=counts.get)`.
module Tally {
  /** How often `e` occurs in `xs`. */
  function CountOf<T(==,!new)>(xs: seq<T>, e: T): nat {
    if xs == [] then 0 else CountOf(xs[..|xs| - 1], e) + (if xs[|xs| - 1] == e then 1 else 0)
  }

  /** The values of every group, one group after another. */
  function Flatten<T>(groups: seq<seq<T>>): seq<T> {
    if groups == [] then [] else Flatten(groups[..|groups| - 1]) + groups[|groups| - 1]
  }

  lemma FlattenStep<T>(groups: seq<seq<T>>, g: nat)
    requires g < |groups|
    ensures Flatten(groups[..g + 1]) == Flatten(groups[..g]) + groups[g]
  {
    assert groups[..g + 1][..g] == groups[..g];
  }

  /** The distinct values in order of first appearance: a dictionary's key order. */
  function FirstSeen<T(==,!new)>(xs: seq<T>): (r: seq<T>)
    ensures forall e :: e in r <==> e in xs
    ensures forall i, j :: 0 <= i < j < |r| ==> r[i] != r[j]
  {
    if xs == [] then []
    else
      var p := FirstSeen(xs[..|xs| - 1]);
      assert xs == xs[..|xs| - 1] + [xs[|xs| - 1]];
      if xs[|xs| - 1] in p then p else p + [xs[|xs| - 1]]
  }

  /** `counts.items()` after counting `xs`. */
  function Counted<T(==,!new)>(xs: seq<T>): (r: seq<(T, nat)>)
    ensures |r| == |FirstSeen(xs)|
    ensures forall i :: 0 <= i < |r| ==> r[i].0 == FirstSeen(xs)[i]
  {
    var keys := FirstSeen(xs);
    seq(|keys|, i requires 0 <= i < |keys| => (keys[i], CountOf(xs, keys[i])))
  }

  /** Every value that occurs is counted at least once. */
  lemma CountedPositive<T(!new)>(xs: seq<T>, e: T)
    requires e in xs
    ensures CountOf(xs, e) > 0
  {
    if xs[|xs| - 1] != e {
      assert e in xs[..|xs| - 1] by { assert xs == xs[..|xs| - 1] + [xs[|xs| - 1]]; }
      CountedPositive(xs[..|xs| - 1], e);
    }
  }

  /** Only values that occur have a count. */
  lemma CountedIn<T(!new)>(xs: seq<T>, e: T)
    requires CountOf(xs, e) > 0
    ensures e in xs
  {
    if xs[|xs| - 1] != e {
      CountedIn(xs[..|xs| - 1], e);
    }
  }

  /** Every entry of `Counted(xs)` is a value of `xs` with its positive count. */
  lemma CountedEntries<T(!new)>(xs: seq<T>)
    ensures forall i :: 0 <= i < |Counted(xs)| ==>
      Counted(xs)[i].0 in xs && Counted(xs)[i].1 == CountOf(xs, Counted(xs)[i].0) > 0
  {
    forall i | 0 <= i < |Counted(xs)|
      ensures Counted(xs)[i].0 in xs && Counted(xs)[i].1 == CountOf(xs, Counted(xs)[i].0) > 0
    {
      CountedPositive(xs, FirstSeen(xs)[i]);
    }
  }

  /** The counts of the given keys added up. */
  function SumCounts<T(==,!new)>(keys: seq<T>, xs: seq<T>): nat {
    if keys == [] then 0 else CountOf(xs, keys[0]) + SumCounts(keys[1..], xs)
  }

  function Total<T>(items: seq<(T, nat)>): nat {
    if items == [] then 0 else items[0].1 + Total(items[1..])
  }

  lemma {:induction false} SumCountsEmpty<T(!new)>(keys: seq<T>)
    ensures SumCounts(keys, []) == 0
  {
    if keys != [] {
      SumCountsEmpty(keys[1..]);
    }
  }

  /** One more value adds one to the key it equals, if listed. */
  lemma {:induction false} SumCountsSnoc<T(!new)>(keys: seq<T>, xs: seq<T>, e: T)
    requires forall i, j :: 0 <= i < j < |keys| ==> keys[i] != keys[j]
    ensures SumCounts(keys, xs + [e]) == SumCounts(keys, xs) + (if e in keys then 1 else 0)
  {
    var ys := xs + [e];
    assert ys[..|ys| - 1] == xs;
    if keys != [] {
      assert forall i, j :: 0 <= i < j < |keys[1..]| ==> keys[1..][i] != keys[1..][j] by {
        forall i, j | 0 <= i < j < |keys[1..]| ensures keys[1..][i] != keys[1..][j] {
          assert keys[1..][i] == keys[i + 1] && keys[1..][j] == keys[j + 1];
        }
      }
      SumCountsSnoc(keys[1..], xs, e);
      assert keys == [keys[0]] + keys[1..];
      if e == keys[0] {
        assert e !in keys[1..];
      } else {
        assert e in keys <==> e in keys[1..];
      }
    }
  }

  /** Distinct keys covering every value count every value once. */
  lemma {:induction false} SumCountsAll<T(!new)>(keys: seq<T>, xs: seq<T>)
    requires forall i, j :: 0 <= i < j < |keys| ==> keys[i] != keys[j]
    requires forall e :: e in xs ==> e in keys
    ensures SumCounts(keys, xs) == |xs|
  {
    if xs == [] {
      SumCountsEmpty(keys);
    } else {
      var init := xs[..|xs| - 1];
      assert xs == init + [xs[|xs| - 1]];
      assert forall e :: e in init ==> e in xs;
      SumCountsAll(keys, init);
      SumCountsSnoc(keys, init, xs[|xs| - 1]);
    }
  }

  lemma {:induction false} TotalIsSum<T(!new)>(keys: seq<T>, xs: seq<T>, items: seq<(T, nat)>)
    requires |items| == |keys|
    requires forall i :: 0 <= i < |items| ==> items[i] == (keys[i], CountOf(xs, keys[i]))
    ensures Total(items) == SumCounts(keys, xs)
  {
    if keys != [] {
      TotalIsSum(keys[1..], xs, items[1..]);
    }
  }

  /** The counts add up to the number of values counted. */
  lemma CountsAddUp<T(!new)>(xs: seq<T>)
    ensures Total(Counted(xs)) == |xs|
  {
    TotalIsSum(FirstSeen(xs), xs, Counted(xs));
    SumCountsAll(FirstSeen(xs), xs);
  }

  /** `order` and `counts` hold the dictionary after the values `seen`. */
  ghost predicate Tallied<T(!new)>(order: seq<T>, counts: map<T, nat>, seen: seq<T>) {
    && order == FirstSeen(seen)
    && (forall e :: e in counts <==> e in seen)
    && (forall e :: e in counts ==> counts[e] == CountOf(seen, e))
  }

  /** `counts[e] = counts.get(e, 0) + 1`, a new key going last. */
  lemma TallyStep<T(!new)>(order: seq<T>, counts: map<T, nat>, seen: seq<T>, e: T)
    requires Tallied(order, counts, seen)
    ensures Tallied(if e in counts then order else order + [e],
                    counts[e := if e in counts then counts[e] + 1 else 1], seen + [e])
  {
    var next := seen + [e];
    assert next[..|next| - 1] == seen;
    forall x ensures CountOf(next, x) == CountOf(seen, x) + (if x == e then 1 else 0) {
    }
    if e !in counts {
      assert CountOf(seen, e) == 0 by {
        if CountOf(seen, e) > 0 { CountedIn(seen, e); }
      }
    }
  }

  /** The dictionary's items once every value is tallied. */
  function Items<T(==,!new)>(order: seq<T>, counts: map<T, nat>): seq<(T, nat)>
    requires forall e :: e in order ==> e in counts
  {
    seq(|order|, i requires 0 <= i < |order| => (order[i], counts[order[i]]))
  }

  lemma ItemsOfTallied<T(!new)>(order: seq<T>, counts: map<T, nat>, seen: seq<T>)
    requires Tallied(order, counts, seen)
    ensures forall e :: e in order ==> e in counts
    ensures Items(order, counts) == Counted(seen)
  {
  }

  /** The counting loop over one sequence of values. */
  method Count<T(==,!new)>(xs: seq<T>) returns (items: seq<(T, nat)>)
    ensures items == Counted(xs)
  {
    var order, counts := CountInto([], map[], [], xs);
    assert [] + xs == xs;
    ItemsOfTallied(order, counts, xs);
    items := Items(order, counts);
  }

  /** The counting loop, continuing the dictionary left by the values `seen`. */
  method CountInto<T(==,!new)>(order: seq<T>, counts: map<T, nat>, ghost seen: seq<T>, xs: seq<T>)
    returns (order': seq<T>, counts': map<T, nat>)
    requires Tallied(order, counts, seen)
    ensures Tallied(order', counts', seen + xs)
  {
    order', counts' := order, counts;
    ghost var cur := seen;
    assert xs[..0] == [];
    var k := 0;
    while k < |xs|
      invariant 0 <= k <= |xs|
      invariant cur == seen + xs[..k]
      invariant Tallied(order', counts', cur)
    {
      var e := xs[k];
      TallyStep(order', counts', cur, e);
      if e in counts' {
        counts' := counts'[e := counts'[e] + 1];
      } else {
        order' := order' + [e];
        counts' := counts'[e := 1];
      }
      assert xs[..k + 1] == xs[..k] + [e];
      cur := cur + [e];
      k := k + 1;
    }
    assert xs[..k] == xs;
  }

  /** `max(counts, key=counts.get)`: the position of the first largest count. */
  function FirstMax<T>(items: seq<(T, nat)>): (r: nat)
    requires items != []
    ensures r < |items|
    ensures forall j :: 0 <= j < |items| ==> items[j].1 <= items[r].1
    ensures forall j :: 0 <= j < r ==> items[j].1 < items[r].1
  {
    if |items| == 1 then 0
    else
      var k := FirstMax(items[..|items| - 1]);
      if items[|items| - 1].1 > items[k].1 then |items| - 1 else k
  }
}
