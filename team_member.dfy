// Team members (`luc_khi.team.member`): the published/featured toggles and
// the profile URL.
module TeamMember {
  import Text
  import Toggles

  datatype Member = Member(id: nat, name: string, isPublished: bool, featured: bool)

  const TeamPrefix := "/team/"

  /** The URL of `action_view_website`. */
  function Url(m: Member): (r: string)
    ensures Text.StartsWith(r, TeamPrefix) && r[|TeamPrefix|..] == Text.NatToString(m.id)
  {
    TeamPrefix + Text.NatToString(m.id)
  }

  /** Members with different ids have different URLs. */
  lemma UrlInjective(m: Member, n: Member)
    requires Url(m) == Url(n)
    ensures m.id == n.id
  {
    assert Url(m)[|TeamPrefix|..] == Text.NatToString(m.id);
    assert Url(n)[|TeamPrefix|..] == Text.NatToString(n.id);
    Text.DigitsValueOfNatToString(m.id);
    Text.DigitsValueOfNatToString(n.id);
  }

  function WithPublishedToggled(ms: seq<Member>, sel: seq<nat>): (r: seq<Member>)
    ensures |r| == |ms|
    ensures forall i :: 0 <= i < |ms| ==>
      r[i] == ms[i].(isPublished := Toggles.Flipped(ms[i].isPublished, Toggles.Visits(sel, i)))
  {
    seq(|ms|, i requires 0 <= i < |ms| => ms[i].(isPublished := Toggles.Flipped(ms[i].isPublished, Toggles.Visits(sel, i))))
  }

  function WithFeaturedToggled(ms: seq<Member>, sel: seq<nat>): (r: seq<Member>)
    ensures |r| == |ms|
    ensures forall i :: 0 <= i < |ms| ==>
      r[i] == ms[i].(featured := Toggles.Flipped(ms[i].featured, Toggles.Visits(sel, i)))
  {
    seq(|ms|, i requires 0 <= i < |ms| => ms[i].(featured := Toggles.Flipped(ms[i].featured, Toggles.Visits(sel, i))))
  }

  /** Toggling the same members twice changes nothing, and each toggle
      leaves the other flag alone. */
  lemma ToggleTwice(ms: seq<Member>, sel: seq<nat>)
    ensures WithPublishedToggled(WithPublishedToggled(ms, sel), sel) == ms
    ensures WithFeaturedToggled(WithFeaturedToggled(ms, sel), sel) == ms
    ensures forall i :: 0 <= i < |ms| ==>
      WithPublishedToggled(ms, sel)[i].featured == ms[i].featured
      && WithFeaturedToggled(ms, sel)[i].isPublished == ms[i].isPublished
  {
    var p := WithPublishedToggled(WithPublishedToggled(ms, sel), sel);
    forall i | 0 <= i < |ms| ensures p[i] == ms[i] {
      Toggles.FlippedTwice(ms[i].isPublished, Toggles.Visits(sel, i));
    }
    var f := WithFeaturedToggled(WithFeaturedToggled(ms, sel), sel);
    forall i | 0 <= i < |ms| ensures f[i] == ms[i] {
      Toggles.FlippedTwice(ms[i].featured, Toggles.Visits(sel, i));
    }
  }

  /** A record selected once is negated; one not selected is untouched. */
  lemma ToggleOnce(ms: seq<Member>, sel: seq<nat>, i: nat)
    requires i < |ms|
    ensures Toggles.Visits(sel, i) == 1 ==> WithPublishedToggled(ms, sel)[i].isPublished == !ms[i].isPublished
    ensures Toggles.Visits(sel, i) == 0 ==> WithPublishedToggled(ms, sel)[i] == ms[i]
  {
  }

  class TeamTable {
    var members: seq<Member>

    constructor(members: seq<Member>)
      ensures this.members == members
    {
      this.members := members;
    }

    /** `toggle_published` on the recordset `sel` (positions in the table). */
    method TogglePublished(sel: seq<nat>)
      requires forall k :: 0 <= k < |sel| ==> sel[k] < |members|
      modifies this
      ensures members == WithPublishedToggled(old(members), sel)
    {
      var k := 0;
      while k < |sel|
        invariant 0 <= k <= |sel|
        invariant members == WithPublishedToggled(old(members), sel[..k])
      {
        var i := sel[k];
        assert sel[..k + 1] == sel[..k] + [i];
        forall j | 0 <= j < |members| ensures Toggles.Visits(sel[..k + 1], j) == Toggles.Visits(sel[..k], j) + (if j == i then 1 else 0) {
          Toggles.VisitsSnoc(sel[..k], i, j);
        }
        members := members[i := members[i].(isPublished := !members[i].isPublished)];
        k := k + 1;
      }
      assert sel[..|sel|] == sel;
    }

    /** `toggle_featured` on the recordset `sel` (positions in the table). */
    method ToggleFeatured(sel: seq<nat>)
      requires forall k :: 0 <= k < |sel| ==> sel[k] < |members|
      modifies this
      ensures members == WithFeaturedToggled(old(members), sel)
    {
      var k := 0;
      while k < |sel|
        invariant 0 <= k <= |sel|
        invariant members == WithFeaturedToggled(old(members), sel[..k])
      {
        var i := sel[k];
        assert sel[..k + 1] == sel[..k] + [i];
        forall j | 0 <= j < |members| ensures Toggles.Visits(sel[..k + 1], j) == Toggles.Visits(sel[..k], j) + (if j == i then 1 else 0) {
          Toggles.VisitsSnoc(sel[..k], i, j);
        }
        members := members[i := members[i].(featured := !members[i].featured)];
        k := k + 1;
      }
      assert sel[..|sel|] == sel;
    }
  }
}
