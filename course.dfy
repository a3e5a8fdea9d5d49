// Courses (`luc_khi.course`): the stored slug and its uniqueness, the
// published/featured toggles, the access decision and the one-time
// creation of the linked slide channel.
module Course {
  import opened Wrappers
  import Toggles
  import SlugStore

  /** `access_mode`; `Unset` is a cleared selection (`False`). */
  datatype AccessMode = Public | Registered | Purchased | Unset

  /** The part of a course the course logic reads and writes. */
  datatype Course = Course(
    id: nat,
    name: string,
    description: string,
    slug: Option<string>,
    isPublished: bool,
    featured: bool,
    accessMode: AccessMode,
    slideChannel: Option<nat>)

  const SlugTaken := "URL slug must be unique!"

  /** `check_access_rights(user)`. `userIsPublic` is
      `user.has_group('base.group_public')` and `channelAccess` the slide
      channel's `_check_access` for the user's partner. */
  function CheckAccessRights(c: Course, userIsPublic: bool, channelAccess: nat -> bool): (r: bool)
    ensures c.accessMode == Public ==> r
    ensures c.accessMode == Registered ==> (r <==> !userIsPublic)
    ensures c.accessMode == Purchased ==> (r <==> c.slideChannel.Some? && channelAccess(c.slideChannel.value))
    ensures c.accessMode == Unset ==> !r
  {
    if c.accessMode == Public then true
    else if c.accessMode == Registered && !userIsPublic then true
    else if c.accessMode == Purchased && c.slideChannel.Some? then channelAccess(c.slideChannel.value)
    else false
  }

  /** A purchased-only course without a channel is closed to everybody, and
      a public one is open whatever the channel says. */
  lemma AccessWithoutChannel(c: Course, userIsPublic: bool, channelAccess: nat -> bool, other: nat -> bool)
    ensures c.accessMode == Purchased && c.slideChannel.None? ==> !CheckAccessRights(c, userIsPublic, channelAccess)
    ensures c.accessMode != Purchased ==>
      CheckAccessRights(c, userIsPublic, channelAccess) == CheckAccessRights(c, userIsPublic, other)
  {
  }

  /** The values `action_create_slide_channel` gives the new channel. */
  datatype ChannelVals = ChannelVals(
    name: string, description: string, channelType: string, isPublished: bool, visibility: string)

  function ChannelValsOf(c: Course): (v: ChannelVals)
    ensures v.name == c.name && v.description == c.description && v.isPublished == c.isPublished
    ensures v.channelType == "training"
    ensures v.visibility == (if c.accessMode == Public then "public" else "members")
  {
    ChannelVals(c.name, c.description, "training", c.isPublished, if c.accessMode == Public then "public" else "members")
  }

  /** Every course with `is_published` negated once per visit in `sel`. */
  function WithPublishedToggled(cs: seq<Course>, sel: seq<nat>): (r: seq<Course>)
    ensures |r| == |cs|
    ensures forall i :: 0 <= i < |cs| ==>
      r[i] == cs[i].(isPublished := Toggles.Flipped(cs[i].isPublished, Toggles.Visits(sel, i)))
  {
    seq(|cs|, i requires 0 <= i < |cs| => cs[i].(isPublished := Toggles.Flipped(cs[i].isPublished, Toggles.Visits(sel, i))))
  }

  /** Every course with `featured` negated once per visit in `sel`. */
  function WithFeaturedToggled(cs: seq<Course>, sel: seq<nat>): (r: seq<Course>)
    ensures |r| == |cs|
    ensures forall i :: 0 <= i < |cs| ==>
      r[i] == cs[i].(featured := Toggles.Flipped(cs[i].featured, Toggles.Visits(sel, i)))
  {
    seq(|cs|, i requires 0 <= i < |cs| => cs[i].(featured := Toggles.Flipped(cs[i].featured, Toggles.Visits(sel, i))))
  }

  /** Toggling the same records twice changes nothing, and each toggle leaves
      the other flag alone. */
  lemma ToggleTwice(cs: seq<Course>, sel: seq<nat>)
    ensures WithPublishedToggled(WithPublishedToggled(cs, sel), sel) == cs
    ensures WithFeaturedToggled(WithFeaturedToggled(cs, sel), sel) == cs
    ensures forall i :: 0 <= i < |cs| ==>
      WithPublishedToggled(cs, sel)[i].featured == cs[i].featured
      && WithFeaturedToggled(cs, sel)[i].isPublished == cs[i].isPublished
  {
    var p := WithPublishedToggled(WithPublishedToggled(cs, sel), sel);
    forall i | 0 <= i < |cs| ensures p[i] == cs[i] {
      Toggles.FlippedTwice(cs[i].isPublished, Toggles.Visits(sel, i));
    }
    var f := WithFeaturedToggled(WithFeaturedToggled(cs, sel), sel);
    forall i | 0 <= i < |cs| ensures f[i] == cs[i] {
      Toggles.FlippedTwice(cs[i].featured, Toggles.Visits(sel, i));
    }
  }

  /** The courses with their names. */
  function Names(cs: seq<Course>): (r: seq<string>)
    ensures |r| == |cs| && forall i :: 0 <= i < |cs| ==> r[i] == cs[i].name
  {
    seq(|cs|, i requires 0 <= i < |cs| => cs[i].name)
  }

  function Slugs(cs: seq<Course>): (r: seq<Option<string>>)
    ensures |r| == |cs| && forall i :: 0 <= i < |cs| ==> r[i] == cs[i].slug
  {
    seq(|cs|, i requires 0 <= i < |cs| => cs[i].slug)
  }

  function WithSlugs(cs: seq<Course>, slugs: seq<Option<string>>): (r: seq<Course>)
    requires |slugs| == |cs|
    ensures |r| == |cs| && forall i :: 0 <= i < |cs| ==> r[i] == cs[i].(slug := slugs[i])
    ensures Slugs(r) == slugs
  {
    seq(|cs|, i requires 0 <= i < |cs| => cs[i].(slug := slugs[i]))
  }

  /** The course table, which keeps its slugs unique. */
  class CourseTable {
    var courses: seq<Course>

    predicate Valid()
      reads this
    {
      SlugStore.Unique(Slugs(courses))
    }

    constructor()
      ensures courses == [] && Valid()
    {
      courses := [];
    }

    /** `_compute_slug` on every course; a result holding a slug twice is
        refused and the table is left as it was. */
    method ComputeSlugs() returns (r: Result<()>)
      requires Valid()
      modifies this
      ensures Valid()
      ensures var s := SlugStore.Recomputed(Names(old(courses)), Slugs(old(courses)));
        && (r.Ok? <==> SlugStore.Unique(s))
        && (r.Ok? ==> courses == WithSlugs(old(courses), s))
        && (r.Err? ==> r.error == SlugTaken && courses == old(courses))
    {
      var s := SlugStore.ComputeSlugs(Names(courses), Slugs(courses));
      if !SlugStore.Unique(s) {
        return Err(SlugTaken);
      }
      courses := WithSlugs(courses, s);
      return Ok(());
    }

    /** `toggle_published` on the recordset `sel` (positions in the table). */
    method TogglePublished(sel: seq<nat>)
      requires Valid()
      requires forall k :: 0 <= k < |sel| ==> sel[k] < |courses|
      modifies this
      ensures Valid()
      ensures courses == WithPublishedToggled(old(courses), sel)
    {
      var k := 0;
      while k < |sel|
        invariant 0 <= k <= |sel|
        invariant courses == WithPublishedToggled(old(courses), sel[..k])
      {
        var i := sel[k];
        assert sel[..k + 1] == sel[..k] + [i];
        forall j | 0 <= j < |courses| ensures Toggles.Visits(sel[..k + 1], j) == Toggles.Visits(sel[..k], j) + (if j == i then 1 else 0) {
          Toggles.VisitsSnoc(sel[..k], i, j);
        }
        courses := courses[i := courses[i].(isPublished := !courses[i].isPublished)];
        k := k + 1;
      }
      assert sel[..|sel|] == sel;
      assert Slugs(courses) == Slugs(old(courses));
    }

    /** `toggle_featured` on the recordset `sel` (positions in the table). */
    method ToggleFeatured(sel: seq<nat>)
      requires Valid()
      requires forall k :: 0 <= k < |sel| ==> sel[k] < |courses|
      modifies this
      ensures Valid()
      ensures courses == WithFeaturedToggled(old(courses), sel)
    {
      var k := 0;
      while k < |sel|
        invariant 0 <= k <= |sel|
        invariant courses == WithFeaturedToggled(old(courses), sel[..k])
      {
        var i := sel[k];
        assert sel[..k + 1] == sel[..k] + [i];
        forall j | 0 <= j < |courses| ensures Toggles.Visits(sel[..k + 1], j) == Toggles.Visits(sel[..k], j) + (if j == i then 1 else 0) {
          Toggles.VisitsSnoc(sel[..k], i, j);
        }
        courses := courses[i := courses[i].(featured := !courses[i].featured)];
        k := k + 1;
      }
      assert sel[..|sel|] == sel;
      assert Slugs(courses) == Slugs(old(courses));
    }

    /** `action_create_slide_channel` on course `i`: a channel is created
        (with id `newChannel`, from the host) only when none is linked;
        otherwise the linked one is answered and nothing changes. */
    method CreateSlideChannel(i: nat, newChannel: nat) returns (channel: nat, created: Option<ChannelVals>)
      requires Valid() && i < |courses|
      modifies this
      ensures Valid()
      ensures old(courses[i].slideChannel).Some? ==>
        channel == old(courses[i].slideChannel).value && created.None? && courses == old(courses)
      ensures old(courses[i].slideChannel).None? ==>
        && channel == newChannel
        && created == Some(ChannelValsOf(old(courses[i])))
        && courses == old(courses)[i := old(courses[i]).(slideChannel := Some(newChannel))]
    {
      if courses[i].slideChannel.Some? {
        return courses[i].slideChannel.value, None;
      }
      var vals := ChannelValsOf(courses[i]);
      courses := courses[i := courses[i].(slideChannel := Some(newChannel))];
      assert Slugs(courses) == Slugs(old(courses));
      return newChannel, Some(vals);
    }
  }
}
