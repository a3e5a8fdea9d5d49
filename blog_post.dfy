// Blog posts (`blog.post` extended): reading time, the drop-map slug, the
// create/write defaults, the view counter and the related-post search.
module BlogPost {
  import opened Wrappers
  import SiteCommon
  import VietSlug

  /** The part of a blog post the blog logic reads and writes. `content` is
      "" for `False`; `category` is `luc_khi_category_id`. */
  datatype Post = Post(
    id: nat,
    blogId: nat,
    name: string,
    content: string,
    metaKeywords: string,
    category: Option<nat>,
    websitePublished: bool,
    viewCount: int,
    likeCount: int,
    slug: string,
    readingTime: nat)

  /** A character of `\w`: the ASCII letters, digits and underscore, and the
      precomposed Latin letters Vietnamese text is written in (Latin-1 and
      Latin Extended-A and -B without the two operators, and Latin Extended
      Additional). */
  predicate IsWordChar(c: char) {
    'a' <= c <= 'z' || 'A' <= c <= 'Z' || '0' <= c <= '9' || c == '_'
    || ('\U{00C0}' <= c <= '\U{024F}' && c != '\U{00D7}' && c != '\U{00F7}')
    || '\U{1E00}' <= c <= '\U{1EFF}'
  }

  /** Position `i` starts a maximal run of word characters. */
  predicate StartsWord(s: string, i: nat)
    requires i < |s|
  {
    IsWordChar(s[i]) && (i == 0 || !IsWordChar(s[i - 1]))
  }

  /** `len(re.findall(r'\w+', s))`: the number of maximal runs of word
      characters. */
  function WordCount(s: string): (r: nat)
    ensures r <= |s|
    ensures r == 0 <==> forall i :: 0 <= i < |s| ==> !IsWordChar(s[i])
  {
    if s == [] then 0
    else
      var p := s[..|s| - 1];
      assert forall i :: 0 <= i < |p| ==> p[i] == s[i];
      WordCount(p) + (if StartsWord(s, |s| - 1) then 1 else 0)
  }

  /** Texts separated by a non-word character have the words of both. */
  lemma {:induction false} WordsAdd(a: string, sep: char, b: string)
    requires !IsWordChar(sep)
    ensures WordCount(a + [sep] + b) == WordCount(a) + WordCount(b)
    decreases |b|
  {
    var s := a + [sep] + b;
    if b == [] {
      assert s[..|s| - 1] == a;
    } else {
      var b' := b[..|b| - 1];
      WordsAdd(a, sep, b');
      assert s[..|s| - 1] == a + [sep] + b';
      assert s[|s| - 1] == b[|b| - 1];
      assert s[|s| - 2] == if b' == [] then sep else b[|b| - 2];
      assert StartsWord(s, |s| - 1) == StartsWord(b, |b| - 1);
    }
  }

  /** Python's `round(n / 200)` for a whole number `n`: the nearest whole
      number, ties going to the even one. */
  function RoundPer200(n: nat): (r: nat)
    ensures -100 <= r * 200 - n <= 100
    ensures (r * 200 - n == 100 || r * 200 - n == -100) ==> r % 2 == 0
  {
    var q := n / 200;
    var m := n % 200;
    if m < 100 then q
    else if m > 100 then q + 1
    else if q % 2 == 0 then q
    else q + 1
  }

  /** Those two properties pick one number: the rounding is determined. */
  lemma RoundingUnique(n: nat, r: nat)
    requires -100 <= r * 200 - n <= 100
    requires (r * 200 - n == 100 || r * 200 - n == -100) ==> r % 2 == 0
    ensures r == RoundPer200(n)
  {
    var k := RoundPer200(n);
    assert -200 <= (r - k) * 200 <= 200;
  }

  /** `_compute_reading_time`: 200 words a minute, rounded, never below 1. */
  function ReadingTime(content: string): (r: nat)
    ensures r >= 1
    ensures content == "" ==> r == 1
    ensures WordCount(content) < 300 ==> r == 1
    ensures WordCount(content) >= 100 ==> -100 <= r * 200 - WordCount(content) <= 100
  {
    if content == "" then 1
    else
      var minutes := RoundPer200(WordCount(content));
      if minutes > 1 then minutes else 1
  }

  /** The values `create` passes on: the meta title defaults first, then the
      summary taken from the content. */
  function CreateVals(vals: map<string, string>): (r: map<string, string>)
    ensures "meta_title" in r
    ensures SiteCommon.Get(vals, "summary", "") == "" && SiteCommon.Get(vals, "content", "") != "" ==>
      "summary" in r && r["summary"] == SiteCommon.Truncated(vals["content"])
    ensures SiteCommon.Get(vals, "summary", "") != "" ==> "summary" in r && r["summary"] == vals["summary"]
  {
    var m := SiteCommon.MetaTitleOnCreate(vals);
    assert SiteCommon.Get(m, "summary", "") == SiteCommon.Get(vals, "summary", "");
    assert SiteCommon.Get(m, "content", "") == SiteCommon.Get(vals, "content", "");
    SiteCommon.SummaryOnCreate(m, "summary", "content")
  }

  /** The values `write` passes on. */
  function WriteVals(vals: map<string, string>): map<string, string> {
    SiteCommon.MetaTitleOnWrite(vals)
  }

  /** The search domain of `get_related_posts`. */
  predicate Related(self: Post, p: Post) {
    self.category.Some? && p.category == self.category && p.id != self.id && p.websitePublished
  }

  function RelatedIn(self: Post, posts: seq<Post>): (r: seq<Post>)
    ensures forall p :: p in r <==> p in posts && Related(self, p)
  {
    if posts == [] then []
    else (if Related(self, posts[0]) then [posts[0]] else []) + RelatedIn(self, posts[1..])
  }

  /** `get_related_posts(limit)` over the posts in search order: nothing
      without a category, otherwise the first `limit` published posts of the
      same category other than the post itself. */
  function RelatedPosts(self: Post, posts: seq<Post>, limit: nat): (r: seq<Post>)
    ensures self.category.None? ==> r == []
    ensures |r| <= limit
    ensures forall p :: p in r ==> p in posts && p.id != self.id && p.websitePublished && p.category == self.category
    ensures |r| < limit ==> forall p :: p in posts && Related(self, p) ==> p in r
    // the first `limit` related posts, in search order
    ensures self.category.Some? ==> r == var m := RelatedIn(self, posts); if |m| <= limit then m else m[..limit]
  {
    if self.category.None? then []
    else
      var m := RelatedIn(self, posts);
      var r := if |m| <= limit then m else m[..limit];
      assert forall p :: p in r ==> p in m;
      r
  }

  /** The related posts of a list are those of its first part, then those of
      the rest: the search keeps the posts' order. */
  lemma {:induction false} RelatedInConcat(self: Post, a: seq<Post>, b: seq<Post>)
    ensures RelatedIn(self, a + b) == RelatedIn(self, a) + RelatedIn(self, b)
  {
    if a != [] {
      assert (a + b)[0] == a[0];
      assert (a + b)[1..] == a[1..] + b;
      RelatedInConcat(self, a[1..], b);
    } else {
      assert a + b == b;
    }
  }

  /** Posts placed after `limit` related ones never displace them. */
  lemma RelatedKeepsEarlier(self: Post, a: seq<Post>, b: seq<Post>, limit: nat)
    requires |RelatedIn(self, a)| >= limit
    ensures RelatedPosts(self, a + b, limit) == RelatedPosts(self, a, limit)
  {
    RelatedInConcat(self, a, b);
    var m := RelatedIn(self, a);
    assert (m + RelatedIn(self, b))[..limit] == m[..limit];
  }

  /** The blog-post table. */
  class PostTable {
    var posts: seq<Post>

    constructor(posts: seq<Post>)
      ensures this.posts == posts
    {
      this.posts := posts;
    }

    /** The position of the post with id `id`. */
    function IndexOf(id: nat): (r: Option<nat>)
      reads this
      ensures r.Some? ==> r.value < |posts| && posts[r.value].id == id
      ensures r.None? ==> forall i :: 0 <= i < |posts| ==> posts[i].id != id
    {
      IndexFrom(posts, id, 0)
    }

    /** `increment_view_count`: one more view, nothing else changes. */
    method IncrementViewCount(i: nat)
      requires i < |posts|
      modifies this
      ensures posts == old(posts)[i := old(posts)[i].(viewCount := old(posts)[i].viewCount + 1)]
    {
      posts := posts[i := posts[i].(viewCount := posts[i].viewCount + 1)];
    }

    /** `like_count += 1` on one post. */
    method IncrementLikeCount(i: nat)
      requires i < |posts|
      modifies this
      ensures posts == old(posts)[i := old(posts)[i].(likeCount := old(posts)[i].likeCount + 1)]
    {
      posts := posts[i := posts[i].(likeCount := posts[i].likeCount + 1)];
    }

    /** `_compute_vietnamese_slug` and `_compute_reading_time` on every
      post. */
    method ComputeFields()
      modifies this
      ensures |posts| == |old(posts)|
      ensures forall i :: 0 <= i < |posts| ==>
        posts[i] == old(posts)[i].(slug := VietSlug.NameSlug(old(posts)[i].name),
                                   readingTime := ReadingTime(old(posts)[i].content))
    {
      var k := 0;
      while k < |posts|
        invariant 0 <= k <= |posts| && |posts| == |old(posts)|
        invariant forall i :: 0 <= i < k ==>
          posts[i] == old(posts)[i].(slug := VietSlug.NameSlug(old(posts)[i].name),
                                     readingTime := ReadingTime(old(posts)[i].content))
        invariant forall i :: k <= i < |posts| ==> posts[i] == old(posts)[i]
      {
        posts := posts[k := posts[k].(slug := VietSlug.NameSlug(posts[k].name),
                                      readingTime := ReadingTime(posts[k].content))];
        k := k + 1;
      }
    }
  }

  /** The first position at or after `from` holding id `id`. */
  function IndexFrom(posts: seq<Post>, id: nat, from: nat): (r: Option<nat>)
    requires from <= |posts|
    ensures r.Some? ==> from <= r.value < |posts| && posts[r.value].id == id
    ensures r.None? ==> forall i :: from <= i < |posts| ==> posts[i].id != id
    decreases |posts| - from
  {
    if from == |posts| then None
    else if posts[from].id == id then Some(from)
    else IndexFrom(posts, id, from + 1)
  }
}
