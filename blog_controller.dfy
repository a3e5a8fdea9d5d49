// The blog pages: the paged listing, the search guard, the detail page
// (which counts a view) and the like counter.
module BlogController {
  import opened Wrappers
  import Text
  import Paging
  import BlogPost

  const PostsPerPage: nat := 12
  const PostNotFound := "Post not found"
  const NotSingleton := "Expected singleton: blog.post"

  /** The domain of `_get_blog_posts`: published, and in the category when
      one is given. */
  predicate Listed(p: BlogPost.Post, category: Option<nat>) {
    p.websitePublished && (category.None? || p.category == category)
  }

  function ListedIn(posts: seq<BlogPost.Post>, category: Option<nat>): (r: seq<BlogPost.Post>)
    ensures forall p :: p in r <==> p in posts && Listed(p, category)
  {
    if posts == [] then []
    else (if Listed(posts[0], category) then [posts[0]] else []) + ListedIn(posts[1..], category)
  }

  /** `blog_listing`: page `page` of the listed posts, in the search order
      the host applies. */
  function BlogListing(posts: seq<BlogPost.Post>, category: Option<nat>, page: nat): (r: Result<Paging.Listing<BlogPost.Post>>)
    ensures r.Err? <==> page == 0
    ensures r.Ok? ==> |r.value.shown| <= PostsPerPage && r.value.pageCount <= 1
    ensures r.Ok? ==> forall p :: p in r.value.shown ==> p in posts && Listed(p, category)
    ensures r.Ok? ==> r.value.shown == Paging.Window(ListedIn(posts, category), (page - 1) * PostsPerPage, PostsPerPage)
    ensures r.Ok? ==> (r.value.hasMore <==> |ListedIn(posts, category)| > (page - 1) * PostsPerPage + PostsPerPage)
  {
    if page == 0 then Paging.Paginate(ListedIn(posts, category), page, PostsPerPage)
    else
      WindowWithin(ListedIn(posts, category), (page - 1) * PostsPerPage, PostsPerPage);
      Paging.Paginate(ListedIn(posts, category), page, PostsPerPage)
  }

  lemma WindowWithin<T>(all: seq<T>, offset: nat, count: nat)
    ensures forall x :: x in Paging.Window(all, offset, count) ==> x in all
  {
    var w := Paging.Window(all, offset, count);
    forall x | x in w ensures x in all {
      var i :| 0 <= i < |w| && w[i] == x;
      assert w[i] == all[offset + i];
    }
  }

  /** `ilike` with a pattern free of `%` and `_`: an ASCII case-insensitive
      substring test. */
  predicate ILike(field: string, search: string) {
    Text.Contains(Text.Lower(field), Text.Lower(search))
  }

  predicate SearchHit(p: BlogPost.Post, search: string) {
    p.websitePublished && (ILike(p.name, search) || ILike(p.content, search) || ILike(p.metaKeywords, search))
  }

  function SearchIn(posts: seq<BlogPost.Post>, search: string): (r: seq<BlogPost.Post>)
    ensures forall p :: p in r <==> p in posts && SearchHit(p, search)
  {
    if posts == [] then []
    else (if SearchHit(posts[0], search) then [posts[0]] else []) + SearchIn(posts[1..], search)
  }

  datatype SearchReply = RedirectToBlog | Found(posts: seq<BlogPost.Post>, count: nat)

  /** `blog_search`: an empty query goes back to `/blog`; otherwise every
      published post whose name, content or keywords contain it. */
  function BlogSearch(posts: seq<BlogPost.Post>, search: string): (r: SearchReply)
    ensures r.RedirectToBlog? <==> search == ""
    ensures r.Found? ==> r.count == |r.posts|
    ensures r.Found? ==> forall p :: p in r.posts <==> p in posts && SearchHit(p, search)
  {
    if search == "" then RedirectToBlog
    else
      var found := SearchIn(posts, search);
      Found(found, |found|)
  }

  /** The search domain of `blog_post_detail`: by id when a (non-zero)
      `post_id` is given, otherwise by slug. */
  predicate DetailHit(p: BlogPost.Post, blogId: nat, postId: nat, slug: string) {
    && p.blogId == blogId
    && p.websitePublished
    && (if postId != 0 then p.id == postId else p.slug == slug)
  }

  /** The positions of the posts the detail search finds. */
  function DetailMatches(posts: seq<BlogPost.Post>, blogId: nat, postId: nat, slug: string): (r: seq<nat>)
    ensures forall k :: 0 <= k < |r| ==> r[k] < |posts| && DetailHit(posts[r[k]], blogId, postId, slug)
    ensures forall i :: 0 <= i < |posts| && DetailHit(posts[i], blogId, postId, slug) ==> i in r
    decreases |posts|
  {
    if posts == [] then []
    else
      var rest := DetailMatches(posts[1..], blogId, postId, slug);
      var shifted := seq(|rest|, k requires 0 <= k < |rest| => rest[k] + 1);
      forall i | 1 <= i < |posts| && DetailHit(posts[i], blogId, postId, slug) ensures i in shifted {
        assert posts[1..][i - 1] == posts[i];
        var k :| 0 <= k < |rest| && rest[k] == i - 1;
        assert shifted[k] == i;
      }
      (if DetailHit(posts[0], blogId, postId, slug) then [0] else []) + shifted
  }

  /** `blog_post_detail`: the route gives a post id or a slug (0 and "" stand
      for none); no match, or a slug shared by several posts, raises. The
      post found gets one more view, and the four related posts come with
      it. */
  method BlogPostDetail(table: BlogPost.PostTable, blogId: nat, postId: nat, slug: string)
    returns (r: Result<(BlogPost.Post, seq<BlogPost.Post>)>)
    modifies table
    ensures var m := DetailMatches(old(table.posts), blogId, postId, slug);
      && (r.Err? <==> (postId == 0 && slug == "") || |m| != 1)
      && (r.Err? ==> table.posts == old(table.posts))
      && (r.Ok? ==>
            var i := m[0];
            var p := old(table.posts)[i].(viewCount := old(table.posts)[i].viewCount + 1);
            && table.posts == old(table.posts)[i := p]
            && r.value.0 == p
            && r.value.1 == BlogPost.RelatedPosts(p, table.posts, 4))
  {
    if postId == 0 && slug == "" {
      return Err(PostNotFound);
    }
    var m := DetailMatches(table.posts, blogId, postId, slug);
    if |m| == 0 {
      return Err(PostNotFound);
    }
    if |m| > 1 {
      return Err(NotSingleton);
    }
    var i := m[0];
    ghost var before := table.posts;
    assert before == old(table.posts);
    table.IncrementViewCount(i);
    var p := table.posts[i];
    assert p == before[i].(viewCount := before[i].viewCount + 1);
    assert table.posts == before[i := p];
    return Ok((p, BlogPost.RelatedPosts(p, table.posts, 4)));
  }

  /** `blog_like_post`: any existing post, published or not, gets one more
      like, and the new count is answered. */
  method BlogLikePost(table: BlogPost.PostTable, postId: nat) returns (r: Result<int>)
    modifies table
    ensures var i := old(table.IndexOf(postId));
      && (r.Err? <==> i.None?)
      && (r.Err? ==> r.error == PostNotFound && table.posts == old(table.posts))
      && (r.Ok? ==>
            && table.posts == old(table.posts)[i.value := old(table.posts)[i.value].(likeCount := old(table.posts)[i.value].likeCount + 1)]
            && r.value == old(table.posts)[i.value].likeCount + 1)
  {
    var i := table.IndexOf(postId);
    if i.None? {
      return Err(PostNotFound);
    }
    table.IncrementLikeCount(i.value);
    return Ok(table.posts[i.value].likeCount);
  }
}
