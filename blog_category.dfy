// Lục Khí blog categories (`luc_khi.blog.category`): the published-post
// count, the meta-title defaults and the drop-map slug.
module BlogCategory {
  import opened Wrappers
  import SiteCommon
  import VietSlug
  import BlogPost

  /** `post_ids`: the posts whose category is `id`, in order. */
  function PostsOf(id: nat, posts: seq<BlogPost.Post>): (r: seq<BlogPost.Post>)
    ensures |r| <= |posts|
    ensures forall p :: p in r <==> p in posts && p.category == Some(id)
  {
    if posts == [] then []
    else (if posts[0].category == Some(id) then [posts[0]] else []) + PostsOf(id, posts[1..])
  }

  /** The number of published posts in `posts`. */
  function CountPublished(posts: seq<BlogPost.Post>): (r: nat)
    ensures r <= |posts|
    ensures r == |posts| <==> forall p :: p in posts ==> p.websitePublished
    ensures r == 0 <==> forall p :: p in posts ==> !p.websitePublished
  {
    if posts == [] then 0
    else
      assert forall p :: p in posts <==> p == posts[0] || p in posts[1..];
      (if posts[0].websitePublished then 1 else 0) + CountPublished(posts[1..])
  }

  /** `_compute_post_count`: `len(post_ids.filtered('website_published'))`. */
  function PostCount(id: nat, posts: seq<BlogPost.Post>): (r: nat)
    ensures r <= |PostsOf(id, posts)|
    ensures r == |PostsOf(id, posts)| <==> forall p :: p in posts && p.category == Some(id) ==> p.websitePublished
    ensures r == 0 <==> forall p :: p in posts && p.category == Some(id) ==> !p.websitePublished
  {
    CountPublished(PostsOf(id, posts))
  }

  /** A new post moves the count of its own category only, and only when it
      is published. */
  lemma {:induction false} PostCountAdd(id: nat, posts: seq<BlogPost.Post>, p: BlogPost.Post)
    ensures PostCount(id, posts + [p]) ==
      PostCount(id, posts) + (if p.category == Some(id) && p.websitePublished then 1 else 0)
    decreases |posts|
  {
    if posts == [] {
      assert PostsOf(id, [p]) == (if p.category == Some(id) then [p] else []) + PostsOf(id, []);
    } else {
      assert (posts + [p])[1..] == posts[1..] + [p];
      PostCountAdd(id, posts[1..], p);
      var head := if posts[0].category == Some(id) then [posts[0]] else [];
      assert PostsOf(id, posts + [p]) == head + PostsOf(id, posts[1..] + [p]);
      CountPublishedConcat(head, PostsOf(id, posts[1..] + [p]));
      CountPublishedConcat(head, PostsOf(id, posts[1..]));
    }
  }

  lemma CountPublishedConcat(a: seq<BlogPost.Post>, b: seq<BlogPost.Post>)
    requires |a| <= 1
    ensures CountPublished(a + b) == CountPublished(a) + CountPublished(b)
  {
    if a != [] {
      assert (a + b)[0] == a[0] && (a + b)[1..] == b;
      assert a[1..] == [];
    } else {
      assert a + b == b;
    }
  }

  /** The values `create` passes on. */
  function CreateVals(vals: map<string, string>): map<string, string> {
    SiteCommon.MetaTitleOnCreate(vals)
  }

  /** The values `write` passes on. */
  function WriteVals(vals: map<string, string>): map<string, string> {
    SiteCommon.MetaTitleOnWrite(vals)
  }

  /** `get_vietnamese_slug(text)`. */
  function CategorySlug(text: string): string {
    VietSlug.NameSlug(text)
  }
}
