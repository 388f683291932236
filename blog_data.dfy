/**
 * The landing page's blog queries over the fixed list of posts: featured posts, a post
 * by slug, posts by category, the category list and the "related posts" panel.
 * The post list is a parameter `posts` (the module constant `blogPosts`).
 */
module BlogData {
  import opened Common

  /** A post, reduced to what the queries read; `featured` is an optional flag. */
  datatype BlogPost = BlogPost(slug: string, title: string, category: string, publishedAt: string, featured: Option<bool>)

  /** The pseudo-category that stands for every post. */
  const ALL_CATEGORIES := "Všetky"

  function IsFeatured(p: BlogPost): bool {
    p.featured == Some(true)
  }

  function SlugIs(slug: string): BlogPost -> bool {
    (p: BlogPost) => p.slug == slug
  }

  function InCategory(category: string): BlogPost -> bool {
    (p: BlogPost) => p.category == category
  }

  /** `getFeaturedPosts`: the posts whose `featured` flag is set. */
  function FeaturedPosts(posts: seq<BlogPost>): (r: seq<BlogPost>)
    ensures forall p :: p in r <==> p in posts && IsFeatured(p)
    ensures multiset(r) <= multiset(posts)
  {
    FilterMembers(posts, IsFeatured);
    FilterSub(posts, IsFeatured);
    Filter(posts, IsFeatured)
  }

  /** The featured posts of a longer list are those of its parts, in the same order. */
  lemma FeaturedInOrder(a: seq<BlogPost>, b: seq<BlogPost>)
    ensures FeaturedPosts(a + b) == FeaturedPosts(a) + FeaturedPosts(b)
  {
    FilterConcat(a, b, IsFeatured);
  }

  /** `getBlogPostBySlug`: the first post with the slug, or none. */
  function PostBySlug(posts: seq<BlogPost>, slug: string): (r: Option<BlogPost>)
    ensures r.None? <==> forall j :: 0 <= j < |posts| ==> posts[j].slug != slug
    ensures r.Some? ==> exists i :: 0 <= i < |posts| && posts[i] == r.value && r.value.slug == slug &&
                                    forall j :: 0 <= j < i ==> posts[j].slug != slug
  {
    Find(posts, SlugIs(slug))
  }

  /** `getBlogPostsByCategory`: every post for "Všetky", else the posts of that category. */
  function PostsByCategory(posts: seq<BlogPost>, category: string): (r: seq<BlogPost>)
    ensures category == ALL_CATEGORIES ==> r == posts
    ensures category != ALL_CATEGORIES ==> forall p :: p in r <==> p in posts && p.category == category
    ensures multiset(r) <= multiset(posts)
  {
    if category == ALL_CATEGORIES then posts
    else
      FilterMembers(posts, InCategory(category));
      FilterSub(posts, InCategory(category));
      Filter(posts, InCategory(category))
  }

  /**
   * For a named category, the posts of a longer list are those of its parts, in the same
   * order, and a single post is kept once exactly when it has that category; together
   * these fix the result, its order and its multiplicities.
   */
  lemma CategoryInOrder(a: seq<BlogPost>, b: seq<BlogPost>, p: BlogPost, category: string)
    requires category != ALL_CATEGORIES
    ensures PostsByCategory(a + b, category) == PostsByCategory(a, category) + PostsByCategory(b, category)
    ensures PostsByCategory([p], category) == if p.category == category then [p] else []
  {
    FilterConcat(a, b, InCategory(category));
  }

  // ---------------------------------------------------------------- categories

  /** `posts.map((post) => post.category)`. */
  function Categories(posts: seq<BlogPost>): (cs: seq<string>)
    ensures |cs| == |posts| && forall i :: 0 <= i < |posts| ==> cs[i] == posts[i].category
  {
    if posts == [] then [] else [posts[0].category] + Categories(posts[1..])
  }

  /** `Array.from(new Set(s))`: each value once, in the order of its first occurrence. */
  function Distinct(s: seq<string>): (r: seq<string>)
    ensures forall x :: x in r <==> x in s
  {
    if s == [] then []
    else
      var d := Distinct(s[..|s| - 1]);
      assert s == s[..|s| - 1] + [s[|s| - 1]];
      if s[|s| - 1] in d then d else d + [s[|s| - 1]]
  }

  predicate NoDuplicates(s: seq<string>) {
    forall i, j :: 0 <= i < j < |s| ==> s[i] != s[j]
  }

  /** `s.indexOf(x)` for a member: the position of its first occurrence. */
  function IndexOf(s: seq<string>, x: string): (i: nat)
    requires x in s
    ensures i < |s| && s[i] == x && forall j :: 0 <= j < i ==> s[j] != x
  {
    if s[0] == x then 0 else 1 + IndexOf(s[1..], x)
  }

  /** The first occurrence of a member of a prefix lies in the prefix. */
  lemma {:induction false} IndexOfPrefix(s: seq<string>, k: nat, x: string)
    requires k <= |s| && x in s[..k]
    ensures IndexOf(s, x) == IndexOf(s[..k], x)
  {
    var i := IndexOf(s[..k], x);
    assert s[i] == x;
    assert forall j :: 0 <= j < i ==> s[j] == s[..k][j];
    var t := IndexOf(s, x);
    assert t <= i;
    assert s[..k][t] == x;
  }

  /** The set keeps each value once, and lists values by their first occurrence. */
  lemma {:induction false} DistinctOrder(s: seq<string>)
    ensures NoDuplicates(Distinct(s))
    ensures forall i, j :: 0 <= i < j < |Distinct(s)| ==> IndexOf(s, Distinct(s)[i]) < IndexOf(s, Distinct(s)[j])
  {
    if s != [] {
      var init := s[..|s| - 1];
      var x := s[|s| - 1];
      var d := Distinct(init);
      DistinctOrder(init);
      assert s == init + [x];
      forall y | y in d
        ensures IndexOf(s, y) == IndexOf(init, y)
      {
        assert s[..|s| - 1] == init;
        IndexOfPrefix(s, |s| - 1, y);
      }
      if x !in d {
        var r := d + [x];
        assert x !in init;
        assert IndexOf(s, x) == |s| - 1;
        forall i, j | 0 <= i < j < |r|
          ensures IndexOf(s, r[i]) < IndexOf(s, r[j])
        {
          if j < |d| {
            assert r[i] == d[i] && r[j] == d[j];
          } else {
            assert r[i] == d[i] && d[i] in init;
          }
        }
      }
    }
  }

  /** `getAllCategories`: "Všetky" first, then every post category once, in first-occurrence order. */
  function AllCategories(posts: seq<BlogPost>): (r: seq<string>)
    ensures |r| >= 1 && r[0] == ALL_CATEGORIES
    ensures forall c :: c in r[1..] <==> exists p :: p in posts && p.category == c
  {
    var cs := Categories(posts);
    assert forall c :: c in cs <==> exists p :: p in posts && p.category == c by {
      forall c | c in cs ensures exists p :: p in posts && p.category == c {
        var i :| 0 <= i < |cs| && cs[i] == c;
        assert posts[i] in posts;
      }
      forall c | exists p :: p in posts && p.category == c ensures c in cs {
        var p :| p in posts && p.category == c;
        var i :| 0 <= i < |posts| && posts[i] == p;
        assert cs[i] == c;
      }
    }
    var r := [ALL_CATEGORIES] + Distinct(cs);
    assert r[1..] == Distinct(cs);
    r
  }

  /** The categories after "Všetky" are distinct and ordered by where they first appear among the posts. */
  lemma CategoriesOrdered(posts: seq<BlogPost>)
    ensures var r := AllCategories(posts)[1..]; var cs := Categories(posts);
      NoDuplicates(r) && forall i, j :: 0 <= i < j < |r| ==> IndexOf(cs, r[i]) < IndexOf(cs, r[j])
  {
    var cs := Categories(posts);
    assert AllCategories(posts)[1..] == Distinct(cs);
    DistinctOrder(cs);
  }

  // ---------------------------------------------------------------- related posts

  function SameCategoryOther(slug: string, category: string): BlogPost -> bool {
    (p: BlogPost) => p.slug != slug && p.category == category
  }

  function OtherCategory(slug: string, category: string): BlogPost -> bool {
    (p: BlogPost) => p.slug != slug && p.category != category
  }

  /**
   * `getRelatedPosts`: nothing for an unknown slug; otherwise up to `limit` other posts of
   * the same category, topped up from the other categories when there are fewer than `limit`.
   * `slice` reads a negative limit from the end, as JavaScript does.
   */
  function RelatedPosts(posts: seq<BlogPost>, currentSlug: string, limit: int): (r: seq<BlogPost>)
    ensures PostBySlug(posts, currentSlug).None? ==> r == []
    ensures forall p :: p in r ==> p in posts && p.slug != currentSlug
    ensures limit >= 0 ==> |r| <= limit
  {
    var current := PostBySlug(posts, currentSlug);
    if current.None? then []
    else
      var category := current.value.category;
      var same := Filter(posts, SameCategoryOther(currentSlug, category));
      var related := Slice(same, 0, limit);
      FilterMembers(posts, SameCategoryOther(currentSlug, category));
      SliceMembers(same, 0, limit);
      if |related| < limit then
        var other := Filter(posts, OtherCategory(currentSlug, category));
        FilterMembers(posts, OtherCategory(currentSlug, category));
        SliceMembers(other, 0, limit - |related|);
        SlicePrefix(other, limit - |related|);
        related + Slice(other, 0, limit - |related|)
      else
        related
  }

  lemma SliceMembers<T>(s: seq<T>, start: int, end: int)
    ensures forall x :: x in Slice(s, start, end) ==> x in s
  {
    var a := ClampIndex(start, |s|);
    var b := ClampIndex(end, |s|);
    if a < b {
      forall x | x in s[a..b] ensures x in s {
        var i :| a <= i < b && s[i] == x;
      }
    }
  }

  /** Posts of the current post's category come before any post of another category. */
  lemma SameCategoryFirst(posts: seq<BlogPost>, currentSlug: string, limit: int)
    requires PostBySlug(posts, currentSlug).Some?
    ensures var r := RelatedPosts(posts, currentSlug, limit);
            var category := PostBySlug(posts, currentSlug).value.category;
      forall i, j :: 0 <= i < j < |r| && r[j].category == category ==> r[i].category == category
  {
    var category := PostBySlug(posts, currentSlug).value.category;
    var same := Filter(posts, SameCategoryOther(currentSlug, category));
    var related := Slice(same, 0, limit);
    FilterMembers(posts, SameCategoryOther(currentSlug, category));
    SliceMembers(same, 0, limit);
    assert forall k :: 0 <= k < |related| ==> related[k] in related;
    if |related| < limit {
      var other := Filter(posts, OtherCategory(currentSlug, category));
      var extra := Slice(other, 0, limit - |related|);
      FilterMembers(posts, OtherCategory(currentSlug, category));
      SliceMembers(other, 0, limit - |related|);
      var r := related + extra;
      assert forall k :: |related| <= k < |r| ==> r[k] == extra[k - |related|] && r[k] in extra;
      forall i, j | 0 <= i < j < |r| && r[j].category == category
        ensures r[i].category == category
      {
        assert r[i] == related[i];
      }
    }
  }

  /** When the category alone has at least `limit` other posts, only that category is shown. */
  lemma EnoughSameCategory(posts: seq<BlogPost>, currentSlug: string, limit: int)
    requires PostBySlug(posts, currentSlug).Some? && limit >= 0
    requires |Filter(posts, SameCategoryOther(currentSlug, PostBySlug(posts, currentSlug).value.category))| >= limit
    ensures forall p :: p in RelatedPosts(posts, currentSlug, limit) ==>
      p.category == PostBySlug(posts, currentSlug).value.category
  {
    var category := PostBySlug(posts, currentSlug).value.category;
    var same := Filter(posts, SameCategoryOther(currentSlug, category));
    SlicePrefix(same, limit);
    FilterMembers(posts, SameCategoryOther(currentSlug, category));
    SliceMembers(same, 0, limit);
  }

  /**
   * What the related posts are: for a known slug and a non-negative limit, the first `limit`
   * of the category's other posts followed by the other categories' posts, each in list
   * order; a negative limit never tops up, so only the category's posts are sliced.
   */
  lemma RelatedPostsMeaning(posts: seq<BlogPost>, currentSlug: string, limit: int)
    requires PostBySlug(posts, currentSlug).Some?
    ensures var category := PostBySlug(posts, currentSlug).value.category;
            var same := Filter(posts, SameCategoryOther(currentSlug, category));
            var other := Filter(posts, OtherCategory(currentSlug, category));
            var r := RelatedPosts(posts, currentSlug, limit);
      (limit >= 0 ==> r == Slice(same + other, 0, limit)) &&
      (limit < 0 ==> r == Slice(same, 0, limit))
  {
    var category := PostBySlug(posts, currentSlug).value.category;
    var same := Filter(posts, SameCategoryOther(currentSlug, category));
    var other := Filter(posts, OtherCategory(currentSlug, category));
    if limit >= 0 {
      SlicePrefix(same, limit);
      SlicePrefix(same + other, limit);
      if |same| < limit {
        SlicePrefix(other, limit - |same|);
        if limit <= |same| + |other| {
          assert (same + other)[..limit] == same + other[..limit - |same|];
        } else {
          assert (same + other)[..|same + other|] == same + other;
        }
      } else {
        assert (same + other)[..limit] == same[..limit];
      }
    }
  }
}
