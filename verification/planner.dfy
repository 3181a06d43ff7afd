/** The page plan that the `createPages` build hook hands to the framework:
    paginated index pages, one page per post, one page per distinct tag.
    Each `createPage` call becomes one element appended to the plan. */
module Planner {
  import opened Wrappers
  import opened Decimal
  import opened FirstOccurrence

  /** One markdown post as the page query returns it: `fields.slug`,
      and the optional front-matter `slug`, `tags` and `templateKey`. */
  datatype Post = Post(
    fieldsSlug: string,
    fmSlug: Option<string>,
    tags: Option<seq<string>>,
    templateKey: Option<string>
  )

  /** The module that renders a page. */
  datatype Component =
    | IndexComponent               // src/pages/index.js
    | PostTemplate(name: string)   // src/templates/<name>.js
    | TagsTemplate                 // src/templates/tags.js

  /** The data a page receives as its page context. */
  datatype Context =
    | IndexContext(limit: nat, skip: nat, numPages: nat, currentPage: nat)
    | PostContext(slug: string, tags: Option<seq<string>>, previous: Option<Post>, next: Option<Post>)
    | TagContext(tag: string)

  /** The argument of one `createPage` call. */
  datatype Page = Page(path: string, component: Component, context: Context)

  const PostsPerPage: nat := 5
  const DefaultTemplate: string := "blog-post"
  const TagsPrefix: string := "/tags/"

  // ---------------------------------------------------------------------------
  // Paginated index pages

  /** `Math.ceil(n / postsPerPage)`: the least number of pages that hold `n`
      posts. */
  function NumPages(n: nat): (k: nat)
    ensures k * PostsPerPage >= n
    ensures k > 0 ==> (k - 1) * PostsPerPage < n
  {
    (n + PostsPerPage - 1) / PostsPerPage
  }

  /** The index page created at loop position `i`. */
  function IndexPage(i: nat, numPages: nat): Page {
    Page("/" + Show(i + 1), IndexComponent,
         IndexContext(PostsPerPage, i * PostsPerPage, numPages, i + 1))
  }

  /** The loop over positions `i .. numPages-1`, where position 0 creates
      nothing (the root route is the index page itself). */
  function IndexPagesFrom(i: nat, numPages: nat): (r: seq<Page>)
    ensures |r| == if numPages <= i || numPages == 0 then 0
                   else numPages - (if i == 0 then 1 else i)
    ensures forall j :: 0 <= j < |r| ==>
              r[j] == IndexPage((if i == 0 then 1 else i) + j, numPages)
    decreases numPages - i
  {
    if i >= numPages then []
    else (if i == 0 then [] else [IndexPage(i, numPages)]) + IndexPagesFrom(i + 1, numPages)
  }

  function IndexPages(n: nat): seq<Page> {
    IndexPagesFrom(0, NumPages(n))
  }

  /** What each paginated index page carries: pages 2 .. numPages, in order,
      each with the common page count, the page size as limit and an offset
      that starts inside the post list. */
  lemma IndexPagesPlan(n: nat)
    ensures |IndexPages(n)| == if n == 0 then 0 else NumPages(n) - 1
    ensures n <= PostsPerPage ==> IndexPages(n) == []
    ensures forall j :: 0 <= j < |IndexPages(n)| ==>
              var p := IndexPages(n)[j];
              && p.component == IndexComponent
              && p.context.IndexContext?
              && p.context.currentPage == j + 2
              && p.path == "/" + Show(p.context.currentPage)
              && p.context.limit == PostsPerPage
              && p.context.skip == (p.context.currentPage - 1) * p.context.limit
              && p.context.skip < n
              && p.context.numPages == NumPages(n)
  {
  }

  /** No two index pages share a route. */
  lemma IndexPathsDistinct(n: nat)
    ensures forall a, b :: 0 <= a < b < |IndexPages(n)| ==>
              IndexPages(n)[a].path != IndexPages(n)[b].path
  {
    IndexPagesPlan(n);
    forall a, b | 0 <= a < b < |IndexPages(n)|
      ensures IndexPages(n)[a].path != IndexPages(n)[b].path
    {
      var pa, pb := IndexPages(n)[a].path, IndexPages(n)[b].path;
      ShowInjective(a + 2, b + 2);
      assert pa[1..] == Show(a + 2);
      assert pb[1..] == Show(b + 2);
    }
  }

  // ---------------------------------------------------------------------------
  // Post pages

  /** `frontmatter.templateKey || 'blog-post'`. */
  function TemplateName(p: Post): string {
    OrElse(p.templateKey, DefaultTemplate)
  }

  /** `frontmatter.slug || fields.slug`. */
  function Route(p: Post): string {
    OrElse(p.fmSlug, p.fieldsSlug)
  }

  /** The page created for the post at index `k`: `previous` is the following
      post in the list and `next` the preceding one. */
  function PostPage(posts: seq<Post>, k: nat): Page
    requires k < |posts|
  {
    var previous := if k == |posts| - 1 then None else Some(posts[k + 1]);
    var next := if k == 0 then None else Some(posts[k - 1]);
    Page(Route(posts[k]), PostTemplate(TemplateName(posts[k])),
         PostContext(posts[k].fieldsSlug, posts[k].tags, previous, next))
  }

  function PostPages(posts: seq<Post>): (r: seq<Page>)
    ensures |r| == |posts|
  {
    seq(|posts|, k requires 0 <= k < |posts| => PostPage(posts, k))
  }

  /** One page per post, in input order: the template falls back to
      `blog-post`, the route to the generated slug, and the context always
      carries the generated slug and the post's own tag list. */
  lemma PostPagesPlan(posts: seq<Post>)
    ensures |PostPages(posts)| == |posts|
    ensures forall k :: 0 <= k < |posts| ==>
              var p := PostPages(posts)[k];
              && p.context.PostContext?
              && p.context.slug == posts[k].fieldsSlug
              && p.context.tags == posts[k].tags
              && (Truthy(posts[k].fmSlug) ==> p.path == posts[k].fmSlug.value)
              && (!Truthy(posts[k].fmSlug) ==> p.path == posts[k].fieldsSlug)
              && (Truthy(posts[k].templateKey) ==> p.component == PostTemplate(posts[k].templateKey.value))
              && (!Truthy(posts[k].templateKey) ==> p.component == PostTemplate(DefaultTemplate))
  {
  }

  /** The neighbours: the first post has no `next`, the last no `previous`,
      and adjacent posts point at each other. */
  lemma PostNeighbours(posts: seq<Post>)
    ensures |posts| > 0 ==> PostPages(posts)[0].context.next == None
    ensures |posts| > 0 ==> PostPages(posts)[|posts| - 1].context.previous == None
    ensures forall k :: 0 <= k < |posts| - 1 ==>
              && PostPages(posts)[k].context.previous == Some(posts[k + 1])
              && PostPages(posts)[k + 1].context.next == Some(posts[k])
    ensures forall k :: 0 <= k < |posts| ==>
              (PostPages(posts)[k].context.previous.Some? <==> k < |posts| - 1) &&
              (PostPages(posts)[k].context.next.Some? <==> k > 0)
  {
  }

  // ---------------------------------------------------------------------------
  // Tag pages

  /** The tags of one post; a post without tags contributes nothing. */
  function TagsOf(p: Post): seq<string> {
    match p.tags
    case Some(ts) => ts
    case None => []
  }

  /** `tags = tags.concat(frontmatter.tags)` over the posts in order. */
  function AllTags(posts: seq<Post>): (r: seq<string>)
    ensures forall t :: t in r <==> exists k :: 0 <= k < |posts| && t in TagsOf(posts[k])
  {
    if |posts| == 0 then []
    else
      var r := AllTags(posts[..|posts| - 1]) + TagsOf(posts[|posts| - 1]);
      assert forall k :: 0 <= k < |posts| - 1 ==> posts[..|posts| - 1][k] == posts[k];
      r
  }

  function TagPage(tag: string): Page {
    Page(TagsPrefix + tag + "/", TagsTemplate, TagContext(tag))
  }

  function TagPages(tags: seq<string>): (r: seq<Page>)
    ensures |r| == |tags|
  {
    seq(|tags|, i requires 0 <= i < |tags| => TagPage(tags[i]))
  }

  /** The tag-page route keeps the tag verbatim, so different tags get
      different routes. */
  lemma TagRouteInjective(a: string, b: string)
    ensures TagPage(a).path == TagPage(b).path <==> a == b
  {
    var pa, pb := TagPage(a).path, TagPage(b).path;
    if pa == pb {
      assert a == pa[|TagsPrefix|..|pa| - 1];
      assert b == pb[|TagsPrefix|..|pb| - 1];
    }
  }

  // ---------------------------------------------------------------------------
  // The whole plan

  /** Everything `createPages` creates, in creation order. */
  function Plan(posts: seq<Post>): (r: seq<Page>)
    ensures |r| == |IndexPages(|posts|)| + |posts| + |Distinct(AllTags(posts))|
  {
    IndexPages(|posts|) + PostPages(posts) + TagPages(Distinct(AllTags(posts)))
  }

  /** The tag pages of the plan: one per tag that some post carries, each
      tag once, ordered by where it first appears when the posts are scanned
      in order, each routed to `/tags/<tag>/` with the tag as its context. */
  lemma PlanTagPages(posts: seq<Post>)
    ensures var base := |IndexPages(|posts|)| + |posts|;
            var tags := Distinct(AllTags(posts));
            && |Plan(posts)| == base + |tags|
            && NoDuplicates(tags)
            && (forall t :: t in tags <==> exists k :: 0 <= k < |posts| && t in TagsOf(posts[k]))
            && (forall i, j :: 0 <= i < j < |tags| ==>
                  IndexOf(AllTags(posts), tags[i]) < IndexOf(AllTags(posts), tags[j]))
            && (forall i :: 0 <= i < |tags| ==>
                  && Plan(posts)[base + i].path == TagsPrefix + tags[i] + "/"
                  && Plan(posts)[base + i].component == TagsTemplate
                  && Plan(posts)[base + i].context == TagContext(tags[i]))
  {
    DistinctMembers(AllTags(posts));
    DistinctOrder(AllTags(posts));
  }

  /** The plan starts with the index pages, followed by the post pages. */
  lemma PlanLayout(posts: seq<Post>)
    ensures var ix := IndexPages(|posts|);
            && Plan(posts)[..|ix|] == ix
            && Plan(posts)[|ix|..|ix| + |posts|] == PostPages(posts)
  {
  }

  /** No two tag pages of the plan share a route, and no tag page shares a
      route with an index page: index routes are `/` and digits, tag routes
      continue with `tags/`. */
  lemma PlanTagRoutesDistinct(posts: seq<Post>)
    ensures var base := |IndexPages(|posts|)| + |posts|;
            forall a, b :: base <= a < b < |Plan(posts)| ==> Plan(posts)[a].path != Plan(posts)[b].path
    ensures var base := |IndexPages(|posts|)| + |posts|;
            forall a, b :: 0 <= a < |IndexPages(|posts|)| && base <= b < |Plan(posts)| ==>
              Plan(posts)[a].path != Plan(posts)[b].path
  {
    var base := |IndexPages(|posts|)| + |posts|;
    var tags := Distinct(AllTags(posts));
    var plan := Plan(posts);
    DistinctMembers(AllTags(posts));
    IndexPagesPlan(|posts|);
    forall a, b | base <= a < b < |plan|
      ensures plan[a].path != plan[b].path
    {
      TagRouteInjective(tags[a - base], tags[b - base]);
    }
    forall a, b | 0 <= a < |IndexPages(|posts|)| && base <= b < |plan|
      ensures plan[a].path != plan[b].path
    {
      var s := Show(a + 2);
      assert plan[a].path == "/" + s;
      assert plan[a].path[1] == s[0];
      assert IsDigit(s[0]);
      assert plan[b].path[1] == 't';
    }
  }
}

/** The hook in its own shape: index pages, then post pages while a tag list
    is accumulated, then one page per tag kept by the `indexOf` filter; proved
    to build exactly `Planner.Plan`. */
module CreatePagesHook {
  import opened Planner
  import opened FirstOccurrence

  /** The loop that creates the paginated index pages. */
  method CreateIndexPages(n: nat) returns (pages: seq<Page>)
    ensures pages == IndexPages(n)
  {
    pages := [];
    var numPages := NumPages(n);
    var i := 0;
    while i < numPages
      invariant pages + IndexPagesFrom(i, numPages) == IndexPages(n)
    {
      if i != 0 {
        pages := pages + [IndexPage(i, numPages)];
      }
      i := i + 1;
    }
  }

  /** The loop over the posts: one page per post, while the tag lists are
      concatenated. */
  method CreatePostPages(posts: seq<Post>) returns (pages: seq<Page>, tags: seq<string>)
    ensures pages == PostPages(posts)
    ensures tags == AllTags(posts)
  {
    pages, tags := [], [];
    var k := 0;
    while k < |posts|
      invariant k <= |posts|
      invariant pages == PostPages(posts)[..k]
      invariant tags == AllTags(posts[..k])
    {
      assert posts[..k + 1][..k] == posts[..k];
      assert PostPages(posts)[..k + 1] == PostPages(posts)[..k] + [PostPage(posts, k)];
      tags := tags + TagsOf(posts[k]);
      pages := pages + [PostPage(posts, k)];
      k := k + 1;
    }
    assert posts[..k] == posts;
  }

  /** The loop over the tags kept by the `indexOf` filter. */
  method CreateTagPages(tags: seq<string>) returns (pages: seq<Page>)
    ensures pages == TagPages(Distinct(tags))
  {
    var unique := Distinct(tags);
    pages := [];
    var j := 0;
    while j < |unique|
      invariant j <= |unique|
      invariant pages == TagPages(unique)[..j]
    {
      assert TagPages(unique)[..j + 1] == TagPages(unique)[..j] + [TagPage(unique[j])];
      pages := pages + [TagPage(unique[j])];
      j := j + 1;
    }
  }

  method CreatePages(posts: seq<Post>) returns (pages: seq<Page>)
    ensures pages == Plan(posts)
  {
    var indexPages := CreateIndexPages(|posts|);
    var postPages, tags := CreatePostPages(posts);
    var tagPages := CreateTagPages(tags);
    pages := indexPages + postPages + tagPages;
  }
}
