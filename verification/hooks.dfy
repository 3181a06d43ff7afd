/** Facts that tie the two build hooks together, and small worked plans. */
module Hooks {
  import opened Wrappers
  import opened Decimal
  import opened FirstOccurrence
  import opened Planner
  import opened NodeFields

  /** A markdown post gets a publication time in `onCreateNode` exactly when
      `createPages` renders it with the `blog-post` template: both hooks
      treat a missing and an empty `templateKey` alike. */
  lemma PublicationTimeIffBlogTemplate(post: Post)
    ensures GetsPublicationTime(Node(MarkdownType, post.templateKey))
        <==> TemplateName(post) == DefaultTemplate
  {
  }

  /** Seven posts: one extra index page, `/2`, showing posts 5 and 6. */
  lemma SevenPosts()
    ensures NumPages(7) == 2
    ensures IndexPages(7) == [Page("/2", IndexComponent, IndexContext(5, 5, 2, 2))]
  {
    var ix := IndexPages(7);
    assert |ix| == 1 && ix[0] == IndexPage(1, 2);
    assert Show(2) == "2";
    assert "/" + Show(2) == "/2";
  }

  /** Repeated tags get one page each, in first-occurrence order. */
  lemma RepeatedTags()
    ensures Distinct(["go", "dafny", "go", "web"]) == ["go", "dafny", "web"]
  {
    var arr := ["go", "dafny", "go", "web"];
    var r := ["go", "dafny", "web"];
    assert IndexOf(arr, "go") == 0;
    assert IndexOf(arr, "dafny") == 1;
    assert IndexOf(arr, "web") == 3;
    DistinctCharacterized(arr, r);
  }
}
