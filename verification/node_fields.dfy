/** The fields the `onCreateNode` build hook attaches to a markdown node:
    the generated slug, and for blog posts a publication time taken from the
    timestamps table when it has an entry for the file and from git
    otherwise. */
module NodeFields {
  import opened Wrappers

  /** The parts of a node the hook reads. */
  datatype Node = Node(nodeType: string, templateKey: Option<string>)

  /** Where the publication time comes from: the `created` value of a
      timestamps-table entry, or `git log` run on a file. */
  datatype TimeSource = FromTable(created: int) | FromGit(relativePath: string)

  /** The fields created on a markdown node. */
  datatype Fields = Fields(slug: string, gitTime: Option<TimeSource>)

  const MarkdownType: string := "MarkdownRemark"
  const BlogPostTemplate: string := "blog-post"

  /** `slug.replace(/\//g, '')`: every character except `/`, in order. */
  function RemoveSlashes(s: string): (r: string)
    ensures '/' !in r
    ensures |r| <= |s|
    ensures forall c :: c != '/' ==> multiset(r)[c] == multiset(s)[c]
  {
    if |s| == 0 then []
    else
      var rest := RemoveSlashes(s[..|s| - 1]);
      assert s == s[..|s| - 1] + [s[|s| - 1]];
      if s[|s| - 1] == '/' then rest else rest + [s[|s| - 1]]
  }

  /** Removing slashes works piece by piece, so the order of the kept
      characters is that of the input. */
  lemma {:induction false} RemoveSlashesAppend(a: string, b: string)
    ensures RemoveSlashes(a + b) == RemoveSlashes(a) + RemoveSlashes(b)
    decreases |b|
  {
    if |b| > 0 {
      var b' := b[..|b| - 1];
      assert (a + b)[..|a + b| - 1] == a + b';
      assert b[..|b| - 1] == b';
      RemoveSlashesAppend(a, b');
    } else {
      assert a + b == a;
    }
  }

  /** A name without slashes is left as it is, so removing twice is the same
      as removing once. */
  lemma {:induction false} RemoveSlashesNoSlash(s: string)
    requires '/' !in s
    ensures RemoveSlashes(s) == s
  {
    if |s| > 0 {
      RemoveSlashesNoSlash(s[..|s| - 1]);
      assert s == s[..|s| - 1] + [s[|s| - 1]];
    }
  }

  lemma RemoveSlashesIdempotent(s: string)
    ensures RemoveSlashes(RemoveSlashes(s)) == RemoveSlashes(s)
  {
  }

  /** `!template || template === 'blog-post'`. */
  predicate GetsPublicationTime(n: Node) {
    !Truthy(n.templateKey) || n.templateKey.value == BlogPostTemplate
  }

  /** The key looked up in the timestamps table for a generated slug. */
  function TableKey(slug: string): string {
    RemoveSlashes(slug) + ".md"
  }

  /** The file handed to `git log` for a generated slug. */
  function GitPath(slug: string): string {
    "blog/" + RemoveSlashes(slug) + ".md"
  }

  /** The choice of time source: the table entry when the table was loaded
      and holds the file, `git log` otherwise. */
  function ChooseSource(slug: string, timestamps: Option<map<string, int>>): (src: TimeSource)
    ensures src.FromTable? <==> timestamps.Some? && TableKey(slug) in timestamps.value
    ensures src.FromTable? ==> src.created == timestamps.value[TableKey(slug)]
    ensures src.FromGit? ==> src.relativePath == GitPath(slug)
  {
    match timestamps
    case Some(table) =>
      if TableKey(slug) in table then FromTable(table[TableKey(slug)]) else FromGit(GitPath(slug))
    case None => FromGit(GitPath(slug))
  }

  /** The hook: `slug` is what `createFilePath` computed for the node. A node
      of another type gets no fields; a markdown node always gets its slug,
      and a publication time exactly when it is a blog post. */
  function OnCreateNode(n: Node, slug: string, timestamps: Option<map<string, int>>): (r: Option<Fields>)
    ensures r.None? <==> n.nodeType != MarkdownType
    ensures r.Some? ==> r.value.slug == slug
    ensures r.Some? ==> (r.value.gitTime.Some? <==> GetsPublicationTime(n))
    ensures r.Some? && r.value.gitTime.Some? ==>
              match r.value.gitTime.value
              case FromTable(created) =>
                timestamps.Some? && TableKey(slug) in timestamps.value
                && created == timestamps.value[TableKey(slug)]
              case FromGit(path) =>
                (timestamps.None? || TableKey(slug) !in timestamps.value)
                && path == GitPath(slug)
  {
    if n.nodeType != MarkdownType then None
    else if GetsPublicationTime(n) then Some(Fields(slug, Some(ChooseSource(slug, timestamps))))
    else Some(Fields(slug, None))
  }

  /** The value stored in the `gitTime` field, given the date formatter for
      table entries and the `git log` runner. */
  function Resolve(src: TimeSource, formatUnix: int -> string, gitLog: string -> string): string {
    match src
    case FromTable(created) => formatUnix(created)
    case FromGit(path) => gitLog(path)
  }

  /** With a table entry for the file, git is never consulted: the stored
      time is the same whatever `git log` would answer. */
  lemma TableShadowsGit(slug: string, table: map<string, int>, formatUnix: int -> string,
                        gitLog1: string -> string, gitLog2: string -> string)
    requires TableKey(slug) in table
    ensures Resolve(ChooseSource(slug, Some(table)), formatUnix, gitLog1)
         == Resolve(ChooseSource(slug, Some(table)), formatUnix, gitLog2)
         == formatUnix(table[TableKey(slug)])
  {
  }

  /** Without an entry, the time is what `git log` reports for
      `blog/<file>.md`, and the formatter is never used. */
  lemma GitWithoutEntry(slug: string, timestamps: Option<map<string, int>>,
                        formatUnix1: int -> string, formatUnix2: int -> string, gitLog: string -> string)
    requires timestamps.None? || TableKey(slug) !in timestamps.value
    ensures Resolve(ChooseSource(slug, timestamps), formatUnix1, gitLog)
         == Resolve(ChooseSource(slug, timestamps), formatUnix2, gitLog)
         == gitLog(GitPath(slug))
  {
  }

  /** A missing timestamps file behaves like an empty table. */
  lemma MissingTableIsEmpty(slug: string)
    ensures ChooseSource(slug, None) == ChooseSource(slug, Some(map[]))
  {
  }
}
