# Page planning of the blog's build hooks

This project models the two build hooks in `gatsby-node.js` of a static
blog. It proves properties of the model in Dafny.

- `createPages` reads every markdown post and creates pages. It creates
  paginated index pages `/2 .. /numPages`. It creates one page per post, which
  links to its neighbouring posts as `previous` and `next`. It also creates one
  page per distinct tag.
- `onCreateNode` attaches fields to every markdown node. Each node gets its
  generated slug. Blog posts also get a publication time. That time comes from
  the timestamps table when the table has an entry for the file, and from
  `git log` otherwise.

The planner is a pure function from the list of posts to the list of pages:
each `createPage` call appends one `Page` to the result (`Planner.Plan`).
`CreatePagesHook.CreatePages` keeps the hook's own shape: a loop of index
pages, a loop of post pages that accumulates tags, and a loop of tag pages over
the `indexOf`-filtered tags. Each loop is its own method, proved to build its
part of the plan, so the whole is exactly `Planner.Plan`.
`FirstOccurrence.DistinctBySeen` removes duplicates with a set of tags already
seen instead, and is proved to keep exactly what the `indexOf` filter keeps.
`onCreateNode` becomes `NodeFields.OnCreateNode`. It returns the fields to
create, or nothing for a node it ignores. The publication-time source is a
`TimeSource` value. The date formatter and the `git log` runner are function
parameters of `NodeFields.Resolve`.

JavaScript truthiness is modelled explicitly. A missing field and an empty
string are both falsy (`Wrappers.Truthy`). So `templateKey || 'blog-post'`,
`frontmatter.slug || fields.slug` and `!template` all treat `""` like an
absent field.

Files:

- `wrappers.dfy`: `Option` and string truthiness.
- `decimal.dfy`: decimal numerals for the `/<n>` routes.
- `first_occurrence.dfy`: the `indexOf`-based de-duplication of tags.
- `planner.dfy`: posts, pages and the plan, plus the loop version of the hook.
- `node_fields.dfy`: `onCreateNode`.
- `hooks.dfy`: a lemma linking the two hooks, and two worked plans.

## Model

| member | source | states |
|---|---|---|
| `Wrappers.OrElse` | gatsby-node.js:83-85 | the JavaScript or-fallback of a string field yields the field when it is a non-empty string and the fallback when it is missing or empty |
| `Decimal.Show` | gatsby-node.js:64 | the numeral interpolated into an index route is non-empty, all digits, has no leading zero for positive numbers, and is one digit exactly for numbers below ten |
| `Decimal.ParseShow` | gatsby-node.js:64 | reading a rendered page number back as decimal gives the number (round trip) |
| `Decimal.ShowInjective` | gatsby-node.js:64 | two page numbers render to the same numeral exactly when they are equal |
| `FirstOccurrence.IndexOf` | gatsby-node.js:99 | `indexOf` is -1 exactly when the element is absent; otherwise it is a position holding the element with no earlier occurrence |
| `FirstOccurrence.IsFirstIff` | gatsby-node.js:99 | the filter keeps position `pos` exactly when its element does not occur before `pos` |
| `FirstOccurrence.FilterFirstSpec` | gatsby-node.js:99 | filtering a prefix keeps each element of that prefix once and nothing else, ordered by first position |
| `FirstOccurrence.DistinctMembers` | gatsby-node.js:99 | the de-duplicated tag list has no repeats and holds exactly the tags of the input |
| `FirstOccurrence.DistinctOrder` | gatsby-node.js:99 | the de-duplicated tags appear in the order of their first occurrence in the input |
| `FirstOccurrence.DistinctOfDistinct` | gatsby-node.js:99 | a list without repeats passes through the filter unchanged |
| `FirstOccurrence.FirstOccurrenceOrderUnique` | gatsby-node.js:99 | two listings of the same elements, both in first-occurrence order, are equal |
| `FirstOccurrence.DistinctCharacterized` | gatsby-node.js:99 | any listing of exactly the input's elements in first-occurrence order is the filter's result, so the filter is fully determined by membership and order |
| `FirstOccurrence.DistinctBySeen` | gatsby-node.js:99 | de-duplicating with a set of already-seen tags gives the same list as the `indexOf` filter |
| `Planner.NumPages` | gatsby-node.js:55-56 | the page count is the ceiling of n / 5 for the n nodes the query returns: `numPages*5 >= n`, and `(numPages-1)*5 < n` when `numPages > 0` |
| `Planner.IndexPagesFrom` | gatsby-node.js:59-73 | the loop from position `i` creates one page per position in `max(i,1) .. numPages-1` and nothing for position 0 |
| `Planner.IndexPagesPlan` | gatsby-node.js:55-73 | index pages exist only for pages 2..numPages, in order, and none for at most 5 posts; each has route `/<currentPage>`, limit 5, skip `(currentPage-1)*limit` below the post count, and the common `numPages` |
| `Planner.IndexPathsDistinct` | gatsby-node.js:63-64 | no two index pages share a route |
| `Planner.PostPages` | gatsby-node.js:76-96 | exactly one post page is created per post |
| `Planner.PostPagesPlan` | gatsby-node.js:76-95 | post page k belongs to post k: its route is the front-matter slug if non-empty, else the generated slug; its template is `templateKey`, or `blog-post` when that is missing or empty; its context holds the generated slug and the post's tags |
| `Planner.PostNeighbours` | gatsby-node.js:76-78 | the first post has no `next` and the last no `previous`; post k's `previous` is post k+1 and post k+1's `next` is post k |
| `Planner.AllTags` | gatsby-node.js:80-82 | the accumulated tag list holds exactly the tags of posts that have tags; untagged posts add nothing |
| `Planner.TagPages` | gatsby-node.js:100-106 | one tag page is created per de-duplicated tag |
| `Planner.TagRouteInjective` | gatsby-node.js:101-102 | the route `/tags/<tag>/` keeps the tag verbatim: two tags share a route exactly when they are equal |
| `Planner.Plan` | gatsby-node.js:53-106 | the plan has one page per index page, per post and per distinct tag |
| `Planner.PlanTagPages` | gatsby-node.js:98-106 | the plan ends with one tag page per distinct tag of any post, without repeats, in first-occurrence order, each routed to `/tags/<tag>/` with exactly the tag as context |
| `Planner.PlanLayout` | gatsby-node.js:58-96 | the plan starts with the index pages, followed by the post pages |
| `Planner.PlanTagRoutesDistinct` | gatsby-node.js:59-106 | tag pages never share a route with each other or with an index page |
| `CreatePagesHook.CreateIndexPages` | gatsby-node.js:59-73 | the `forEach` over `0 .. numPages-1`, skipping position 0, creates exactly the planned index pages |
| `CreatePagesHook.CreatePostPages` | gatsby-node.js:76-96 | the `forEach` over the posts creates exactly the planned post pages and accumulates exactly the concatenated tag lists |
| `CreatePagesHook.CreateTagPages` | gatsby-node.js:98-106 | the `forEach` over the `indexOf`-filtered tags creates exactly the planned tag pages |
| `CreatePagesHook.CreatePages` | gatsby-node.js:53-106 | the hook's three loops, in order, create exactly the planned pages: index pages, then post pages, then tag pages |
| `NodeFields.RemoveSlashes` | gatsby-node.js:123 | the file name has no `/`, and keeps every other character of the slug with its number of occurrences |
| `NodeFields.RemoveSlashesAppend` | gatsby-node.js:123 | slash removal works piece by piece, so the kept characters stay in order |
| `NodeFields.RemoveSlashesNoSlash` | gatsby-node.js:123 | a slug without `/` is its own file name |
| `NodeFields.RemoveSlashesIdempotent` | gatsby-node.js:123 | removing slashes twice equals removing them once |
| `NodeFields.ChooseSource` | gatsby-node.js:125-133 | the table entry `<fileName>.md` is chosen exactly when the table was loaded and has that key, with its `created` value; otherwise `git log` runs on `blog/<fileName>.md` |
| `NodeFields.OnCreateNode` | gatsby-node.js:109-140 | non-markdown nodes get no fields; markdown nodes get the generated slug, and a time field exactly when `templateKey` is missing, empty or `blog-post`, taken from the table when it has the file and from git otherwise |
| `NodeFields.TableShadowsGit` | gatsby-node.js:125-133 | with a table entry, the stored time is the formatted `created` value whatever git would answer |
| `NodeFields.GitWithoutEntry` | gatsby-node.js:128-133 | without a table entry, the stored time is git's answer for `blog/<fileName>.md` and the formatter plays no part |
| `NodeFields.MissingTableIsEmpty` | gatsby-node.js:125 | a missing timestamps file chooses the same source as an empty table |
| `Hooks.PublicationTimeIffBlogTemplate` | gatsby-node.js:120-121 | a post gets a publication time exactly when its page uses the `blog-post` template |
| `Hooks.SevenPosts` | gatsby-node.js:55-73 | seven posts give two pages and a single extra index page `/2` with limit 5, skip 5 and numPages 2 |
| `Hooks.RepeatedTags` | gatsby-node.js:99 | tags `go, dafny, go, web` produce tag pages for `go, dafny, web` in that order |

## Left out

- The GraphQL query and its error rethrow (gatsby-node.js:27-51) are left out. The planner takes the query's post list as input.
- The `createPage` and `createNodeField` side effects are left out. They become the returned page list and field values.
- Reading `blog/timestamps.json` (gatsby-node.js:7-11) is file I/O. The table is a parameter, and `None` stands for a missing file.
- Running `git log` with `execSync` (gatsby-node.js:130-132) is a process call. It becomes the `gitLog` parameter of `NodeFields.Resolve`. A failing git command, which throws in the source, is not modelled.
- The dayjs unix-time formatting (gatsby-node.js:127) and `src/components/format-date.js` wrap a date library that is not part of this model. Formatting is the `formatUnix` parameter.
- `createFilePath` from gatsby-source-filesystem (gatsby-node.js:117) is not part of this model. Its result is the `slug` parameter of `NodeFields.OnCreateNode`. Line 123 reads `node.fields.slug`, not the `createFilePath` result directly. The model uses the one `slug` parameter for both, on the assumption that `createNodeField` (gatsby-node.js:114-118) has written `node.fields.slug` before line 123 runs.
- `path.resolve` of component files is not modelled. Components are the `Component` datatype, with the template name kept verbatim. Two different `Component` values can therefore name the same file. `PostTemplate("tags")` and `TagsTemplate` both resolve to `src/templates/tags.js` (gatsby-node.js:86-88, 98). `PostTemplate("../pages/index")` and `IndexComponent` both resolve to `src/pages/index.js`. No lemma relies on components being different files.
- The `sourceNodes` type declaration (gatsby-node.js:13-23) and `gatsby-config.js` are declarative configuration.
- The React pages, templates and components under `src/` are UI rendering. This includes the hyphenated tag links. Those links do not match the verbatim tag routes, and no property relates the two.
- The post `title` and the rest of the node that `previous` and `next` carry are not modelled. A `Post` holds only the fields the hook reads.
- Route uniqueness across post pages is not checked by the hook. Two posts with the same effective slug produce two pages with one route, so no lemma claims post routes are distinct. The code also does not keep a post route from looking like `/2` or `/tags/x/`.
- The hook does not filter drafts, sort posts, mark unpublished posts or hyphenate tag routes. The draft filter and the slug-descending sort are in the index page query (src/pages/index.js:59-65). The "Unpublished" marker is in src/pages/index.js:15. The hyphenated tag links are in the React files listed above. This model follows gatsby-node.js.
- Numbers are unbounded integers. JavaScript numbers are doubles, but post counts never approach the range where that matters.
