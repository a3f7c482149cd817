# Blog article feed: a verified model

The blog backend holds a fixed collection of three articles in memory and
serves it, together with two lists derived from it: the distinct categories and
the distinct tags, each in order of first appearance. Its request logger also
classifies the client address as IPv6 loopback, IPv4 loopback, IPv4 mapped into
IPv6, or remote. The frontend's article list renders one structured-data
element and one card per article. Each card shows a one-line preview of the
content (the text before the first newline), one chip per tag and one link per
related resource.

Everything modelled is a pure function of its inputs, so the model is a set
of Dafny functions and lemmas:

- `insertion_set.dfy`, module `InsertionSet`: JavaScript's insertion-ordered
  `Set`, as `[...new Set(xs)]` uses it. `FromSeq` adds the values one after the
  other. `FirstSeen` is an independent reference: one pass from the front with
  a set of values already seen.
- `js_string.dfy`, module `JsString`: `startsWith` and `split` on a
  one-character separator. `Join` is not used by the blog; it is the
  reference against which `Split` is proved, in both directions of the round
  trip.
- `server.dfy`, module `Server`: the `Article` record, the `Articles`
  collection, `Categories`, `Tags` and the client-address classification.
- `article_list.dfy`, module `ArticleList`: the preview, tag chips,
  related-resource links, cards and the page.

The client address is a plain string parameter. Clock, console and network
are not modelled.

## Model

| member | source | states |
|---|---|---|
| Server.Articles | backend/server.js:11-86 | the three served records, field by field, with each content written line by line as the template literal holds it |
| Server.CategoryColumn | backend/server.js:113 | the category column has one entry per article, in article order, each the article's category |
| Server.AllTagsAppend | backend/server.js:119 | flattening a concatenation of collections flattens each part in turn, so the tag list follows article order and then tag order |
| JsString.StartsWith | backend/server.js:100 | a string starts with a prefix iff it is that prefix followed by the rest of the string |
| JsString.StartsWithConcat | backend/server.js:100 | a prefix followed by anything starts with that prefix |
| Server.IpTypeLabel | backend/server.js:98-101 | the texts logged for the two loopback classes, and only those, start with `localhost` |
| InsertionSet.Add | backend/server.js:113 | adding a value keeps the members already there in their places, appends a new value at the end, and never creates a duplicate |
| InsertionSet.FromSeq | backend/server.js:113 | `[...new Set(xs)]` has no duplicates, holds exactly the values of `xs`, and is no longer than `xs` |
| InsertionSet.FromSeqFirstOccurrenceOrder | backend/server.js:113 | the listed members appear in the order of their first occurrence in `xs` |
| InsertionSet.FromSeqOfDistinct | backend/server.js:113 | a sequence without duplicates comes back unchanged |
| InsertionSet.FromSeqIdempotent | backend/server.js:119 | deduplicating a deduplicated listing changes nothing |
| InsertionSet.FromSeqIsFirstSeen | backend/server.js:113 | the Set listing equals the one-pass, first-seen-wins reference |
| JsString.Split | frontend/src/components/ArticleList.js:114 | `split` yields at least one piece, no piece holds the separator, and joining the pieces rebuilds the input |
| JsString.SplitJoin | frontend/src/components/ArticleList.js:114 | splitting a join of separator-free pieces gives the pieces back |
| JsString.SplitHeadIsTakeUntil | frontend/src/components/ArticleList.js:114 | piece 0 of a split is the text before the first separator |
| Server.Categories | backend/server.js:113 | the categories have no duplicates; a value is listed iff some article has it as its category; the list is never longer than the collection |
| Server.CategoriesFirstAppearance | backend/server.js:113 | the category list follows the order of first use in the collection |
| Server.CategoriesSinglePass | backend/server.js:113 | the categories equal one pass over the collection that keeps each category the first time it is seen |
| Server.AllTags | backend/server.js:119 | a tag is in the flattened list iff some article carries it |
| Server.Tags | backend/server.js:119 | the tags have no duplicates, a tag is listed iff some article carries it, and deduplicating the result again leaves it unchanged |
| Server.TagsAreUnion | backend/server.js:119 | the set of listed tags is the union of every article's tags |
| Server.TagsFirstAppearance | backend/server.js:119 | the tag list follows the order of first occurrence in the article-then-tag flattening |
| Server.TagsSinglePass | backend/server.js:119 | the tags equal one first-seen pass over the flattened tag list |
| Server.ArticlesCategories | backend/server.js:11-86 | the served collection's categories are `React`, `Backend`, `AI` |
| Server.ArticlesTags | backend/server.js:11-86 | the served collection's tags are its twelve tags (`ArticlesTagList`) in source order, none repeated |
| Server.Classify | backend/server.js:98-101 | `"::1"` is IPv6 loopback and `"127.0.0.1"` is IPv4 loopback; the mapped class is exactly the addresses starting with `::ffff:`; remote is everything else; each condition is an if-and-only-if |
| Server.IpTypeLabelInjective | backend/server.js:98-101 | the four texts logged after `IP Type:` are pairwise different, so the logged text determines the class |
| ArticleList.Preview | frontend/src/components/ArticleList.js:114 | the preview is a newline-free prefix of the content; equals the content when it has no newline; otherwise stops exactly at the first newline, with `content == preview + "\n" + rest`; empty content gives an empty preview |
| ArticleList.PreviewIsFirstLine | frontend/src/components/ArticleList.js:114 | the preview equals the run of characters before the first newline |
| ArticleList.PreviewOfLines | frontend/src/components/ArticleList.js:114 | a newline-free first line followed by a newline is the preview, whatever follows |
| ArticleList.TagChips | frontend/src/components/ArticleList.js:150-157 | one chip per tag, in tag order, each keyed and labelled by its tag |
| ArticleList.TagChipsShowTags | frontend/src/components/ArticleList.js:150-157 | reading the chip labels back gives exactly the article's tags |
| ArticleList.TagChipKeysDistinct | frontend/src/components/ArticleList.js:152 | the chip keys are distinct iff the article's tags are |
| ArticleList.ResourceLinks | frontend/src/components/ArticleList.js:165-176 | one link per related link, in order, with href and key from `url` and text from `title` |
| ArticleList.ResourceLinksShowRelatedLinks | frontend/src/components/ArticleList.js:165-176 | reading the links back gives exactly the article's related links |
| ArticleList.CardOf | frontend/src/components/ArticleList.js:79-184 | a card is keyed by the article id; it shows the title as headline and image text; the image address, category, author name and role, date and read time are the article's own; its description is the preview of the content (a newline-free prefix, the whole content when there is no newline); its chips are the tag chips and show the tags; its links are the article's related-resource links, one per related link |
| ArticleList.Render | frontend/src/components/ArticleList.js:44-186 | one structured-data element and one card per article, in article order, each keyed by the article id |
| ArticleList.CardKeysAreIds | frontend/src/components/ArticleList.js:78-79 | the card keys are the article ids in order, so they are distinct iff the ids are |
| ArticleList.ArticlesIdsDistinct | backend/server.js:11-86 | the served collection's ids are 1, 2, 3, so they are distinct |

## Left out

- Express set-up, CORS, JSON body parsing, `app.listen` and the `res.json` transport of the three endpoints (backend/server.js:1-8, 107-109, 123-125). These are framework and network plumbing. The list served at `/api/articles` is the constant `Server.Articles` itself.
- The logger's console output, its timestamp and the `x-forwarded-for` header (backend/server.js:89-97, 102-104). These are I/O and the clock. Only the class of the address is modelled.
- Server.Classify: the address is always a string. In the source, `req.ip || req.socket.remoteAddress` could be undefined, and then `startsWith` would throw. That path is not modelled.
- The `axios` fetch, the loading and error state, and the effect hook (frontend/src/components/ArticleList.js:13-34). The model's `Render` takes the fetched articles as its argument.
- Layout, styling, icons, the page heading texts, the "Read Full Article" button, the `SEOHead` constants, the avatar address, and the `target`/`rel` attributes that open a related link in a new tab (frontend/src/components/ArticleList.js:38-76, 119-123, 169-170, 178-182). These are presentational only.
- The long-form date shown on a card (frontend/src/components/ArticleList.js:141-145). It depends on the host's locale library. The card keeps the raw `date`, which the page also emits as `datePublished`.
- The contents of `ArticleStructuredData` and `SEOHead`. ArticleStructuredData.js and SEOHead.js are not part of this model. The model records only that one structured-data element, keyed by id, is instantiated per article. So the structured-data mapping, the keywords string and the scholarly-article variant are not modelled.
- The source has no full-article view. `JsString.SplitJoin` and `JsString.Split` state the round trip a paragraph view would need.
- The concrete previews of the three articles are not proved. Unfolding `split` over the long literal contents costs too much for the solver. `ArticleList.PreviewOfLines` states the general fact those checks would apply.
- No served article carries optional fields such as `codeExamples` or `references`, so `Article` has only the fields the source uses.
