# Forum search backend — a Dafny model

This project models the request-shaping and result-shaping logic of a small forum
backend that stores posts (title, content, tags, timestamps) in an Elasticsearch
index, searches them with boosted fuzzy matching, and lists the tags in use. It
models the four endpoint groups of the backend:

- **search** (`Search`): a blank query is answered with an empty page and no engine
  call. Any other query becomes one `multi_match` clause over `title^3` and
  `content^2` (`best_fields`, `fuzziness AUTO`, `prefix_length 2`, `operator or`).
  The sort has two keys: the client's `sort_by: sort_order`, or `created_at desc`,
  then `_score`. The request asks for exact totals. The assembler overlays `_id`
  and `_score` on every hit's `_source` and keeps engine order.
- **posts** (`Posts`): create, get, list, update and delete. The index is a
  `map<string, Source>` plus an availability flag. Create and update lower-case the
  tags. Update is a partial merge decided by field presence. Get, update and delete
  turn any failure into a 404. Create and list turn any failure into a 500.
- **tags** (`Tags`): a size-0 request with a `terms` aggregation on `tags` (at most
  1000 buckets). The answer is the bucket keys in bucket order.
- **data shapes** (`Models`): posts as returned, posts as stored (`Source`, whose
  fields may be `null`), partial updates (`Field = Unset | Null | Set`), the
  search query and the search response with their defaults.

The shared pieces are:
- `Results`: `Option`, `Result` and `HttpError`.
- `Text`: ASCII lower-casing.
- `Engine`: the request and raw-response shapes. It also decodes raw hits into
  posts, for both search and list.

The engine's query execution is a function parameter `SearchRequest -> Reply`.
Every endpoint that queries it returns an `Exchange`. An `Exchange` records the
calls the endpoint made, so "no engine call" can be stated and proved.

## Model

| member | source | states |
|---|---|---|
| Text.LowerTags | backend/app/routers/posts.py:19-20 | normalised tags keep the input's length and order; element i is input i lower-cased; every tag is lower case |
| Text.LowerTagsIdempotent | backend/app/routers/posts.py:78-79 | normalising tags that are already normalised changes nothing |
| Text.LowerTagsFixesExactlyLowerLists | backend/app/routers/posts.py:19-20 | normalisation leaves a tag list unchanged exactly when it is already lower case (both directions) |
| Text.LowerTagsExample | backend/app/routers/posts.py:19-20 | the mixed-case tags `Test`, `DEBUG` are stored as `test`, `debug` |
| Models.ToPost | backend/app/models.py:14-18 | building a `Post` from a stored source succeeds exactly when no required field is null; the result carries the given id and score, and its stored form is the source |
| Models.PostSourceRoundTrip | backend/app/models.py:6-18 | storing a post and building it back from its source, id and score gives the same post |
| Models.SourcePostRoundTrip | backend/app/models.py:6-18 | building a post from a valid source and storing it gives the same source |
| Engine.DecodeHits | backend/app/routers/search.py:82-86 | hits decode all or nothing: success exactly when every source validates; then there is one post per hit in hit order, with hit i's `_id`, its `_score` (or none for a list), and every other field from its `_source` |
| Engine.OffsetRoundTrip | backend/app/routers/search.py:73 | for a positive page size, the offset `(page-1)*size` determines the page it was computed from |
| Search.SortConfig | backend/app/routers/search.py:56-65 | the sort has exactly two keys; the first is `{sort_by: sort_order}` with the order passed through unchecked when `sort_by` is non-empty, else `created_at desc`; the second is always `_score` |
| Search.BuildSearch | backend/app/routers/search.py:31-52 | the request targets `posts` with a bool query whose `must` is exactly one boosted fuzzy `multi_match` for a non-blank query, with empty `should` and `filter`, offset `(page-1)*size`, size `size`, exact totals and no aggregation |
| Search.RequestIdentifiesPage | backend/app/routers/search.py:70-77 | for a positive size, the requested page can be read back from the request's offset and size |
| Search.DefaultQueryRequest | backend/app/models.py:25-31 | with the default page, size and sort, the request asks for offset 0, size 10, sorted by `created_at desc` then `_score` |
| Search.TagsFilterIgnored | backend/app/models.py:27 | the query's `tags` filter changes neither the request sent nor the answer |
| Search.SearchFailed | backend/app/routers/search.py:111-117 | a search failure is a 500 whose detail is `Search operation failed: ` followed by the message |
| Search.Assemble | backend/app/routers/search.py:79-95 | the page succeeds exactly when every source validates; total is the engine's total, page and size are echoed, the elapsed time is set, and hit i carries raw hit i's id, score and source; a validation failure is a search failure |
| Search.AssembleAsWritten | backend/app/routers/search.py:79-117 | assembly as the endpoint performs it succeeds exactly when every source validates and the total is non-positive or the page is non-empty, and then agrees with `Assemble`; a failure is the 500 search failure with `list index out of range` when every source validates, and with the validation message otherwise |
| Search.AsWrittenDiffersOnlyOnEmptyPage | backend/app/routers/search.py:101-103 | the as-written and the corrected assembly differ exactly on a valid empty page of a result set with a positive total |
| Search.PastLastPageFails | backend/app/routers/search.py:101-103 | page 3 of size 10 over five matches is a 500 `list index out of range` as written, and an empty page when corrected |
| Search.SearchPosts | backend/app/routers/search.py:11-117 | the corrected endpoint (an empty page past the last one is answered as an empty page, see Findings): a blank query makes no engine call and answers total 0, no hits, the echoed page and size, and no elapsed time; any other query makes exactly the one call `BuildSearch`; an engine exception becomes a search failure with its message; a reply is assembled by `Assemble`; every error is a 500 |
| Search.SearchPostsAsWritten | backend/app/routers/search.py:11-117 | the endpoint as written: the same calls and blank-query answer as `SearchPosts`, an engine exception becomes a search failure with its message, a reply is assembled by `AssembleAsWritten`; every error is a 500 |
| Search.EndpointsDifferOnlyOnEmptyPage | backend/app/routers/search.py:101-103 | the endpoint as written and the corrected endpoint answer differently exactly when a non-blank query gets a valid empty page of a result set with a positive total |
| Search.BlankQueryIgnoresEngine | backend/app/routers/search.py:26-28 | the answer to a blank query is the same whatever the engine and the elapsed time |
| Search.WhitespaceQueryIsSearched | backend/app/routers/search.py:26 | a query of one space is not blank: it is sent to the engine as the text clause |
| Search.PageBounded | backend/app/routers/search.py:70-95 | if the engine returns at most the requested number of hits, a page holds at most `size` posts and its total is the engine's count |
| Posts.CreatePost | backend/app/routers/posts.py:11-33 | a reachable index stores the post under the assigned id with lower-cased tags and both timestamps, and returns it with that id and no score; an unreachable index gives a 500 and changes nothing |
| Posts.GetAfterCreate | backend/app/routers/posts.py:11-46 | fetching the id returned by a create gives back exactly the created post |
| Posts.CreateWithoutTags | backend/app/models.py:9 | a create request without tags stores and returns a post with no tags |
| Posts.CreateKeepsStoreValid | backend/app/routers/posts.py:18-20 | after a create, every stored post still validates and has lower-case tags |
| Posts.GetPost | backend/app/routers/posts.py:35-46 | get succeeds exactly when the index is reachable, holds the id and its source validates; then the post has that id, no score and the stored fields; every failure, a missing id included, is a 404 |
| Posts.ListRequest | backend/app/routers/posts.py:52-58 | the list request matches all posts, sorts by `created_at desc` and asks for offset `(page-1)*size` and size `size` |
| Posts.ListPosts | backend/app/routers/posts.py:48-66 | list makes exactly one engine call; when it succeeds it returns one post per hit in order, with the hit's id, no score and the hit's source; it succeeds exactly when the engine answers and every source validates; every failure is a 500 |
| Posts.NoScoreOutsideSearch | backend/app/models.py:18 | posts from get and list carry no score |
| Posts.UpdatePostAsWritten | backend/app/routers/posts.py:68-99 | a missing id or unreachable index is a 404 with no write; an update with no field sent writes nothing and answers like get; otherwise every sent field overwrites (a null writes null; sent tags are lower-cased), unsent fields and `created_at` keep their values, `updated_at` becomes the clock reading, and only that post changes; for a reachable index holding the id, the update succeeds exactly when the post left in the index validates; a success carries the id, no score and the stored fields; every failure is a 404 |
| Posts.NullTitleWritesThenFails | backend/app/routers/posts.py:81-99 | as written, an update sending a null title answers 404 yet stores the null, after which the index is no longer valid and get answers 404 (until a later update sends a title again) |
| Posts.DropNulls | backend/app/routers/posts.py:75-83 | the corrected reading of an update keeps every field sent with a value and turns every field sent as null or not sent into an unset field; it is empty exactly when no field carries a value |
| Posts.UpdatePost | backend/app/routers/posts.py:68-99 | on a valid index the corrected update keeps the index valid, succeeds exactly when the index is reachable and holds the id, and writes nothing when it fails; a success returns the stored post with each field taken from the update when sent with a value and kept otherwise, `created_at` kept and `updated_at` refreshed only when something was sent, and the index changes in that one post only |
| Posts.GetAfterUpdate | backend/app/routers/posts.py:68-96 | fetching an updated post gives back what the update answered |
| Posts.EmptyUpdateIsNoOp | backend/app/routers/posts.py:81-96 | an update with no field sent leaves the index unchanged and answers exactly what get answers, as written and corrected |
| Posts.UpdateIdempotent | backend/app/routers/posts.py:75-90 | sending the same update twice at the same time has the same effect and answer as sending it once |
| Posts.DeletePost | backend/app/routers/posts.py:101-110 | delete succeeds exactly when the index is reachable and holds the id, then removes only that id; every failure is a 404 with no change |
| Posts.DeleteKeepsStoreValid | backend/app/routers/posts.py:101-107 | deleting keeps every remaining post valid |
| Posts.GetAfterDelete | backend/app/routers/posts.py:35-46 | after a delete, get of that id is a 404; for an id never stored, both delete and get are 404 |
| Tags.TagsRequest | backend/app/routers/tags.py:15-26 | the tag request asks for zero hits, no query and no sort, and one `terms` aggregation `unique_tags` on `tags` of size 1000 |
| Tags.ListTags | backend/app/routers/tags.py:10-37 | tag listing makes exactly one engine call; it succeeds exactly when the engine answers with the `unique_tags` aggregation, and then returns one key per bucket in bucket order; every failure is a 500 `Failed to fetch tags` |
| Tags.TagCounts | backend/app/routers/tags.py:30 | the per-tag counts have exactly the bucket keys as keys |
| Tags.LastBucketCountWins | backend/app/routers/tags.py:30 | a tag's count is the count of the last bucket carrying that tag |
| Tags.CountsCoverListedTags | backend/app/routers/tags.py:29-34 | the diagnostic counts cover exactly the tags the listing returns |
| Tags.CountsDoNotChangeTags | backend/app/routers/tags.py:29-34 | two replies whose buckets differ only in their counts give the same tag list |

## Left out

- The search engine itself: analysis, fuzzy matching, scoring, sorting, total counting and aggregation. A query goes to a function parameter, and point reads and writes go to a map.
- Relevance scores: they are `real` values that are only copied, never computed.
- Clocks: `datetime.utcnow()` and `time.time()` readings are parameters. That includes the two readings on create and the elapsed time of a search.
- Logging: the log calls are left out. The one exception is the debug message in search that reads the first hit, because it changes the outcome (see Findings).
- The engine's own `took` value: search reads it only to log it, so it is not modelled.
- Unicode case mapping: `str.lower()` is modelled as ASCII lower-casing.
- The exact text of a validation error: the search failure for an invalid source uses a stand-in message, `validation error for Post`.
- Stored documents that lack a key: the backend always writes every field. So a missing key, and the `created_at`/`updated_at`/`tags` defaults it would trigger, are not modelled. A field may still be `null`.
- Partial failures between the two index calls of an update: the index is either reachable for the whole call or not.
- Index-assigned ids: the id returned by a create is a parameter with no freshness requirement. The backend never passes an id, so the index always assigns a fresh one. The model is more general here: a create under an id already in use would overwrite that post, which cannot happen in the program.
- The application wiring (app and CORS setup, client construction, index mapping, debug endpoints), the logger modules, and the frontend types and middleware: they are configuration and I/O with no modelled behaviour.
- Search.SearchPosts: models the corrected endpoint, which answers an empty page past the last one with an empty page. The endpoint as written answers a 500 there; that is `Search.SearchPostsAsWritten`, and `Search.EndpointsDifferOnlyOnEmptyPage` locates the difference.
- Posts.UpdatePost: models the corrected update, which treats a field sent as `null` as not sent. The update as written is `Posts.UpdatePostAsWritten`.
- Concurrency and `async`: each endpoint is a sequential function of its inputs.

## Findings

| source | as written | input that shows it | evidently intended | confidence | as-written member | corrected member |
|---|---|---|---|---|---|---|
| backend/app/routers/search.py:101-103 | when the total is positive, the debug messages read the first hit and the first post; their f-strings are evaluated even when debug logging is off, so an empty page raises `IndexError`, which becomes a 500 | query `hello`, page 3, size 10, engine total 5 with no hits on that page (or any size 0 with matches) | a page past the last one is an empty page with the engine's total | high; not executed | Search.AssembleAsWritten | Search.Assemble |
| backend/app/routers/posts.py:75-99 | a field sent as `null` counts as set; it is merged into the document and written to the index; then building the `Post` fails on the null required field, so the client gets a 404 after the write; the stored post cannot be fetched, listed or searched until a later update sends the field again | update of an existing post with body `{"title": null}` | nothing invalid reaches the index. One possible correction, modelled here: a `null` leaves the field unchanged. Another: validate the merged post before the write and answer an error without writing | high; not executed | Posts.UpdatePostAsWritten | Posts.UpdatePost |

`Search.SearchPosts` uses the corrected assembly; `Search.SearchPostsAsWritten` is the endpoint as written. `Posts.UpdatePost` is the corrected update: it ignores `null` fields and reuses the as-written merge for everything else. The lemmas about the life of a post (`GetAfterUpdate`) are stated about the corrected update.
