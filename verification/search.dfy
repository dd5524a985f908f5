/**
 The search endpoint: a blank query is answered at once; any other query becomes
 one boosted fuzzy `multi_match` request, and the engine's raw hits are assembled
 into a page of posts that carry their relevance scores.
 */
module Search {
  import opened Results
  import opened Models
  import opened Engine

  /** The searched fields with their boosts: title weighs 3, content weighs 2. */
  const SearchFields: seq<string> := ["title^3", "content^2"]
  const MatchType: string := "best_fields"
  const Fuzziness: string := "AUTO"
  const PrefixLength: int := 2
  const MatchOperator: string := "or"

  /** The primary sort used when the client names no sort field: newest first. */
  const DefaultSort: SortKey := ByField("created_at", Some("desc"))

  const FailurePrefix: string := "Search operation failed: "
  /** The message of a post that does not validate; the validator's exact wording is not modelled. */
  const InvalidPostMessage: string := "validation error for Post"
  /** The message of reading the first element of an empty list. */
  const IndexOutOfRange: string := "list index out of range"

  /** The 500 error raised for any failure after the request was built. */
  function SearchFailed(message: string): (e: HttpError)
    ensures e.status == 500
    ensures |e.detail| == |FailurePrefix| + |message|
    ensures e.detail[..|FailurePrefix|] == FailurePrefix && e.detail[|FailurePrefix|..] == message
  {
    HttpError(500, FailurePrefix + message)
  }

  /** The one full-text clause for a query string. */
  function TextClause(query: string): Clause {
    MultiMatch(query, SearchFields, MatchType, Fuzziness, PrefixLength, MatchOperator)
  }

  /** The two-level sort: the client's field and order (or newest first), then relevance. */
  function SortConfig(sortBy: Option<string>, sortOrder: Option<string>): (r: seq<SortKey>)
    ensures |r| == 2 && r[1] == ByScore
    ensures sortBy.Some? && sortBy.value != "" ==> r[0] == ByField(sortBy.value, sortOrder)
    ensures sortBy.None? || sortBy.value == "" ==> r[0] == DefaultSort
  {
    var primary := if sortBy.Some? && sortBy.value != "" then ByField(sortBy.value, sortOrder) else DefaultSort;
    [primary, ByScore]
  }

  /** The search request for a query: one text clause when the query is not blank, no filter, exact totals. */
  function BuildSearch(q: SearchQuery): (r: SearchRequest)
    ensures r.index == PostsIndex
    ensures r.query.Some? && r.query.value.Bool?
    ensures q.query != "" ==> r.query.value.must == [TextClause(q.query)]
    ensures q.query == "" ==> r.query.value.must == []
    ensures r.query.value.should == [] && r.query.value.filter == []
    ensures r.from == Some(Offset(q.page, q.size)) && r.size == q.size
    ensures r.sort == SortConfig(q.sortBy, q.sortOrder)
    ensures r.trackTotalHits == Some(true) && r.aggs == []
  {
    var must := if q.query != "" then [TextClause(q.query)] else [];
    SearchRequest(PostsIndex, Some(Bool(must, [], [])), Some(Offset(q.page, q.size)), q.size,
                  SortConfig(q.sortBy, q.sortOrder), Some(true), [])
  }

  /** Every hit has a source that validates as a post. */
  predicate AllValid(hits: seq<RawHit>) {
    forall i :: 0 <= i < |hits| ==> hits[i].source.Valid()
  }

  /**
   A raw response as a page of results: the engine's total, the hits in engine order
   with `_id` and `_score` overlaid on `_source`, the page echoed and the elapsed time.
   */
  function Assemble(raw: RawResponse, page: int, size: int, tookMs: int): (r: Result<SearchResponse>)
    ensures r.Ok? <==> AllValid(raw.hits)
    ensures r.Err? ==> r.error == SearchFailed(InvalidPostMessage)
    ensures r.Ok? ==>
      && r.value.total == raw.total
      && r.value.page == page && r.value.size == size
      && r.value.tookMs == Some(tookMs)
      && |r.value.hits| == |raw.hits|
    ensures r.Ok? ==> forall i :: 0 <= i < |raw.hits| ==>
      && r.value.hits[i].id == raw.hits[i].id
      && r.value.hits[i].score == raw.hits[i].score
      && ToSource(r.value.hits[i]) == raw.hits[i].source
  {
    match DecodeHits(raw.hits, true)
    case None => Err(SearchFailed(InvalidPostMessage))
    case Some(posts) => Ok(SearchResponse(raw.total, posts, page, size, Some(tookMs)))
  }

  /**
   The assembly as the endpoint performs it: after building the response it formats
   debug messages that read the first hit whenever the total is positive, which fails
   on an empty page.
   */
  function AssembleAsWritten(raw: RawResponse, page: int, size: int, tookMs: int): (r: Result<SearchResponse>)
    ensures r.Ok? <==> AllValid(raw.hits) && (raw.total <= 0 || |raw.hits| > 0)
    ensures r.Ok? ==> r == Assemble(raw, page, size, tookMs)
    ensures r.Err? ==> r.error == SearchFailed(if AllValid(raw.hits) then IndexOutOfRange else InvalidPostMessage)
  {
    match DecodeHits(raw.hits, true)
    case None => Err(SearchFailed(InvalidPostMessage))
    case Some(posts) =>
      if raw.total > 0 && |raw.hits| == 0 then Err(SearchFailed(IndexOutOfRange))
      else Ok(SearchResponse(raw.total, posts, page, size, Some(tookMs)))
  }

  /** The two assemblies disagree exactly on a valid empty page of a non-empty result set. */
  lemma AsWrittenDiffersOnlyOnEmptyPage(raw: RawResponse, page: int, size: int, tookMs: int)
    ensures AssembleAsWritten(raw, page, size, tookMs) != Assemble(raw, page, size, tookMs)
        <==> AllValid(raw.hits) && raw.total > 0 && |raw.hits| == 0
  {
  }

  /** A page past the last one (five matches, page 3 of size 10) fails with a 500 instead of an empty page. */
  lemma PastLastPageFails()
    ensures AssembleAsWritten(RawResponse(5, [], map[]), 3, 10, 7) == Err(SearchFailed(IndexOutOfRange))
    ensures Assemble(RawResponse(5, [], map[]), 3, 10, 7) == Ok(SearchResponse(5, [], 3, 10, Some(7)))
  {
  }

  /** The search endpoint, with the engine as a parameter and the elapsed time passed in. */
  function SearchPosts(q: SearchQuery, engine: SearchRequest -> Reply, tookMs: int): (r: Exchange<SearchResponse>)
    ensures q.query == "" <==> r.calls == []
    ensures q.query == "" ==> r.result == Ok(SearchResponse(0, [], q.page, q.size, None))
    ensures q.query != "" ==> r.calls == [BuildSearch(q)]
    ensures q.query != "" && engine(BuildSearch(q)).Raised? ==>
      r.result == Err(SearchFailed(engine(BuildSearch(q)).message))
    ensures q.query != "" && engine(BuildSearch(q)).Answered? ==>
      r.result == Assemble(engine(BuildSearch(q)).response, q.page, q.size, tookMs)
    ensures r.result.Err? ==> r.result.error.status == 500
  {
    if q.query == "" then
      Exchange([], Ok(SearchResponse(0, [], q.page, q.size, None)))
    else
      var request := BuildSearch(q);
      match engine(request)
      case Raised(message) => Exchange([request], Err(SearchFailed(message)))
      case Answered(raw) => Exchange([request], Assemble(raw, q.page, q.size, tookMs))
  }

  /**
   The search endpoint as it is written: the same request, but the answer is
   assembled by `AssembleAsWritten`, so an empty page of a non-empty result set
   is a 500.
   */
  function SearchPostsAsWritten(q: SearchQuery, engine: SearchRequest -> Reply, tookMs: int)
    : (r: Exchange<SearchResponse>)
    ensures q.query == "" <==> r.calls == []
    ensures q.query == "" ==> r.result == Ok(SearchResponse(0, [], q.page, q.size, None))
    ensures q.query != "" ==> r.calls == [BuildSearch(q)]
    ensures q.query != "" && engine(BuildSearch(q)).Raised? ==>
      r.result == Err(SearchFailed(engine(BuildSearch(q)).message))
    ensures q.query != "" && engine(BuildSearch(q)).Answered? ==>
      r.result == AssembleAsWritten(engine(BuildSearch(q)).response, q.page, q.size, tookMs)
    ensures r.result.Err? ==> r.result.error.status == 500
  {
    if q.query == "" then
      Exchange([], Ok(SearchResponse(0, [], q.page, q.size, None)))
    else
      var request := BuildSearch(q);
      match engine(request)
      case Raised(message) => Exchange([request], Err(SearchFailed(message)))
      case Answered(raw) => Exchange([request], AssembleAsWritten(raw, q.page, q.size, tookMs))
  }

  /**
   The endpoint as written and the corrected endpoint answer differently exactly when
   a non-blank query gets a valid empty page of a result set with a positive total.
   */
  lemma EndpointsDifferOnlyOnEmptyPage(q: SearchQuery, engine: SearchRequest -> Reply, tookMs: int)
    ensures SearchPostsAsWritten(q, engine, tookMs) != SearchPosts(q, engine, tookMs)
        <==> && q.query != ""
             && engine(BuildSearch(q)).Answered?
             && AllValid(engine(BuildSearch(q)).response.hits)
             && engine(BuildSearch(q)).response.total > 0
             && |engine(BuildSearch(q)).response.hits| == 0
  {
    if q.query != "" && engine(BuildSearch(q)).Answered? {
      AsWrittenDiffersOnlyOnEmptyPage(engine(BuildSearch(q)).response, q.page, q.size, tookMs);
    }
  }

  /** A blank query is answered without looking at the engine: any two engines give the same exchange. */
  lemma BlankQueryIgnoresEngine(q: SearchQuery, e1: SearchRequest -> Reply, e2: SearchRequest -> Reply, t1: int, t2: int)
    requires q.query == ""
    ensures SearchPosts(q, e1, t1) == SearchPosts(q, e2, t2)
  {
  }

  /** A whitespace-only query is not blank: it is sent to the engine as a text clause. */
  lemma WhitespaceQueryIsSearched(q: SearchQuery, engine: SearchRequest -> Reply, tookMs: int)
    requires q.query == " "
    ensures SearchPosts(q, engine, tookMs).calls == [BuildSearch(q)]
    ensures BuildSearch(q).query.value.must == [TextClause(" ")]
  {
  }

  /** The `tags` filter of a query never reaches the engine nor changes the answer. */
  lemma TagsFilterIgnored(q: SearchQuery, tags: Option<seq<string>>, engine: SearchRequest -> Reply, tookMs: int)
    ensures SearchPosts(q.(tags := tags), engine, tookMs) == SearchPosts(q, engine, tookMs)
  {
  }

  /** With every parameter at its default, the first ten hits are asked for, newest first. */
  lemma DefaultQueryRequest(query: string)
    requires query != ""
    ensures BuildSearch(DefaultSearchQuery(query)).from == Some(0)
    ensures BuildSearch(DefaultSearchQuery(query)).size == 10
    ensures BuildSearch(DefaultSearchQuery(query)).sort == [DefaultSort, ByScore]
  {
  }

  /** The requested page can be read back from the request's offset. */
  lemma RequestIdentifiesPage(q: SearchQuery)
    requires q.size > 0
    ensures PageAt(BuildSearch(q).from.value, BuildSearch(q).size) == q.page
  {
    OffsetRoundTrip(q.page, q.size);
  }

  /**
   When the engine honours the requested size, a page never holds more than `size`
   hits, and its total is the engine's count whatever the page and size.
   */
  lemma PageBounded(q: SearchQuery, engine: SearchRequest -> Reply, tookMs: int)
    requires q.query != ""
    requires engine(BuildSearch(q)).Answered? ==> |engine(BuildSearch(q)).response.hits| <= q.size
    ensures SearchPosts(q, engine, tookMs).result.Ok? ==>
      && |SearchPosts(q, engine, tookMs).result.value.hits| <= q.size
      && SearchPosts(q, engine, tookMs).result.value.total == engine(BuildSearch(q)).response.total
  {
  }
}
