/**
 The boundary with the document index: the requests the backend sends, the raw
 responses it gets back, and the decoding of raw hits into posts that both the
 search and the list endpoint perform. The engine's matching, scoring, sorting,
 counting and aggregation are not modelled; an engine is any function from a
 request to a reply.
 */
module Engine {
  import opened Results
  import opened Models

  /** The one index every endpoint uses. */
  const PostsIndex: string := "posts"

  /** A full-text clause of a bool query. */
  datatype Clause = MultiMatch(
    query: string,
    fields: seq<string>,
    matchType: string,
    fuzziness: string,
    prefixLength: int,
    operator: string)

  datatype Query =
    | MatchAll
    | Bool(must: seq<Clause>, should: seq<Clause>, filter: seq<Clause>)

  /** One entry of a sort list: `{field: order}` or the bare `"_score"`. */
  datatype SortKey = ByField(field: string, order: Option<string>) | ByScore

  /** A `terms` aggregation named `name` over `field`, returning at most `size` buckets. */
  datatype TermsAgg = TermsAgg(name: string, field: string, size: int)

  /** The arguments of one search call; `query`, `from` and `trackTotalHits` are `None` when the call omits them. */
  datatype SearchRequest = SearchRequest(
    index: string,
    query: Option<Query>,
    from: Option<int>,
    size: int,
    sort: seq<SortKey>,
    trackTotalHits: Option<bool>,
    aggs: seq<TermsAgg>)

  /** One raw hit: `_id`, `_score` (possibly `null`) and `_source`. */
  datatype RawHit = RawHit(id: string, score: Option<Score>, source: Source)

  /** One aggregation bucket: the tag and its document count. */
  datatype Bucket = Bucket(key: string, docCount: int)

  /** A raw search response: `hits.total.value`, `hits.hits` and the aggregation buckets by name. */
  datatype RawResponse = RawResponse(total: int, hits: seq<RawHit>, aggregations: map<string, seq<Bucket>>)

  /** What a search call yields: a response, or an exception with its message. */
  datatype Reply = Answered(response: RawResponse) | Raised(message: string)

  /** The calls an endpoint made to the engine, in order, and what it answered its client. */
  datatype Exchange<+T> = Exchange(calls: seq<SearchRequest>, result: Result<T>)

  /** The offset of the first hit of a 1-based page. */
  function Offset(page: int, size: int): int {
    (page - 1) * size
  }

  /** The 1-based page that starts at offset `from`, for pages of `size` hits. */
  function PageAt(from: int, size: int): int
    requires size > 0
  {
    from / size + 1
  }

  /** A product with a positive factor is at least that factor when the other factor is positive. */
  lemma {:induction false} MulAtLeast(x: int, d: int)
    requires x >= 1 && d > 0
    ensures x * d >= d
  {
    if x > 1 {
      MulAtLeast(x - 1, d);
      assert x * d == (x - 1) * d + d;
    }
  }

  /** Division of an exact multiple gives back the multiplier. */
  lemma DivOfMultiple(k: int, d: int)
    requires d > 0
    ensures (k * d) / d == k
  {
    var q := (k * d) / d;
    var m := (k * d) % d;
    assert k * d == q * d + m && 0 <= m < d;
    assert (k - q) * d == m;
    if k - q >= 1 {
      MulAtLeast(k - q, d);
    } else if q - k >= 1 {
      MulAtLeast(q - k, d);
    }
  }

  /** The offset sent to the engine identifies the requested page: no two pages share an offset. */
  lemma OffsetRoundTrip(page: int, size: int)
    requires size > 0
    ensures PageAt(Offset(page, size), size) == page
  {
    DivOfMultiple(page - 1, size);
  }

  /** One hit as a post: `_id` and, when asked for, `_score` overlaid on `_source`. */
  function DecodeHit(hit: RawHit, withScore: bool): Option<Post> {
    ToPost(hit.id, hit.source, if withScore then hit.score else None)
  }

  /**
   All hits as posts, in engine order. Decoding fails as a whole when any source
   does not validate.
   */
  function DecodeHits(hits: seq<RawHit>, withScores: bool): (r: Option<seq<Post>>)
    ensures r.Some? <==> forall i :: 0 <= i < |hits| ==> hits[i].source.Valid()
    ensures r.Some? ==> |r.value| == |hits|
    ensures r.Some? ==> forall i :: 0 <= i < |hits| ==>
      && r.value[i].id == hits[i].id
      && r.value[i].score == (if withScores then hits[i].score else None)
      && ToSource(r.value[i]) == hits[i].source
  {
    if |hits| == 0 then
      Some([])
    else
      match DecodeHit(hits[0], withScores)
      case None => None
      case Some(p) =>
        match DecodeHits(hits[1..], withScores)
        case None => None
        case Some(ps) => Some([p] + ps)
  }
}
