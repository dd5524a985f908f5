/**
 The tag listing endpoint: a zero-hit request with a `terms` aggregation over the
 `tags` field, answered with the bucket keys in the order the engine emits them.
 */
module Tags {
  import opened Results
  import opened Engine

  const AggregationName: string := "unique_tags"
  const TagsField: string := "tags"
  /** The most buckets the aggregation asks for. */
  const MaxBuckets: int := 1000
  const TagsFailed: HttpError := HttpError(500, "Failed to fetch tags")

  /** The aggregation request: no hits, no query, no sort, one `terms` aggregation on `tags`. */
  function TagsRequest(): (r: SearchRequest)
    ensures r.index == PostsIndex && r.size == 0
    ensures r.query.None? && r.from.None? && r.sort == [] && r.trackTotalHits.None?
    ensures r.aggs == [TermsAgg(AggregationName, TagsField, MaxBuckets)]
  {
    SearchRequest(PostsIndex, None, None, 0, [], None, [TermsAgg(AggregationName, TagsField, MaxBuckets)])
  }

  /** The key of every bucket, one per bucket, in bucket order. */
  function BucketKeys(buckets: seq<Bucket>): (r: seq<string>)
    ensures |r| == |buckets|
    ensures forall i :: 0 <= i < |buckets| ==> r[i] == buckets[i].key
  {
    seq(|buckets|, i requires 0 <= i < |buckets| => buckets[i].key)
  }

  /** No later bucket has the key of bucket `i`. */
  predicate LastWithKey(buckets: seq<Bucket>, i: int)
    requires 0 <= i < |buckets|
  {
    forall j :: i < j < |buckets| ==> buckets[j].key != buckets[i].key
  }

  /**
   The per-tag document counts, kept for diagnostics only; of two buckets with the
   same key, the later one wins.
   */
  function TagCounts(buckets: seq<Bucket>): (r: map<string, int>)
    ensures r.Keys == set i | 0 <= i < |buckets| :: buckets[i].key
  {
    if |buckets| == 0 then
      map[]
    else
      var rest := TagCounts(buckets[1..]);
      assert (set i | 0 <= i < |buckets| :: buckets[i].key)
          == {buckets[0].key} + (set i | 0 <= i < |buckets[1..]| :: buckets[1..][i].key);
      map[buckets[0].key := buckets[0].docCount] + rest
  }

  /** A tag's count is the count of the last bucket carrying it. */
  lemma {:induction false} LastBucketCountWins(buckets: seq<Bucket>, i: int)
    requires 0 <= i < |buckets| && LastWithKey(buckets, i)
    ensures buckets[i].key in TagCounts(buckets)
    ensures TagCounts(buckets)[buckets[i].key] == buckets[i].docCount
  {
    if i > 0 {
      assert LastWithKey(buckets[1..], i - 1);
      LastBucketCountWins(buckets[1..], i - 1);
    } else if |buckets| > 1 {
      assert buckets[0].key !in TagCounts(buckets[1..]);
    }
  }

  /** The tag listing, with the engine as a parameter; any failure is a 500. */
  function ListTags(engine: SearchRequest -> Reply): (r: Exchange<seq<string>>)
    ensures r.calls == [TagsRequest()]
    ensures r.result.Err? ==> r.result.error == TagsFailed
    ensures r.result.Ok? <==>
      engine(TagsRequest()).Answered? && AggregationName in engine(TagsRequest()).response.aggregations
    ensures r.result.Ok? ==>
      var buckets := engine(TagsRequest()).response.aggregations[AggregationName];
      && |r.result.value| == |buckets|
      && forall i :: 0 <= i < |buckets| ==> r.result.value[i] == buckets[i].key
  {
    var request := TagsRequest();
    match engine(request)
    case Raised(_) => Exchange([request], Err(TagsFailed))
    case Answered(raw) =>
      if AggregationName !in raw.aggregations then
        Exchange([request], Err(TagsFailed))
      else
        var buckets := raw.aggregations[AggregationName];
        var counts := TagCounts(buckets); // computed for the diagnostic log, not returned
        Exchange([request], Ok(BucketKeys(buckets)))
  }

  /** The computed counts cover exactly the listed tags. */
  lemma CountsCoverListedTags(engine: SearchRequest -> Reply)
    requires ListTags(engine).result.Ok?
    ensures TagCounts(engine(TagsRequest()).response.aggregations[AggregationName]).Keys
         == set i | 0 <= i < |ListTags(engine).result.value| :: ListTags(engine).result.value[i]
  {
    var buckets := engine(TagsRequest()).response.aggregations[AggregationName];
    var tags := ListTags(engine).result.value;
    assert forall i :: 0 <= i < |buckets| ==> tags[i] == buckets[i].key;
  }

  /** Two engines whose buckets differ only in their counts give the same tag list. */
  lemma CountsDoNotChangeTags(e1: SearchRequest -> Reply, e2: SearchRequest -> Reply)
    requires e1(TagsRequest()).Answered? && e2(TagsRequest()).Answered?
    requires AggregationName in e1(TagsRequest()).response.aggregations
    requires AggregationName in e2(TagsRequest()).response.aggregations
    requires
      var b1 := e1(TagsRequest()).response.aggregations[AggregationName];
      var b2 := e2(TagsRequest()).response.aggregations[AggregationName];
      |b1| == |b2| && forall i :: 0 <= i < |b1| ==> b1[i].key == b2[i].key
    ensures ListTags(e1) == ListTags(e2)
  {
    var b1 := e1(TagsRequest()).response.aggregations[AggregationName];
    var b2 := e2(TagsRequest()).response.aggregations[AggregationName];
    assert BucketKeys(b1) == BucketKeys(b2);
  }
}
