/**
 The data shapes of the forum backend: posts as clients see them, posts as the
 document index stores them, partial updates and the search query/response.
 */
module Models {
  import opened Results

  /** A clock reading; the clock itself is outside the model and readings are passed in. */
  type Timestamp = int

  /** A relevance value assigned by the search engine; the model only copies it. */
  type Score = real

  /** The fields a client supplies when creating a post. `tags` defaults to the empty list. */
  datatype PostBase = PostBase(title: string, content: string, tags: seq<string>)

  /** A create request whose `tags` key was omitted. */
  function PostBaseWithoutTags(title: string, content: string): PostBase
  {
    PostBase(title, content, [])
  }

  /** A post as returned to clients; `score` is set only on search results. */
  datatype Post = Post(
    id: string,
    title: string,
    content: string,
    tags: seq<string>,
    createdAt: Timestamp,
    updatedAt: Timestamp,
    score: Option<Score>)

  /**
   The `_source` of a post in the index. A field may hold `null`; the backend never
   writes a missing key, so only `null` is modelled.
   */
  datatype Source = Source(
    title: Option<string>,
    content: Option<string>,
    tags: Option<seq<string>>,
    createdAt: Timestamp,
    updatedAt: Timestamp)
  {
    /** The source validates as a `Post`: no required field is `null`. */
    predicate Valid() {
      title.Some? && content.Some? && tags.Some?
    }
  }

  /** The stored form of a post: its fields without the id and the score. */
  function ToSource(p: Post): (src: Source)
    ensures src.Valid()
    ensures src.title == Some(p.title) && src.content == Some(p.content) && src.tags == Some(p.tags)
    ensures src.createdAt == p.createdAt && src.updatedAt == p.updatedAt
  {
    Source(Some(p.title), Some(p.content), Some(p.tags), p.createdAt, p.updatedAt)
  }

  /**
   Validation of a source with an id and a score overlaid, as `Post(**data)` does:
   it fails exactly when a required field is `null`.
   */
  function ToPost(id: string, src: Source, score: Option<Score>): (r: Option<Post>)
    ensures r.Some? <==> src.Valid()
    ensures r.Some? ==> r.value.id == id && r.value.score == score && ToSource(r.value) == src
  {
    if src.Valid() then
      Some(Post(id, src.title.value, src.content.value, src.tags.value, src.createdAt, src.updatedAt, score))
    else
      None
  }

  /** Storing a post and validating it again gives the same post back. */
  lemma PostSourceRoundTrip(p: Post)
    ensures ToPost(p.id, ToSource(p), p.score) == Some(p)
  {
  }

  /** Validating a source and storing the post gives the same source back. */
  lemma SourcePostRoundTrip(id: string, src: Source, score: Option<Score>)
    requires src.Valid()
    ensures ToSource(ToPost(id, src, score).value) == src
  {
  }

  /** An update field: left out of the request, sent as `null`, or sent with a value. */
  datatype Field<+T> = Unset | Null | Set(value: T)

  /** A partial update; every field is optional. */
  datatype PostUpdate = PostUpdate(title: Field<string>, content: Field<string>, tags: Field<seq<string>>)
  {
    /** No field was sent, so the dump with `exclude_unset` is empty. */
    predicate IsEmpty() {
      title.Unset? && content.Unset? && tags.Unset?
    }
  }

  /** An update request with no field in it: every field takes its default. */
  const EmptyUpdate: PostUpdate := PostUpdate(Unset, Unset, Unset)

  /** The search parameters. `tags` is accepted but no endpoint reads it. */
  datatype SearchQuery = SearchQuery(
    query: string,
    tags: Option<seq<string>>,
    page: int,
    size: int,
    sortBy: Option<string>,
    sortOrder: Option<string>)

  /** A search query with every optional parameter at its default. */
  function DefaultSearchQuery(query: string): SearchQuery
  {
    SearchQuery(query, None, 1, 10, None, Some("desc"))
  }

  /** A page of search results; `tookMs` is the elapsed time measured by the backend. */
  datatype SearchResponse = SearchResponse(
    total: int,
    hits: seq<Post>,
    page: int,
    size: int,
    tookMs: Option<int>)
}
