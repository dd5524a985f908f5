/**
 The post endpoints: create, get, list, update and delete. The index is a map from
 id to stored source plus a flag saying whether the index answers at all; the list
 query goes to an engine function like the search does.
 */
module Posts {
  import opened Results
  import opened Models
  import opened Engine
  import Text

  /** The stored posts by id, and whether the index is reachable. */
  datatype Store = Store(docs: map<string, Source>, available: bool)

  /** The index after an endpoint ran, and what the endpoint answered. */
  datatype Outcome<+T> = Outcome(store: Store, result: Result<T>)

  const NotFound: HttpError := HttpError(404, "Post not found")
  const CreateFailed: HttpError := HttpError(500, "Failed to create post")
  const ListFailed: HttpError := HttpError(500, "Failed to list posts")
  const DeletedMessage: string := "Post deleted successfully"

  /** A stored post that validates and whose tags are normalised. */
  predicate WellFormed(src: Source) {
    src.Valid() && Text.AllLower(src.tags.value)
  }

  /** Every stored post is well formed. */
  predicate ValidStore(s: Store) {
    forall id :: id in s.docs ==> WellFormed(s.docs[id])
  }

  /**
   Create: tags lower-cased, both timestamps stamped from two clock readings, the
   post indexed under the id the index assigns. An unreachable index gives a 500.
   */
  function CreatePost(s: Store, post: PostBase, createdAt: Timestamp, updatedAt: Timestamp, newId: string)
    : (r: Outcome<Post>)
    ensures !s.available ==> r == Outcome(s, Err(CreateFailed))
    ensures s.available ==> r.result.Ok?
    ensures r.result.Ok? ==>
      && r.result.value.id == newId
      && r.result.value.title == post.title && r.result.value.content == post.content
      && r.result.value.tags == Text.LowerTags(post.tags)
      && r.result.value.createdAt == createdAt && r.result.value.updatedAt == updatedAt
      && r.result.value.score.None?
      && r.store == s.(docs := s.docs[newId := ToSource(r.result.value)])
  {
    if !s.available then
      Outcome(s, Err(CreateFailed))
    else
      var created := Post(newId, post.title, post.content, Text.LowerTags(post.tags), createdAt, updatedAt, None);
      Outcome(s.(docs := s.docs[newId := ToSource(created)]), Ok(created))
  }

  /** Get: the stored source with the id overlaid and no score; any failure is a 404. */
  function GetPost(s: Store, id: string): (r: Result<Post>)
    ensures r.Ok? <==> s.available && id in s.docs && s.docs[id].Valid()
    ensures r.Ok? ==> r.value.id == id && r.value.score.None? && ToSource(r.value) == s.docs[id]
    ensures r.Err? ==> r.error == NotFound
  {
    if !s.available || id !in s.docs then
      Err(NotFound)
    else
      match ToPost(id, s.docs[id], None)
      case Some(p) => Ok(p)
      case None => Err(NotFound)
  }

  /** The list request: every post, newest first, one page at the offset of `page`. */
  function ListRequest(page: int, size: int): (r: SearchRequest)
    ensures r.index == PostsIndex && r.query == Some(MatchAll)
    ensures r.from == Some(Offset(page, size)) && r.size == size
    ensures r.sort == [ByField("created_at", Some("desc"))]
    ensures r.trackTotalHits.None? && r.aggs == []
  {
    SearchRequest(PostsIndex, Some(MatchAll), Some(Offset(page, size)), size,
                  [ByField("created_at", Some("desc"))], None, [])
  }

  /** List: one post per hit in engine order, id from `_id`, no score; any failure is a 500. */
  function ListPosts(page: int, size: int, engine: SearchRequest -> Reply): (r: Exchange<seq<Post>>)
    ensures r.calls == [ListRequest(page, size)]
    ensures r.result.Err? ==> r.result.error == ListFailed
    ensures engine(ListRequest(page, size)).Raised? ==> r.result.Err?
    ensures r.result.Ok? ==>
      var hits := engine(ListRequest(page, size)).response.hits;
      && engine(ListRequest(page, size)).Answered?
      && |r.result.value| == |hits|
      && forall i :: 0 <= i < |hits| ==>
           && r.result.value[i].id == hits[i].id
           && r.result.value[i].score.None?
           && ToSource(r.result.value[i]) == hits[i].source
    ensures engine(ListRequest(page, size)).Answered? ==>
      (r.result.Ok? <==> forall i :: 0 <= i < |engine(ListRequest(page, size)).response.hits| ==>
                            engine(ListRequest(page, size)).response.hits[i].source.Valid())
  {
    var request := ListRequest(page, size);
    match engine(request)
    case Raised(_) => Exchange([request], Err(ListFailed))
    case Answered(raw) =>
      match DecodeHits(raw.hits, false)
      case None => Exchange([request], Err(ListFailed))
      case Some(posts) => Exchange([request], Ok(posts))
  }

  /** The update with its tags lower-cased when tags were sent with a value. */
  function NormalizeTags(u: PostUpdate): PostUpdate {
    u.(tags := if u.tags.Set? then Set(Text.LowerTags(u.tags.value)) else u.tags)
  }

  /** A stored field after an update field is applied: kept when unset, overwritten otherwise. */
  function Overlay<T>(f: Field<T>, current: Option<T>): Option<T> {
    match f
    case Unset => current
    case Null => None
    case Set(v) => Some(v)
  }

  /** The stored post with the sent fields overwritten and `updated_at` refreshed. */
  function Merge(current: Source, u: PostUpdate, now: Timestamp): Source {
    current.(title := Overlay(u.title, current.title),
             content := Overlay(u.content, current.content),
             tags := Overlay(u.tags, current.tags),
             updatedAt := now)
  }

  /**
   Update as the endpoint performs it: fetch, overwrite every field present in the
   request (a `null` included), refresh `updated_at` and write back when anything was
   sent, then validate the merged post. Any failure is a 404, even one that happens
   after the write.
   */
  function UpdatePostAsWritten(s: Store, id: string, u: PostUpdate, now: Timestamp): (r: Outcome<Post>)
    ensures !s.available || id !in s.docs ==> r == Outcome(s, Err(NotFound))
    ensures s.available && id in s.docs && u.IsEmpty() ==> r == Outcome(s, GetPost(s, id))
    ensures s.available && id in s.docs && !u.IsEmpty() ==>
      var current := s.docs[id];
      && r.store.available
      && id in r.store.docs && r.store.docs == s.docs[id := r.store.docs[id]]
      && (u.title.Unset? ==> r.store.docs[id].title == current.title)
      && (u.title.Null? ==> r.store.docs[id].title.None?)
      && (u.title.Set? ==> r.store.docs[id].title == Some(u.title.value))
      && (u.content.Unset? ==> r.store.docs[id].content == current.content)
      && (u.content.Null? ==> r.store.docs[id].content.None?)
      && (u.content.Set? ==> r.store.docs[id].content == Some(u.content.value))
      && (u.tags.Unset? ==> r.store.docs[id].tags == current.tags)
      && (u.tags.Null? ==> r.store.docs[id].tags.None?)
      && (u.tags.Set? ==> r.store.docs[id].tags == Some(Text.LowerTags(u.tags.value)))
      && r.store.docs[id].createdAt == current.createdAt
      && r.store.docs[id].updatedAt == now
    ensures r.result.Ok? ==>
      && r.result.value.id == id && r.result.value.score.None?
      && id in r.store.docs && ToSource(r.result.value) == r.store.docs[id]
    ensures r.result.Err? ==> r.result.error == NotFound
    ensures s.available && id in s.docs ==> id in r.store.docs && (r.result.Ok? <==> r.store.docs[id].Valid())
  {
    if !s.available || id !in s.docs then
      Outcome(s, Err(NotFound))
    else
      var current := s.docs[id];
      var changes := NormalizeTags(u);
      var next := if changes.IsEmpty() then current else Merge(current, changes, now);
      var s' := if changes.IsEmpty() then s else s.(docs := s.docs[id := next]);
      match ToPost(id, next, None)
      case Some(p) => Outcome(s', Ok(p))
      case None => Outcome(s', Err(NotFound))
  }

  /**
   An update whose title is sent as `null` writes the `null` and answers 404; the post
   then cannot be fetched until a later update sends a title again.
   */
  lemma NullTitleWritesThenFails(s: Store, id: string, u: PostUpdate, now: Timestamp)
    requires s.available && id in s.docs && u.title.Null?
    ensures UpdatePostAsWritten(s, id, u, now).result == Err(NotFound)
    ensures id in UpdatePostAsWritten(s, id, u, now).store.docs
    ensures UpdatePostAsWritten(s, id, u, now).store.docs[id].title.None?
    ensures !ValidStore(UpdatePostAsWritten(s, id, u, now).store)
    ensures GetPost(UpdatePostAsWritten(s, id, u, now).store, id) == Err(NotFound)
  {
    var r := UpdatePostAsWritten(s, id, u, now);
    assert !WellFormed(r.store.docs[id]);
  }

  /** The update with every `null` field treated as not sent. */
  function DropNulls(u: PostUpdate): (r: PostUpdate)
    ensures !r.title.Null? && !r.content.Null? && !r.tags.Null?
    ensures u.title.Set? ==> r.title == u.title
    ensures u.content.Set? ==> r.content == u.content
    ensures u.tags.Set? ==> r.tags == u.tags
    ensures !u.title.Set? ==> r.title.Unset?
    ensures !u.content.Set? ==> r.content.Unset?
    ensures !u.tags.Set? ==> r.tags.Unset?
    ensures r.IsEmpty() <==> !u.title.Set? && !u.content.Set? && !u.tags.Set?
  {
    PostUpdate(if u.title.Null? then Unset else u.title,
               if u.content.Null? then Unset else u.content,
               if u.tags.Null? then Unset else u.tags)
  }

  /**
   Update with the evident intent: fields sent with a value overwrite, fields left out
   or sent as `null` keep their stored value. A well-formed index stays well formed, and
   a 404 never comes with a write.
   */
  function UpdatePost(s: Store, id: string, u: PostUpdate, now: Timestamp): (r: Outcome<Post>)
    ensures ValidStore(s) ==> ValidStore(r.store)
    ensures ValidStore(s) ==> (r.result.Ok? <==> s.available && id in s.docs)
    ensures ValidStore(s) && r.result.Err? ==> r == Outcome(s, Err(NotFound))
    ensures r.result.Ok? ==>
      && r.result.value.id == id && r.result.value.score.None?
      && id in s.docs && id in r.store.docs && ToSource(r.result.value) == r.store.docs[id]
      && Some(r.result.value.title) == (if u.title.Set? then Some(u.title.value) else s.docs[id].title)
      && Some(r.result.value.content) == (if u.content.Set? then Some(u.content.value) else s.docs[id].content)
      && Some(r.result.value.tags) == (if u.tags.Set? then Some(Text.LowerTags(u.tags.value)) else s.docs[id].tags)
      && r.result.value.createdAt == s.docs[id].createdAt
      && r.result.value.updatedAt == (if DropNulls(u).IsEmpty() then s.docs[id].updatedAt else now)
    ensures r.result.Ok? ==> r.store == s.(docs := s.docs[id := ToSource(r.result.value)])
  {
    UpdatePostAsWritten(s, id, DropNulls(u), now)
  }

  /** Delete: the id is removed; a missing id or an unreachable index is a 404. */
  function DeletePost(s: Store, id: string): (r: Outcome<string>)
    ensures r.result.Ok? <==> s.available && id in s.docs
    ensures r.result.Ok? ==> r.result.value == DeletedMessage && r.store == s.(docs := s.docs - {id})
    ensures r.result.Err? ==> r == Outcome(s, Err(NotFound))
  {
    if !s.available || id !in s.docs then Outcome(s, Err(NotFound))
    else Outcome(s.(docs := s.docs - {id}), Ok(DeletedMessage))
  }

  /** Fetching a just-created post by its returned id gives back exactly the created post. */
  lemma GetAfterCreate(s: Store, post: PostBase, createdAt: Timestamp, updatedAt: Timestamp, newId: string)
    requires s.available
    ensures GetPost(CreatePost(s, post, createdAt, updatedAt, newId).store, newId)
         == CreatePost(s, post, createdAt, updatedAt, newId).result
  {
    var r := CreatePost(s, post, createdAt, updatedAt, newId);
    PostSourceRoundTrip(r.result.value);
  }

  /** A create request that omits its tags stores and returns a post with no tags. */
  lemma CreateWithoutTags(s: Store, title: string, content: string, createdAt: Timestamp, updatedAt: Timestamp, newId: string)
    requires s.available
    ensures CreatePost(s, PostBaseWithoutTags(title, content), createdAt, updatedAt, newId).result.value.tags == []
  {
  }

  /** Creating a post keeps every stored post well formed. */
  lemma CreateKeepsStoreValid(s: Store, post: PostBase, createdAt: Timestamp, updatedAt: Timestamp, newId: string)
    requires ValidStore(s)
    ensures ValidStore(CreatePost(s, post, createdAt, updatedAt, newId).store)
  {
  }

  /** Fetching an updated post gives back what the update answered. */
  lemma GetAfterUpdate(s: Store, id: string, u: PostUpdate, now: Timestamp)
    requires UpdatePost(s, id, u, now).result.Ok?
    ensures GetPost(UpdatePost(s, id, u, now).store, id) == UpdatePost(s, id, u, now).result
  {
    var r := UpdatePost(s, id, u, now);
    PostSourceRoundTrip(r.result.value);
  }

  /** An update with no field in it writes nothing and answers what a get answers. */
  lemma EmptyUpdateIsNoOp(s: Store, id: string, now: Timestamp)
    ensures UpdatePostAsWritten(s, id, EmptyUpdate, now) == Outcome(s, GetPost(s, id))
    ensures UpdatePost(s, id, EmptyUpdate, now) == Outcome(s, GetPost(s, id))
  {
  }

  /** Sending the same update twice at the same time has the effect of sending it once. */
  lemma UpdateIdempotent(s: Store, id: string, u: PostUpdate, now: Timestamp)
    ensures UpdatePostAsWritten(UpdatePostAsWritten(s, id, u, now).store, id, u, now)
         == UpdatePostAsWritten(s, id, u, now)
  {
  }

  /** Deleting a post keeps every remaining post well formed. */
  lemma DeleteKeepsStoreValid(s: Store, id: string)
    requires ValidStore(s)
    ensures ValidStore(DeletePost(s, id).store)
  {
  }

  /** After a delete, and for an id that was never there, get and delete both answer 404. */
  lemma GetAfterDelete(s: Store, id: string)
    ensures GetPost(DeletePost(s, id).store, id) == Err(NotFound)
    ensures id !in s.docs ==> DeletePost(s, id).result == Err(NotFound) && GetPost(s, id) == Err(NotFound)
  {
  }

  /** A post listed or fetched never carries a score; only search results do. */
  lemma NoScoreOutsideSearch(s: Store, id: string, page: int, size: int, engine: SearchRequest -> Reply)
    ensures GetPost(s, id).Ok? ==> GetPost(s, id).value.score.None?
    ensures ListPosts(page, size, engine).result.Ok? ==>
      forall i :: 0 <= i < |ListPosts(page, size, engine).result.value| ==>
        ListPosts(page, size, engine).result.value[i].score.None?
  {
  }
}
