/** The Comment schema: content and owner are required, the video and tweet references
    are optional, parentComment defaults to null, and the schema keeps timestamps. */
module CommentModel {

  import opened Js
  import opened ObjectIds

  /** A stored comment. `owner` is an `Id` because a document without one fails
      validation; the optional references are `Option`. */
  datatype Comment = Comment(
    id: Id, content: string, tweet: Option<Id>, video: Option<Id>, owner: Id,
    parentComment: Option<Id>, createdAt: int, updatedAt: int)

  function CommentId(c: Comment): Id { c.id }

  /** What the schema's validators demand of a stored comment: a required String
      rejects the empty string. */
  predicate SchemaValid(c: Comment)
  {
    c.content != ""
  }

  /** `new Comment({...}).save()`: the fields given, validated. Fails (None) when content
      or owner is missing; parentComment takes its default and both timestamps are the
      time of creation. */
  function NewComment(id: Id, content: Option<string>, video: Option<Id>, tweet: Option<Id>,
                      owner: Option<Id>, now: int): (r: Option<Comment>)
    ensures r.Some? <==> Truthy(content) && owner.Some?
    ensures r.Some? ==> SchemaValid(r.value)
    ensures r.Some? ==> r.value.id == id && r.value.content == content.value
    ensures r.Some? ==> r.value.video == video && r.value.tweet == tweet && r.value.owner == owner.value
    ensures r.Some? ==> r.value.parentComment == None
    ensures r.Some? ==> r.value.createdAt == now && r.value.updatedAt == now
  {
    if Truthy(content) && owner.Some? then
      Some(Comment(id, content.value, tweet, video, owner.value, None, now, now))
    else None
  }

  /** Nothing in the schema makes the two references exclusive: a valid comment may
      carry both, or neither. */
  lemma TargetsNotExclusive(id: Id, owner: Id, video: Id, tweet: Id, now: int)
    ensures exists c :: SchemaValid(c) && c.video.Some? && c.tweet.Some?
    ensures exists c :: SchemaValid(c) && c.video.None? && c.tweet.None?
  {
    var both := NewComment(id, Some("x"), Some(video), Some(tweet), Some(owner), now).value;
    assert SchemaValid(both) && both.video.Some? && both.tweet.Some?;
    var neither := NewComment(id, Some("x"), None, None, Some(owner), now).value;
    assert SchemaValid(neither) && neither.video.None? && neither.tweet.None?;
  }
}
