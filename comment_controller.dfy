/** Comments on a video: the paginated list, creation, editing the content, and
    deletion. Every failure in the four handlers is caught and answered with status
    500, its message appended to the handler's own. */
module CommentController {

  import opened Js
  import opened ObjectIds
  import opened Envelope
  import opened Tables
  import opened Paging
  import opened CommentModel
  import opened Db

  const ListPrefix := "something went wrong while getting all comments "

  /** getVideoComments, with `page` and `limit` defaulting to 1 and 10. Page 0 with a
      positive limit asks the database for a negative skip, which it refuses with the
      message `skipError`. */
  function GetVideoComments(comments: seq<Comment>, videoId: string, page: Option<nat>, limit: Option<nat>,
                            skipError: string): (r: Outcome<seq<Comment>>)
    ensures videoId == "" ==> r == Fail(500, ListPrefix + "please provide videoId")
    ensures videoId != "" && !IsValidObjectId(videoId) ==>
      r == Fail(500, ListPrefix + "this video is not available in database")
    ensures IsValidObjectId(videoId) && page == Some(0) && LimitOrDefault(limit) > 0 ==> r == Fail(500, ListPrefix + skipError)
    ensures r.Ok? <==> IsValidObjectId(videoId) && (page != Some(0) || LimitOrDefault(limit) == 0)
    ensures r.Ok? ==> r == Reply(200, r.data, "all comment loaded successfully")
    ensures r.Ok? ==> r.data == Window(CommentsOn(comments, videoId), SkipOf(PageOrDefault(page), LimitOrDefault(limit)), LimitOrDefault(limit))
    ensures r.Ok? && limit.None? ==> |r.data| <= 10
    ensures r.Ok? ==> forall c :: c in r.data ==> c in comments && c.video == Some(videoId)
  {
    if videoId == "" then
      Fail(500, ListPrefix + "please provide videoId")
    else if !IsValidObjectId(videoId) then
      Fail(500, ListPrefix + "this video is not available in database")
    else
      var skip := SkipOf(PageOrDefault(page), LimitOrDefault(limit));
      if skip < 0 then
        Fail(500, ListPrefix + skipError)
      else
        var found := CommentsOn(comments, videoId);
        var w := Window(found, skip, LimitOrDefault(limit));
        assert forall c :: c in w ==> c in found by {
          forall c | c in w ensures c in found {
            var i :| 0 <= i < |w| && w[i] == c;
          }
        }
        Reply(200, w, "all comment loaded successfully")
  }

  const AddPrefix := "something went wrong while adding new comment "

  /** addComment: checks the video id is present, the comment is present, then the id is
      valid; the new comment belongs to the current user and references the video. */
  method AddComment(db: Store, comment: Option<string>, videoId: string, me: Id, newId: Id, now: int)
    returns (r: Outcome<Comment>)
    requires db.Valid()
    requires FreshKey(db.comments, CommentId, newId)
    modifies db`comments
    ensures db.Valid()
    ensures videoId == "" ==> r == Fail(500, AddPrefix + "please provide videoId")
    ensures videoId != "" && !Truthy(comment) ==> r == Fail(500, AddPrefix + "please provide comment")
    ensures videoId != "" && Truthy(comment) && !IsValidObjectId(videoId) ==>
      r == Fail(500, AddPrefix + "this video is not available in database")
    ensures r.Err? ==> db.comments == old(db.comments)
    ensures r.Ok? <==> Truthy(comment) && IsValidObjectId(videoId)
    ensures r.Ok? ==>
      && r == Reply(201, Comment(newId, comment.value, None, Some(videoId), me, None, now, now),
                    "comment added successfully")
      && db.comments == old(db.comments) + [r.data]
  {
    if videoId == "" {
      r := Fail(500, AddPrefix + "please provide videoId");
      return;
    }
    if !Truthy(comment) {
      r := Fail(500, AddPrefix + "please provide comment");
      return;
    }
    if !IsValidObjectId(videoId) {
      r := Fail(500, AddPrefix + "this video is not available in database");
      return;
    }
    var c := NewComment(newId, comment, Some(videoId), None, Some(me), now).value;
    DistinctAppend(db.comments, CommentId, c);
    db.comments := db.comments + [c];
    r := Reply(201, c, "comment added successfully");
  }

  /** The comment after `findByIdAndUpdate(id, {content})`: only the content changes,
      and the timestamps record the update. */
  function Edited(c: Comment, content: string, now: int): (r: Comment)
    ensures r.content == content && r.updatedAt == now
    ensures r.id == c.id && r.owner == c.owner && r.video == c.video && r.tweet == c.tweet
    ensures r.parentComment == c.parentComment && r.createdAt == c.createdAt
  {
    c.(content := content, updatedAt := now)
  }

  const UpdatePrefix := "something went wrong while updating comment"

  /** updateComment: checks the comment id is present, the new content is present, the
      id is valid, then the comment exists (404); only that comment's content changes. */
  method UpdateComment(db: Store, comment: Option<string>, commentId: string, now: int)
    returns (r: Outcome<Comment>)
    requires db.Valid()
    modifies db`comments
    ensures db.Valid()
    ensures commentId == "" ==> r == Fail(500, UpdatePrefix + "please provide commentId")
    ensures commentId != "" && !Truthy(comment) ==> r == Fail(500, UpdatePrefix + "please provide comment")
    ensures commentId != "" && Truthy(comment) && !IsValidObjectId(commentId) ==>
      r == Fail(500, UpdatePrefix + "this comment is not available in database")
    ensures Truthy(comment) && IsValidObjectId(commentId) && !Has(old(db.comments), CommentId, commentId) ==>
      r == Fail(500, UpdatePrefix + "comment not found")
    ensures r.Err? ==> db.comments == old(db.comments)
    ensures r.Ok? <==> Truthy(comment) && IsValidObjectId(commentId) && Has(old(db.comments), CommentId, commentId)
    ensures r.Ok? ==>
      var i := FindKey(old(db.comments), CommentId, commentId).value;
      && db.comments == old(db.comments)[i := Edited(old(db.comments)[i], comment.value, now)]
      && r == Reply(200, db.comments[i], "comment updated successfully")
  {
    if commentId == "" {
      r := Fail(500, UpdatePrefix + "please provide commentId");
      return;
    }
    if !Truthy(comment) {
      r := Fail(500, UpdatePrefix + "please provide comment");
      return;
    }
    if !IsValidObjectId(commentId) {
      r := Fail(500, UpdatePrefix + "this comment is not available in database");
      return;
    }
    var found := FindKey(db.comments, CommentId, commentId);
    if found.None? {
      r := Fail(500, UpdatePrefix + "comment not found");
      return;
    }
    var i := found.value;
    var c := Edited(db.comments[i], comment.value, now);
    DistinctUpdate(db.comments, CommentId, i, c);
    db.comments := db.comments[i := c];
    r := Reply(200, c, "comment updated successfully");
  }

  const DeletePrefix := "something went wrong while deleting comment"

  /** deleteComment: checks the id is present, valid, then that the comment exists (404);
      exactly that comment is removed and returned. */
  method DeleteComment(db: Store, commentId: string) returns (r: Outcome<Comment>)
    requires db.Valid()
    modifies db`comments
    ensures db.Valid()
    ensures commentId == "" ==> r == Fail(500, DeletePrefix + "please provide commentId")
    ensures commentId != "" && !IsValidObjectId(commentId) ==>
      r == Fail(500, DeletePrefix + "this comment is not available in database")
    ensures IsValidObjectId(commentId) && !Has(old(db.comments), CommentId, commentId) ==>
      r == Fail(500, DeletePrefix + "comment not found")
    ensures r.Err? ==> db.comments == old(db.comments)
    ensures r.Ok? <==> IsValidObjectId(commentId) && Has(old(db.comments), CommentId, commentId)
    ensures r.Ok? ==>
      && r == Reply(200, Get(old(db.comments), CommentId, commentId).value, "comment deleted successfully")
      && db.comments == DeleteKey(old(db.comments), CommentId, commentId)
      && !Has(db.comments, CommentId, commentId)
  {
    if commentId == "" {
      r := Fail(500, DeletePrefix + "please provide commentId");
      return;
    }
    if !IsValidObjectId(commentId) {
      r := Fail(500, DeletePrefix + "this comment is not available in database");
      return;
    }
    var found := Get(db.comments, CommentId, commentId);
    if found.None? {
      r := Fail(500, DeletePrefix + "comment not found");
      return;
    }
    DeleteKeepsSchema(db.comments, commentId);
    db.comments := DeleteKey(db.comments, CommentId, commentId);
    r := Reply(200, found.value, "comment deleted successfully");
  }

  /** Deleting a comment keeps every remaining one schema-valid. */
  lemma DeleteKeepsSchema(comments: seq<Comment>, commentId: Id)
    requires forall c :: c in comments ==> SchemaValid(c)
    ensures forall c :: c in DeleteKey(comments, CommentId, commentId) ==> SchemaValid(c)
  {
    var r := DeleteKey(comments, CommentId, commentId);
    forall c | c in r ensures SchemaValid(c) {
      assert c in multiset(r);
    }
  }
}
