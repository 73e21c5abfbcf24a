/** Likes: the three toggles (on a video, a comment, a tweet) and the list of the
    current user's likes. */
module LikeController {

  import opened Js
  import opened ObjectIds
  import opened Envelope
  import opened Tables
  import opened Toggles
  import opened Records
  import opened Db

  /** Which of the three toggle handlers runs; they differ only in the reference they
      set and in their messages. */
  datatype Kind = VideoLike | CommentLike | TweetLike

  function TargetOf(kind: Kind, id: Id): LikeTarget
  {
    match kind
    case VideoLike => OnVideo(id)
    case CommentLike => OnComment(id)
    case TweetLike => OnTweet(id)
  }

  function InvalidIdMessage(kind: Kind): string
  {
    match kind
    case VideoLike => "Invalid Video ID"
    case CommentLike => "Invalid comment ID"
    case TweetLike => "Invalid tweet ID"
  }

  function LikedMessage(kind: Kind): string
  {
    match kind
    case VideoLike => "Video liked successfully"
    case CommentLike => "comment liked successfully"
    case TweetLike => "tweet liked successfully"
  }

  function ServerErrorMessage(kind: Kind): string
  {
    match kind
    case VideoLike => "Server error while toggling video like"
    case CommentLike => "Server error while toggling comment like"
    case TweetLike => "Server error while toggling tweet like"
  }

  /** `user` has liked `target`. */
  predicate Liked(likes: seq<Like>, target: LikeTarget, user: Id)
  {
    Has(likes, LikeKey, (target, user))
  }

  /** The likes collection after one toggle by `user` on `target`. */
  function LikeToggled(likes: seq<Like>, target: LikeTarget, user: Id, newId: Id): (r: seq<Like>)
    ensures Distinct(likes, LikeKey) ==> (Liked(r, target, user) <==> !Liked(likes, target, user))
    ensures Distinct(likes, LikeKey) ==> Distinct(r, LikeKey)
    ensures !Liked(likes, target, user) ==> multiset(r) == multiset(likes) + multiset{Like(newId, target, user)}
  {
    Toggle(likes, LikeKey, (target, user), Like(newId, target, user))
  }

  /** toggleVideoLike, toggleCommentLike and toggleTweetLike. The existence lookup of the
      target in the source (`Model.find`) returns an array, which is always truthy, so
      the target is never checked to exist and the like is keyed on the id from the
      route. Every failure is answered with status 500, carrying the inner error. */
  method ToggleLike(db: Store, kind: Kind, targetId: string, me: Id, newId: Id)
    returns (r: Outcome<Option<Like>>)
    requires db.Valid()
    requires FreshKey(db.likes, LikeId, newId)
    modifies db`likes
    ensures db.Valid()
    ensures !IsValidObjectId(targetId) ==>
      && r == Wrap(500, ServerErrorMessage(kind), ApiError(404, InvalidIdMessage(kind)))
      && db.likes == old(db.likes)
    ensures IsValidObjectId(targetId) ==>
      db.likes == LikeToggled(old(db.likes), TargetOf(kind, targetId), me, newId)
    ensures IsValidObjectId(targetId) && Liked(old(db.likes), TargetOf(kind, targetId), me) ==>
      r == Reply(200, None, "Like removed successfully")
    ensures IsValidObjectId(targetId) && !Liked(old(db.likes), TargetOf(kind, targetId), me) ==>
      r == Reply(200, Some(Like(newId, TargetOf(kind, targetId), me)), LikedMessage(kind))
  {
    if !IsValidObjectId(targetId) {
      r := Wrap(500, ServerErrorMessage(kind), ApiError(404, InvalidIdMessage(kind)));
      return;
    }
    var target := TargetOf(kind, targetId);
    var existing := FindKey(db.likes, LikeKey, (target, me));
    if existing.Some? {
      DistinctRemoveAt(db.likes, LikeId, existing.value);
      db.likes := RemoveAt(db.likes, existing.value);
      r := Reply(200, None, "Like removed successfully");
    } else {
      var like := Like(newId, target, me);
      DistinctAppend(db.likes, LikeId, like);
      db.likes := db.likes + [like];
      r := Reply(200, Some(like), LikedMessage(kind));
    }
  }

  /** A toggle adds or removes exactly the like with that (target, likedBy) key: it flips
      whether the user likes the target and leaves every like with another key as it was. */
  lemma {:induction false} ToggleTouchesOnlyItsKey(likes: seq<Like>, target: LikeTarget, user: Id, newId: Id)
    requires Distinct(likes, LikeKey)
    ensures Liked(LikeToggled(likes, target, user, newId), target, user) <==> !Liked(likes, target, user)
    ensures forall l :: LikeKey(l) != (target, user) ==>
      multiset(LikeToggled(likes, target, user, newId))[l] == multiset(likes)[l]
  {
    var t := LikeToggled(likes, target, user, newId);
    assert LikeKey(Like(newId, target, user)) == (target, user);
  }

  /** Two successive toggles by one user on one target: the same (target, likedBy) keys are
      present afterwards, and when the user had not liked the target the collection is
      exactly what it was. */
  lemma {:induction false} ToggleLikeTwice(likes: seq<Like>, target: LikeTarget, user: Id, id1: Id, id2: Id)
    requires Distinct(likes, LikeKey)
    ensures forall t, u :: Liked(LikeToggled(LikeToggled(likes, target, user, id1), target, user, id2), t, u)
                           <==> Liked(likes, t, u)
    ensures !Liked(likes, target, user) ==>
      LikeToggled(LikeToggled(likes, target, user, id1), target, user, id2) == likes
  {
    var a := Like(id1, target, user);
    var b := Like(id2, target, user);
    forall t, u ensures Liked(LikeToggled(LikeToggled(likes, target, user, id1), target, user, id2), t, u)
                        <==> Liked(likes, t, u) {
      ToggleTwiceKeys(likes, LikeKey, (target, user), a, b, (t, u));
    }
    if !Liked(likes, target, user) {
      ToggleTwiceFromAbsent(likes, LikeKey, (target, user), a, b);
    }
  }

  /** getLikedVideos: every like whose likedBy is the current user, whatever it targets;
      nothing in it can fail. */
  function GetLikedVideos(likes: seq<Like>, me: Id): (r: Outcome<seq<Like>>)
    ensures r.Ok? && r.status == 200 && r.msg == "liked videos fetched successfully"
    ensures forall l :: l in r.data <==> l in likes && l.likedBy == me
    ensures |r.data| <= |likes|
  {
    Reply(200, Filter(likes, (l: Like) => l.likedBy == me), "liked videos fetched successfully")
  }
}
