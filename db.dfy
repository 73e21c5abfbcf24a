/** The database the controllers work on: one collection per entity, each a sequence
    of documents in natural order. */
module Db {

  import opened Js
  import opened ObjectIds
  import opened Tables
  import opened Records
  import opened CommentModel

  /** `User.findById(id)` finds a document. */
  predicate UserExists(users: seq<User>, id: Id)
  {
    Has(users, UserId, id)
  }

  /** `Video.find({owner})`: the channel's videos, in collection order. */
  function VideosOf(videos: seq<Video>, owner: Id): (r: seq<Video>)
    ensures forall v :: v in r <==> v in videos && v.owner == owner
    ensures |r| <= |videos|
  {
    Filter(videos, (v: Video) => v.owner == owner)
  }

  /** `Comment.find({video: videoId})`, in collection order. */
  function CommentsOn(comments: seq<Comment>, videoId: Id): (r: seq<Comment>)
    ensures forall c :: c in r <==> c in comments && c.video == Some(videoId)
  {
    Filter(comments, (c: Comment) => c.video == Some(videoId))
  }

  /** `Like.find({video: videoId})`: the likes on a video, in collection order. */
  function LikesOn(likes: seq<Like>, videoId: Id): (r: seq<Like>)
    ensures forall l :: l in r <==> l in likes && l.target == OnVideo(videoId)
  {
    Filter(likes, (l: Like) => l.target == OnVideo(videoId))
  }

  class Store {
    var users: seq<User>
    var videos: seq<Video>
    var likes: seq<Like>
    var playlists: seq<Playlist>
    var subscriptions: seq<Subscription>
    var comments: seq<Comment>
    var tweets: seq<Tweet>

    /** What every operation keeps: `_id` is unique in every collection, usernames and
        emails are unique, at most one like per (target, likedBy) and one subscription
        per (subscriber, channel), and every comment passes the schema's validation. */
    ghost predicate Valid()
      reads this
    {
      && Distinct(users, UserId) && Distinct(users, UserName) && Distinct(users, UserEmail)
      && Distinct(videos, VideoId)
      && Distinct(likes, LikeId) && Distinct(likes, LikeKey)
      && Distinct(playlists, PlaylistId)
      && Distinct(subscriptions, SubscriptionId) && Distinct(subscriptions, SubscriptionKey)
      && Distinct(comments, CommentId) && (forall c :: c in comments ==> SchemaValid(c))
      && Distinct(tweets, TweetId)
    }

    /** An empty database. */
    constructor ()
      ensures Valid()
      ensures users == [] && videos == [] && likes == [] && playlists == []
      ensures subscriptions == [] && comments == [] && tweets == []
    {
      users, videos, likes, playlists := [], [], [], [];
      subscriptions, comments, tweets := [], [], [];
    }
  }
}
