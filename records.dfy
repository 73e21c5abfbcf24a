/** The documents of the users, videos, likes, playlists, subscriptions and tweets
    collections. Comments have a module of their own (CommentModel). */
module Records {

  import opened Js
  import opened ObjectIds

  /** A user document. `password` is what registration received (the hashing hook is
      not part of this model). */
  datatype User = User(
    id: Id, username: string, email: string, fullName: string, password: string,
    avatar: string, coverImage: string, refreshToken: Option<string>, watchHistory: seq<Id>)

  /** A user as `.select("-password -refreshToken")` returns it: the type has no field
      for either secret. */
  datatype PublicUser = PublicUser(
    id: Id, username: string, email: string, fullName: string,
    avatar: string, coverImage: string, watchHistory: seq<Id>)

  function Public(u: User): PublicUser
  {
    PublicUser(u.id, u.username, u.email, u.fullName, u.avatar, u.coverImage, u.watchHistory)
  }

  datatype Video = Video(
    id: Id, videoFile: string, thumbnail: string, title: string, description: string,
    duration: int, views: nat, isPublished: bool, owner: Id)

  /** The one reference a like carries: a video, a comment or a tweet. */
  datatype LikeTarget = OnVideo(video: Id) | OnComment(comment: Id) | OnTweet(tweet: Id)

  datatype Like = Like(id: Id, target: LikeTarget, likedBy: Id)

  /** A playlist; `name` and `description` are absent when they were never given or were
      set to `undefined`. */
  datatype Playlist = Playlist(
    id: Id, name: Option<string>, description: Option<string>, owner: Id, videos: seq<string>)

  datatype Subscription = Subscription(id: Id, subscriber: Id, channel: Id)

  datatype Tweet = Tweet(id: Id, title: Option<string>, content: Option<string>, owner: Id)

  function UserId(u: User): Id { u.id }
  function UserName(u: User): string { u.username }
  function UserEmail(u: User): string { u.email }
  function VideoId(v: Video): Id { v.id }
  function LikeId(l: Like): Id { l.id }
  /** The composite key of a like: what it targets and who liked it. */
  function LikeKey(l: Like): (LikeTarget, Id) { (l.target, l.likedBy) }
  function PlaylistId(p: Playlist): Id { p.id }
  function SubscriptionId(s: Subscription): Id { s.id }
  /** The composite key of a subscription. */
  function SubscriptionKey(s: Subscription): (Id, Id) { (s.subscriber, s.channel) }
  function TweetId(t: Tweet): Id { t.id }
}
