# Video-sharing backend: controllers over an in-memory store

This project models the backend of a video-sharing and micro-blogging site built on
Express and Mongoose. It covers:

- videos, likes, playlists, subscriptions, users, comments, tweets, and a channel dashboard;
- the JWT middleware that guards the routes.

Every controller handler has the same shape. It validates its input, reads or changes
one or two collections, and answers with an `ApiResponse` on success or an `ApiError`
on failure.

The model keeps that shape:

- The database is one object, `Db.Store`. It holds one sequence per collection, in
  natural (insertion) order. Its invariant `Valid()` requires:
  - unique ids in every collection;
  - unique usernames and e-mails;
  - at most one like per (target, liker) and one subscription per (subscriber, channel);
  - every comment passes the comment schema's validation.
- Handlers that change the database are methods on the store. Each states the new
  state of what it modifies and keeps `Valid()`. Handlers that only read are functions.
- The answer is an `Envelope.Outcome`: `Ok(status, bodyStatus, data, msg)` or
  `Err(status, bodyStatus, msg, cause)`.
  - `status` is the HTTP status and `bodyStatus` the code written in the JSON body. The
    two differ where the source sets one and writes the other.
  - `cause` is what an error carries: a caught `ApiError`, the text of one, or an error
    of the database driver.
- Request fields that may be `undefined` are `Option<string>`. A check on one tests
  JavaScript truthiness (`Js.Truthy`). Route parameters are strings, where `""` is falsy.
- `ObjectId.isValid` on a string is `ObjectIds.IsValidObjectId`: 24 hexadecimal digits.
- Ids the database assigns are parameters (`newId`). Each create requires that its
  `newId` is not yet used.
- The results of foreign calls are parameters:
  - Cloudinary uploads (the `secure_url`, or nothing) and deletions (the reported
    `result` for a public id and resource type);
  - the password comparison;
  - the signed tokens;
  - `jwt.verify`;
  - the clock (`now`).

The recurring quirks of the source are kept, not fixed:

- Many handlers catch every failure and answer 500.
- Updates overwrite fields with `""` or with `undefined`.
- Checks run in a fixed order, so which error a request gets depends on that order.

The like toggles look their target up with `Model.find`, which returns an array. Their
"not found" check therefore never fires, and the reference they store would be
undefined. The model keys each like on the id from the route, with no existence check.

## Model

| member | source | states |
|---|---|---|
| `Tables.FindKey` | src/controllers/like.controller.js:32-35 | `findOne` on a key finds the first document with that key; none is found exactly when no document has it |
| `Tables.Get` | src/controllers/playlist.controller.js:67-70 | `findById` returns a document of the collection with that id, or nothing exactly when none has it |
| `Tables.Filter` | src/controllers/playlist.controller.js:41-43 | `find(filter)` returns exactly the documents that match, never more than the collection holds |
| `Tables.FilterAppend` | Backend/src/controllers/dashboard.controller.js:18-22 | filtering a collection grown by one document is filtering the old part followed by that document if it matches |
| `Tables.Count` | Backend/src/controllers/dashboard.controller.js:18-22 | `countDocuments(filter)` is the size of `find(filter)`, and 0 exactly when nothing matches |
| `Tables.DeleteKey` | src/controllers/tweet.controller.js:105 | `findByIdAndDelete` removes exactly one document (the one found) when the key is present, nothing otherwise, and keeps ids unique with the key gone |
| `Tables.DeleteAfterAppend` | src/controllers/tweet.controller.js:16-21 | deleting by id the document just created gives back the collection as it was |
| `Toggles.Toggle` | src/controllers/like.controller.js:37-58 | the check-then-act toggle: an absent key becomes present with exactly one document added; a present key disappears with one document removed; documents with other keys keep their multiplicities; key uniqueness is kept |
| `Toggles.ToggleTwiceFromAbsent` | src/controllers/like.controller.js:37-58 | two toggles from the absent state restore the collection exactly |
| `Toggles.ToggleTwiceKeys` | src/controllers/like.controller.js:37-58 | two toggles from either state leave the same set of keys present |
| `Toggles.SameKeyPresence` | src/controllers/like.controller.js:39-53 | collections that agree on every document outside key `k` agree on the presence of every other key |
| `Paging.PageOrDefault` | Backend/src/controllers/comment.controller.js:14 | the page is 1 when the query has none, and the page sent otherwise |
| `Paging.LimitOrDefault` | Backend/src/controllers/comment.controller.js:14 | the limit is 10 when the query has none, and the limit sent otherwise |
| `Paging.SkipOf` | Backend/src/controllers/comment.controller.js:21 | the skip `(page - 1) * limit` is negative exactly for page 0 with a positive limit, and 0 on page 1 |
| `Paging.Window` | Backend/src/controllers/comment.controller.js:19-22 | `.skip(k).limit(n)` returns at most `n` documents (no limit for 0), the ones at positions `k`, `k+1`, … in order, and as many as there are |
| `Paging.PagesTile` | Backend/src/controllers/comment.controller.js:14-22 | pages 1 to n read in turn are exactly the first `n * limit` documents: no document is skipped or repeated |
| `Paging.TileStep` | Backend/src/controllers/comment.controller.js:21-22 | the window after the first k documents continues them: together they are the first k + limit documents |
| `Text.Trim` | src/controllers/user.controller.js:14 | `trim()` is never longer than the string, starts and ends with a character that is not white space, and leaves a string without white space unchanged |
| `Text.TrimIsEmptyIffBlank` | src/controllers/user.controller.js:14 | `trim()` gives `""` exactly for a string made only of white space |
| `Text.AfterLast` | Backend/src/controllers/video.controller.js:221 | `split("/").pop()` is the suffix after the last separator, free of it |
| `Text.BeforeFirst` | Backend/src/controllers/video.controller.js:221 | `split(".")[0]` is the prefix before the first separator, free of it |
| `Text.ReplaceFirst` | src/middlewares/auth.middleware.js:9 | `replace(pat, rep)` with a string pattern leaves a string without the pattern unchanged, and otherwise replaces exactly one occurrence |
| `Text.RemoveLeading` | src/middlewares/auth.middleware.js:9 | `replace("Bearer ", "")` on `"Bearer " + t` gives `t` |
| `Text.RemoveInside` | src/middlewares/auth.middleware.js:9 | `replace` removes the first occurrence of the pattern wherever it is |
| `Text.LexLeTotal` | Backend/src/controllers/video.controller.js:48 | string order used by the sort is total |
| `Text.LexLeTransitive` | Backend/src/controllers/video.controller.js:48 | string order used by the sort is transitive |
| `CommentModel.NewComment` | Backend/src/models/comment.model.js:4-30 | a comment saves exactly when content is non-empty and an owner is given; it keeps the fields given, parentComment defaults to null and both timestamps are the creation time |
| `CommentModel.TargetsNotExclusive` | Backend/src/models/comment.model.js:10-17 | the schema accepts a comment with both a tweet and a video reference, and one with neither |
| `ObjectIds.IsValidObjectId` | src/controllers/playlist.controller.js:13 | `ObjectId.isValid` on a string holds for 24 hexadecimal digits of either case |
| `Db.Store.constructor` | Backend/src/models/comment.model.js:4-30 | an empty database satisfies every invariant |
| `Db.VideosOf` | Backend/src/controllers/dashboard.controller.js:62 | `Video.find({owner})` returns exactly the channel's videos |
| `Db.CommentsOn` | Backend/src/controllers/video.controller.js:315 | the comments on a video are exactly those whose video reference is it |
| `Db.LikesOn` | Backend/src/controllers/video.controller.js:312 | the likes on a video are exactly those whose target is it |
| `LikeController.LikeToggled` | src/controllers/like.controller.js:32-58 | with like keys unique, one toggle flips whether the user likes the target and keeps the keys unique; from unliked it adds exactly the new like |
| `LikeController.ToggleLike` | src/controllers/like.controller.js:11-65 | an invalid id is a 404 answered as 500 with the handler's message and leaves likes alone; otherwise an existing (target, user) like is deleted with null data, and a missing one is created and returned; the three handlers differ only in target kind and messages |
| `LikeController.ToggleTouchesOnlyItsKey` | src/controllers/like.controller.js:37-58 | a toggle flips whether the user likes the target and leaves every like with another key unchanged |
| `LikeController.ToggleLikeTwice` | src/controllers/like.controller.js:37-58 | two toggles by the same user on the same target keep the same likes present, and restore the collection when the user had not liked it |
| `LikeController.GetLikedVideos` | src/controllers/like.controller.js:184-210 | exactly the likes given by the current user, whatever their target |
| `PlaylistController.RemoveAll` | src/controllers/playlist.controller.js:116-122 | `$pull` leaves no occurrence of the video, and changes nothing when the video is not listed |
| `PlaylistController.RemoveAllCounts` | src/controllers/playlist.controller.js:116-122 | `$pull` keeps every other video with its multiplicity and shortens the list by exactly the occurrences removed |
| `PlaylistController.RemoveAllAppend` | src/controllers/playlist.controller.js:116-122 | `$pull` distributes over concatenation, so it keeps the relative order of what stays |
| `PlaylistController.Pushed` | src/controllers/playlist.controller.js:86-90 | `$push` appends the video at the end and changes nothing else in the playlist |
| `PlaylistController.Pulled` | src/controllers/playlist.controller.js:116-122 | `$pull` removes the video from the list and changes nothing else in the playlist |
| `PlaylistController.PushAddsOccurrence` | src/controllers/playlist.controller.js:86-90 | `$push` allows duplicates: pushing adds one occurrence even when the video is already listed |
| `PlaylistController.PullAfterPush` | src/controllers/playlist.controller.js:86-122 | pulling a video pushed onto a list that did not hold it restores the playlist |
| `PlaylistController.VideoAndPlaylistIdValid` | src/controllers/playlist.controller.js:83 | `isValid(videoId && playlistId)` holds exactly when the video id is non-empty and the playlist id is valid: the video id itself is not validated |
| `PlaylistController.CreatePlaylist` | src/controllers/playlist.controller.js:8-32 | 400 only when name and description are both falsy and videoId truthy; 400 for an invalid video id; otherwise one playlist owned by the current user with `videos = [videoId]` is appended and returned |
| `PlaylistController.GetUserPlaylists` | src/controllers/playlist.controller.js:34-58 | an invalid id ends as 500; otherwise exactly the playlists whose owner is the user |
| `PlaylistController.GetPlaylistById` | src/controllers/playlist.controller.js:60-78 | succeeds exactly for a valid id of an existing playlist, returning it; an invalid id or a missing playlist ends as 500 |
| `PlaylistController.AddVideoToPlaylist` | src/controllers/playlist.controller.js:80-107 | succeeds exactly when the id check passes and the playlist exists; only that playlist changes, by `$push`; every failure ends as 500 and changes nothing |
| `PlaylistController.RemoveVideoFromPlaylist` | src/controllers/playlist.controller.js:109-141 | succeeds exactly when the id check passes and the playlist exists; only that playlist changes, by `$pull`; every failure ends as 500 and changes nothing |
| `PlaylistController.DeletePlaylist` | src/controllers/playlist.controller.js:143-164 | a valid id of an existing playlist deletes exactly that playlist and returns it; every failure ends as 500 and changes nothing |
| `PlaylistController.Renamed` | src/controllers/playlist.controller.js:178-187 | `$set` writes both name and description, an undefined one becoming absent, and keeps owner and videos |
| `PlaylistController.UpdatePlaylist` | src/controllers/playlist.controller.js:166-203 | needs a valid id, one truthy field and an existing playlist; then only that playlist is renamed; every failure ends as 500 |
| `SubscriptionController.SubscriptionToggled` | Backend/src/controllers/subscription.controller.js:30-69 | with subscription keys unique, one toggle flips whether the user is subscribed to the channel and keeps the keys unique; from unsubscribed it adds exactly the new subscription |
| `SubscriptionController.ToggleSubscription` | Backend/src/controllers/subscription.controller.js:8-75 | checks in order invalid channel id (400), missing channel (404), missing current user (404), each answered as 500 carrying it; then an existing subscription is removed with null data, or a new one is created and returned |
| `SubscriptionController.ToggleSubscriptionTwice` | Backend/src/controllers/subscription.controller.js:29-69 | two toggles keep the same subscriptions present, and restore the collection when the user was not subscribed |
| `SubscriptionController.SubscriberIds` | Backend/src/controllers/subscription.controller.js:94-99 | the mapped subscriber ids are exactly the users subscribed to the channel |
| `SubscriptionController.ChannelIds` | Backend/src/controllers/subscription.controller.js:133-138 | the mapped channel ids are exactly the channels the user is subscribed to |
| `SubscriptionController.UsersIn` | Backend/src/controllers/subscription.controller.js:103-105 | `User.find({_id: {$in: ids}})` gives exactly the listed users, without password or refresh token |
| `SubscriptionController.GetUserChannelSubscribers` | Backend/src/controllers/subscription.controller.js:77-121 | after the invalid-id and missing-channel errors (both 500), exactly the users subscribed to the channel, without secrets |
| `SubscriptionController.GetSubscribedChannels` | Backend/src/controllers/subscription.controller.js:124-160 | after the missing-user error (500), exactly the users the current user is subscribed to, without secrets |
| `UserController.FindByNameOrEmail` | src/controllers/user.controller.js:19-21 | `findOne({$or: [{username}, {email}]})` finds the first user with that username or that email, and none exactly when no user has either |
| `UserController.RegisterCheck` | src/controllers/user.controller.js:13-55 | registration errors in order: a field that trims to `""` (400; an undefined field passes), an existing username or email (409), no avatar (400), an avatar upload without URL (409); when it passes, the username and email are free |
| `UserController.NewUser` | src/controllers/user.controller.js:45-64 | the created user has the fields sent and the avatar URL; the cover image is `""` without a cover file or URL; no refresh token |
| `UserController.AddUser` | src/controllers/user.controller.js:57-64 | `User.create` of a user with unused id, username and email appends exactly that user and keeps them all unique |
| `UserController.RegisterUser` | src/controllers/user.controller.js:8-78 | a failed check changes nothing and answers with its status; otherwise the new user is appended and returned without secrets, with HTTP 201 and 200 in the body |
| `UserController.SetRefreshToken` | src/controllers/user.controller.js:90-91 | only the refresh token of the one user changes; every user's public part stays the same |
| `UserController.SetRefreshTokenTwice` | src/controllers/user.controller.js:150-160 | a later refresh-token write overrides an earlier one: a logout after a login leaves no refresh token |
| `UserController.SetRefreshTokenKeepsValid` | src/controllers/user.controller.js:90-91 | writing a refresh token keeps ids, usernames and emails unique |
| `UserController.GenerateTokens` | src/controllers/user.controller.js:81-98 | succeeds exactly for an existing user, storing the new refresh token on its record; a missing user ends as 500 |
| `UserController.LoginCheck` | src/controllers/user.controller.js:105-122 | 400 when username is missing or both email and password are; 404 when no user matches username or email; 401 on a wrong password; otherwise the user found |
| `UserController.LoginUser` | src/controllers/user.controller.js:100-144 | a failed check changes nothing and sets no cookie; otherwise the user's refresh token is stored, the user is returned without secrets with both tokens, and both cookies are set |
| `UserController.LogoutUser` | src/controllers/user.controller.js:146-175 | the current user's refresh token is removed, both cookies are cleared, and the reply is 200 |
| `CommentController.GetVideoComments` | Backend/src/controllers/comment.controller.js:8-35 | missing id, invalid id and a negative skip end as 500 with the inner message appended; otherwise the page of the video's comments for `page` and `limit` (defaults 1 and 10) |
| `CommentController.AddComment` | Backend/src/controllers/comment.controller.js:37-69 | checks the video id, the comment, then the id's validity (all ending as 500); then one comment by the current user on the video is appended and returned with 201 |
| `CommentController.Edited` | Backend/src/controllers/comment.controller.js:87-91 | an edit replaces only the content (and the update time) |
| `CommentController.UpdateComment` | Backend/src/controllers/comment.controller.js:71-104 | after the checks and a missing comment (404), all ending as 500, only that comment's content changes |
| `CommentController.DeleteComment` | Backend/src/controllers/comment.controller.js:106-131 | after the checks and a missing comment (404), all ending as 500, exactly that comment is removed and returned |
| `CommentController.DeleteKeepsSchema` | Backend/src/controllers/comment.controller.js:118 | deleting a comment keeps every remaining one schema-valid |
| `TweetController.CreateTweet` | src/controllers/tweet.controller.js:8-33 | rejected only when neither title nor content is truthy (401, answered as 500 carrying it); otherwise one tweet owned by the current user is appended and returned |
| `TweetController.TweetsOf` | src/controllers/tweet.controller.js:45 | `Tweet.find({owner})` returns exactly the user's tweets, empty exactly when the user has none |
| `TweetController.GetUserTweets` | src/controllers/tweet.controller.js:35-64 | an invalid id and zero tweets are both 404s answered as 500 with the inner message; a success is the user's tweets and never empty |
| `TweetController.Retitled` | src/controllers/tweet.controller.js:78-87 | `$set` writes both title and content, an undefined one becoming absent, and keeps id and owner |
| `TweetController.UpdateTweet` | src/controllers/tweet.controller.js:66-96 | the empty-fields check (400) comes before the id check (401); a missing tweet gives 500; otherwise only that tweet is retitled |
| `TweetController.DeleteTweet` | src/controllers/tweet.controller.js:98-114 | an invalid id gives 401 and a missing tweet 500; otherwise exactly that tweet is removed and returned |
| `DashboardController.SumViews` | Backend/src/controllers/dashboard.controller.js:27 | `$sum: "$views"` is 0 exactly when every video summed has no views |
| `DashboardController.SumViewsAppend` | Backend/src/controllers/dashboard.controller.js:25-32 | the views sum is additive over concatenation |
| `DashboardController.SumViewsBound` | Backend/src/controllers/dashboard.controller.js:25-32 | no video has more views than the sum over a collection holding it |
| `DashboardController.Stats` | Backend/src/controllers/dashboard.controller.js:18-32 | the counts of the channel's videos, its subscriptions and the likes it gave, and the views summed over its videos, 0 without videos and at least each video's views |
| `DashboardController.StatsAfterNewVideo` | Backend/src/controllers/dashboard.controller.js:18-32 | a new video adds one to its own channel's video count and its views to the total, and changes no other channel's figures |
| `DashboardController.GetChannelStats` | Backend/src/controllers/dashboard.controller.js:10-52 | an invalid channel id ends as 500; otherwise the channel's figures |
| `DashboardController.GetChannelVideos` | Backend/src/controllers/dashboard.controller.js:54-81 | an invalid channel id ends as 500; otherwise the body `{ videos }` holds exactly the videos the channel owns |
| `AuthMiddleware.SelectToken` | src/middlewares/auth.middleware.js:9 | a truthy accessToken cookie is the token; otherwise the Authorization header with its first "Bearer " removed; otherwise none |
| `AuthMiddleware.BearerHeaderYieldsToken` | src/middlewares/auth.middleware.js:9 | without a cookie, the header `Bearer t` yields `t` |
| `AuthMiddleware.PlainHeaderIsToken` | src/middlewares/auth.middleware.js:9 | without a cookie, a header without "Bearer " is the token as it is |
| `AuthMiddleware.Resolve` | src/middlewares/auth.middleware.js:12-27 | a request resolves to a user exactly when its token is truthy, verifies, carries a valid id, and a user has that id |
| `AuthMiddleware.VerifyJWT` | src/middlewares/auth.middleware.js:7-36 | on success the user without secrets is attached and `next` is called exactly once; every failure is a 500 and neither attaches a user nor calls `next` |
| `AuthMiddleware.Request.constructor` | src/middlewares/auth.middleware.js:7 | a fresh request has no user and `next` not yet called |
| `VideoSort.FieldOf` | Backend/src/controllers/video.controller.js:48 | `[sortBy]` selects one of the nine fields of a video document (`_id`, videoFile, thumbnail, title, description, duration, views, isPublished, owner), and leaves the order unsorted exactly for any other name or none |
| `VideoSort.KeyLeTotal` | Backend/src/controllers/video.controller.js:48 | the sort order on field values is total |
| `VideoSort.KeyLeTransitive` | Backend/src/controllers/video.controller.js:48 | the sort order on field values is transitive |
| `VideoSort.SortVideos` | Backend/src/controllers/video.controller.js:48 | `.sort({[sortBy]: "ascending"})` yields the same videos, ascending by the field in MongoDB's order (numbers, strings, ObjectIds, booleans with false first) |
| `VideoSort.InsertSorted` | Backend/src/controllers/video.controller.js:48 | inserting into an ascending list keeps it ascending and adds exactly that video |
| `VideoSort.SortSwapsTwo` | Backend/src/controllers/video.controller.js:48 | two videos out of order for the field come out swapped |
| `VideoSort.SortByThumbnail` | Backend/src/controllers/video.controller.js:48 | `sortBy=thumbnail` puts the video with thumbnail "a" before the one with "b" |
| `VideoSort.UnsortedKeepsOrder` | Backend/src/controllers/video.controller.js:48 | with `sortBy` absent or naming no field of a video, the natural order is kept |
| `VideoController.SortedPage` | Backend/src/controllers/video.controller.js:45-48 | the listed page is ascending by the field, holds at most `limit` videos, and only candidates |
| `VideoController.GetAllVideosAsWritten` | Backend/src/controllers/video.controller.js:19-59 | succeeds exactly when the skip is not negative and a truthy userId is a valid id, any other request being a driver error; without a userId the sorted page of all videos; with one, a single video, present exactly on the first page when some video's own id is the user id |
| `VideoController.UserIdLookupMissesOwnedVideo` | Backend/src/controllers/video.controller.js:50-53 | a user owning one video gets nothing from the code as written, and that video from the intended listing |
| `VideoController.GetAllVideos` | Backend/src/controllers/video.controller.js:19-59 | the sorted page, with defaults page 1 and limit 10, of all videos, or of the user's videos when a userId is given; a negative skip or an uncastable id is a driver error |
| `VideoController.PublishCheck` | Backend/src/controllers/video.controller.js:68-107 | in order: missing title or description (400), a missing file slot (400), an upload with no response (500) |
| `VideoController.PublishAVideo` | Backend/src/controllers/video.controller.js:61-139 | a failed check changes nothing and ends as 500 carrying it; otherwise one video (published, duration 2000, owner the current user, the upload URLs) is appended before the uploader is looked up, and the reply holds the uploader |
| `VideoController.GetVideoById` | Backend/src/controllers/video.controller.js:141-167 | HTTP 400 for an invalid id and 404 for a missing video, with 500 in the body; otherwise the video |
| `VideoController.Overwritten` | Backend/src/controllers/video.controller.js:172-180 | title, description and thumbnail take the values sent, `""` for any not sent; nothing else changes |
| `VideoController.UpdateVideo` | Backend/src/controllers/video.controller.js:169-193 | an empty id gives HTTP 400 and a missing video 404, both with 500 in the body; otherwise only that video is overwritten |
| `VideoController.PublicId` | Backend/src/controllers/video.controller.js:221-222 | the public id holds no `/` and no `.` |
| `VideoController.PublicIdOfUrl` | Backend/src/controllers/video.controller.js:221-222 | the public id of `…/<id>.<ext>` is `<id>` |
| `VideoController.RemoveVideo` | Backend/src/controllers/video.controller.js:246 | `findByIdAndDelete` removes exactly that video's record and keeps ids unique |
| `VideoController.DeleteVideo` | Backend/src/controllers/video.controller.js:196-265 | errors in order (empty id, missing video, missing URL, a storage deletion not "ok"), all 500 carrying the inner error; the record is deleted only when both deletions of the public ids report "ok" |
| `VideoController.PublishToggled` | Backend/src/controllers/video.controller.js:282-285 | only the one video's publish flag is negated |
| `VideoController.PublishToggleTwice` | Backend/src/controllers/video.controller.js:282-285 | toggling twice restores the collection |
| `VideoController.TogglePublishStatus` | Backend/src/controllers/video.controller.js:268-294 | an empty id gives 400 and a missing video 404; otherwise the flag is negated and the message names the new state |
| `VideoController.Viewed` | Backend/src/controllers/video.controller.js:303 | `$inc: {views: 1}` adds one view to that video only |
| `VideoController.GetVideoDetails` | Backend/src/controllers/video.controller.js:295-334 | an invalid id gives 400 and changes nothing; otherwise views are incremented first, a missing video gives 404, and the details carry the new view count and the numbers of likes and comments on the video |

## Left out

- Mongoose internals are not modelled:
  - `populate` and `select` beyond removing the two secrets;
  - casting of the string `page` and `limit` query values (they are natural numbers here);
  - the 12-byte form of `ObjectId.isValid`;
  - the `$match` of the dashboard aggregate. It compares the string `channelId` with stored
    ObjectIds without casting, so in the source it matches nothing and `totalViews` is 0
    for every channel. `DashboardController.Stats` sums the channel's views instead;
  - the case-insensitive cast of hexadecimal ids. Ids are compared as they are spelled, so
    an id sent in another case than the stored one finds nothing in the model;
  - `populate("user", "username ")` in getVideoComments names a path the comment schema
    does not have. The model assumes the call does not throw, although Mongoose's
    default strict populate would make it fail and the handler answer 500;
  - the password-hashing hook.
- The user, video, playlist, tweet, like and subscription schemas are not part of this model:
  - registration with an undefined field is modelled as a failed `User.create`, with an
    unspecified validation message;
  - a new video's views start at 0;
  - a filter condition on an undefined field matches nothing.
- `$set` of `undefined` is modelled as removing the field. This applies to playlist name
  and description, tweet title and content, and the refresh token on logout.
- Concurrency is not modelled. The toggles' check-then-act races and the unawaited
  `user.save` in token generation are outside a sequential model.
- The bodies of thrown errors are assumed to reach the client with their own status.
  `asyncHandler` and the error middleware are not part of this model.
- An error without a status code passed to `res.status` ends as a driver error (500).
- Cloudinary, bcrypt, JWT signing and `jwt.verify` are parameters. So are the multer
  file slots and the clock.
  - An upload that answers with no response is modelled as "no URL".
  - A deletion that answers with no response is not modelled.
- Logging and the cookie options are left out.
- `VideoSort.SortVideos`: equal keys keep their collection order. MongoDB does not promise
  any particular order for ties.
- `VideoSort.FieldOf`: the video schema is not part of this model, so only the nine fields
  of `Records.Video` are sortable. A `sortBy` of `createdAt`, `updatedAt` or `__v` leaves
  the natural order in the model. `VideoController.GetAllVideos` and
  `VideoController.GetAllVideosAsWritten` inherit this. ObjectIds are ordered by their
  hexadecimal spelling, which is their byte order for ids spelled in lower case.
- `VideoController.GetVideoById`: the `populate("owner", "username")` of the video is not
  modelled.
- `LikeController.ToggleLike`: the like is keyed on the route id. The source would store an
  undefined reference, because `Model.find` returns an array. Target existence is never
  checked.

## Findings

| source | as written | input that shows it | evidently intended | confidence | as-written member | corrected member |
|---|---|---|---|---|---|---|
| Backend/src/controllers/video.controller.js:50 | with a `userId` query, `Video.findById(userId)` looks up the video whose own id is the user id, so it never lists the user's videos | a user owning one video whose id differs from the user's: the listing is empty | list the videos whose owner is `userId`, sorted and paged like the full list | high, not executed | `VideoController.GetAllVideosAsWritten` (with `VideoController.UserIdLookupMissesOwnedVideo`) | `VideoController.GetAllVideos` |
