/** Videos: the listing, publishing, the lookup, the overwrite of title, description and
    thumbnail, deletion together with the two stored files, the publish toggle, and
    the details view that counts a view. */
module VideoController {

  import opened Js
  import opened ObjectIds
  import opened Envelope
  import opened Tables
  import opened Paging
  import opened Text
  import opened Records
  import opened CommentModel
  import opened Db
  import opened VideoSort

  // ---------------------------------------------------------------- getAllVideos

  const ListMessage := "Videos fetched successfully"

  /** A window of a sorted collection is sorted and holds only documents of it. */
  lemma WindowOfSorted(s: seq<Video>, skip: nat, limit: nat, f: SortField)
    requires Sorted(s, f)
    ensures Sorted(Window(s, skip, limit), f)
    ensures forall v :: v in Window(s, skip, limit) ==> v in s
  {
    var w := Window(s, skip, limit);
    forall i, j | 0 <= i < j < |w| ensures Le(w[i], w[j], f) {
      assert w[i] == s[skip + i] && w[j] == s[skip + j];
    }
    forall v | v in w ensures v in s {
      var i :| 0 <= i < |w| && w[i] == v;
      assert w[i] == s[skip + i];
    }
  }

  /** The videos `query` can list, ascending by `sortBy`, with their page taken. */
  function SortedPage(candidates: seq<Video>, sortBy: Option<string>, skip: nat, limit: nat): (r: seq<Video>)
    ensures Sorted(r, FieldOf(sortBy))
    ensures limit > 0 ==> |r| <= limit
    ensures forall v :: v in r ==> v in candidates
  {
    var sorted := SortVideos(candidates, FieldOf(sortBy));
    WindowOfSorted(sorted, skip, limit, FieldOf(sortBy));
    forall v | v in Window(sorted, skip, limit) ensures v in candidates {
      assert v in multiset(sorted);
    }
    Window(sorted, skip, limit)
  }

  /** What the `userId` branch of getAllVideos as written can answer: one video or
      nothing, where the other branch answers a list. */
  datatype Listing = Many(videos: seq<Video>) | Single(video: Option<Video>)

  /** getAllVideos as written. Without a truthy `userId` it lists every video, sorted
      and paged. With one, it runs `Video.findById(userId)`: the video whose own id is
      the user id, and only on the first page, since a skip past the single match finds
      nothing. A negative skip or an id that cannot be cast is a driver error. */
  function GetAllVideosAsWritten(videos: seq<Video>, page: Option<nat>, limit: Option<nat>,
                                 sortBy: Option<string>, userId: Option<string>): (r: Outcome<Listing>)
    ensures r.Ok? <==>
      SkipOf(PageOrDefault(page), LimitOrDefault(limit)) >= 0 && (Truthy(userId) ==> IsValidObjectId(userId.value))
    ensures r.Err? ==> r == Crash()
    ensures r.Ok? ==> r.status == 200 && r.msg == ListMessage
    ensures r.Ok? && !Truthy(userId) ==>
      r.data == Many(SortedPage(videos, sortBy, SkipOf(PageOrDefault(page), LimitOrDefault(limit)), LimitOrDefault(limit)))
    ensures r.Ok? && Truthy(userId) ==> r.data.Single?
    ensures r.Ok? && Truthy(userId) ==>
      (r.data.video.Some? <==> SkipOf(PageOrDefault(page), LimitOrDefault(limit)) == 0 && Has(videos, VideoId, userId.value))
    ensures r.Ok? && Truthy(userId) && r.data.video.Some? ==> r.data.video.value in videos && r.data.video.value.id == userId.value
  {
    var l := LimitOrDefault(limit);
    var skip := SkipOf(PageOrDefault(page), l);
    if Truthy(userId) && !IsValidObjectId(userId.value) then Crash()
    else if skip < 0 then Crash()
    else if !Truthy(userId) then Reply(200, Many(SortedPage(videos, sortBy, skip, l)), ListMessage)
    else Reply(200, Single(if skip == 0 then Get(videos, VideoId, userId.value) else None), ListMessage)
  }

  /** getAllVideos as intended: with a truthy `userId`, the videos that user owns,
      sorted and paged like the full list. */
  function GetAllVideos(videos: seq<Video>, page: Option<nat>, limit: Option<nat>,
                        sortBy: Option<string>, userId: Option<string>): (r: Outcome<seq<Video>>)
    ensures r.Ok? <==>
      SkipOf(PageOrDefault(page), LimitOrDefault(limit)) >= 0 && (Truthy(userId) ==> IsValidObjectId(userId.value))
    ensures r.Err? ==> r == Crash()
    ensures r.Ok? ==> r.status == 200 && r.msg == ListMessage
    ensures r.Ok? ==> Sorted(r.data, FieldOf(sortBy))
    ensures r.Ok? && LimitOrDefault(limit) > 0 ==> |r.data| <= LimitOrDefault(limit)
    ensures r.Ok? ==> forall v :: v in r.data ==> v in videos && (Truthy(userId) ==> v.owner == userId.value)
    ensures r.Ok? ==>
      var candidates := if Truthy(userId) then VideosOf(videos, userId.value) else videos;
      r.data == Window(SortVideos(candidates, FieldOf(sortBy)), SkipOf(PageOrDefault(page), LimitOrDefault(limit)),
                       LimitOrDefault(limit))
  {
    var l := LimitOrDefault(limit);
    var skip := SkipOf(PageOrDefault(page), l);
    if Truthy(userId) && !IsValidObjectId(userId.value) then Crash()
    else if skip < 0 then Crash()
    else
      var candidates := if Truthy(userId) then VideosOf(videos, userId.value) else videos;
      Reply(200, SortedPage(candidates, sortBy, skip, l), ListMessage)
  }

  /** The `userId` branch as written misses a user's videos: a user who owns one video,
      whose id differs from the user's, gets nothing where the intended listing gives
      that video. */
  lemma UserIdLookupMissesOwnedVideo(userId: Id, videoId: Id)
    requires IsValidObjectId(userId) && videoId != userId
    ensures var v := Video(videoId, "file", "thumb", "title", "description", 2000, 0, true, userId);
      && GetAllVideosAsWritten([v], None, None, None, Some(userId)) == Reply(200, Single(None), ListMessage)
      && GetAllVideos([v], None, None, None, Some(userId)) == Reply(200, [v], ListMessage)
  {
    var v := Video(videoId, "file", "thumb", "title", "description", 2000, 0, true, userId);
    assert Get([v], VideoId, userId).None? by {
      assert forall x :: x in [v] ==> VideoId(x) != userId;
    }
    var owned := VideosOf([v], userId);
    assert owned == [v] by {
      assert v in owned;
      assert |owned| <= 1;
      assert owned[0] == v;
    }
    UnsortedKeepsOrder([v]);
  }

  // ---------------------------------------------------------------- publishAVideo

  const PublishFailure := "Something went wrong"

  /** The checks of publishAVideo that come before the video is created: a title and a
      description (400), both file slots (400), both uploads (500). */
  function PublishCheck(title: Option<string>, description: Option<string>, videoFile: bool, thumbnailFile: bool,
                        videoUrl: Option<string>, thumbnailUrl: Option<string>): (r: Option<ApiError>)
    ensures r.None? <==> Truthy(title) && Truthy(description) && videoFile && thumbnailFile
                         && videoUrl.Some? && thumbnailUrl.Some?
    ensures !Truthy(title) || !Truthy(description) ==> r == Some(ApiError(400, "Title and description are required"))
    ensures Truthy(title) && Truthy(description) && (!videoFile || !thumbnailFile) ==>
      r == Some(ApiError(400, "Video file and thumbnail are required"))
    ensures Truthy(title) && Truthy(description) && videoFile && thumbnailFile && (videoUrl.None? || thumbnailUrl.None?) ==>
      r == Some(ApiError(500, "Error uploading video or thumbnail to cloudinary"))
  {
    if !Truthy(title) || !Truthy(description) then Some(ApiError(400, "Title and description are required"))
    else if !videoFile || !thumbnailFile then Some(ApiError(400, "Video file and thumbnail are required"))
    else if videoUrl.None? || thumbnailUrl.None? then Some(ApiError(500, "Error uploading video or thumbnail to cloudinary"))
    else None
  }

  /** publishAVideo. `videoFile` and `thumbnailFile` say whether each slot holds a file;
      `videoUrl` and `thumbnailUrl` are the `secure_url` of each upload, or nothing when
      the upload returned nothing. The video is created before the uploader is looked
      up, so a missing uploader leaves the new video in place. Every failure is caught
      and answered as 500, carrying it. The reply holds the uploader, not the video. */
  method PublishAVideo(db: Store, title: Option<string>, description: Option<string>, videoFile: bool,
                       thumbnailFile: bool, videoUrl: Option<string>, thumbnailUrl: Option<string>,
                       me: Id, newId: Id)
    returns (r: Outcome<PublicUser>)
    requires db.Valid()
    requires FreshKey(db.videos, VideoId, newId)
    modifies db`videos
    ensures db.Valid()
    ensures var check := PublishCheck(title, description, videoFile, thumbnailFile, videoUrl, thumbnailUrl);
      && (check.Some? ==> r == Wrap(500, PublishFailure, check.value) && db.videos == old(db.videos))
      && (check.None? ==>
            && db.videos == old(db.videos) + [Video(newId, videoUrl.value, thumbnailUrl.value, title.value,
                                                   description.value, 2000, 0, true, me)]
            && (!UserExists(db.users, me) ==> r == Wrap(500, PublishFailure, ApiError(400, "User not found")))
            && (UserExists(db.users, me) ==>
                  r == Reply(200, Public(Get(db.users, UserId, me).value), "Video upload successfully")))
  {
    var check := PublishCheck(title, description, videoFile, thumbnailFile, videoUrl, thumbnailUrl);
    if check.Some? {
      r := Wrap(500, PublishFailure, check.value);
      return;
    }
    var v := Video(newId, videoUrl.value, thumbnailUrl.value, title.value, description.value, 2000, 0, true, me);
    DistinctAppend(db.videos, VideoId, v);
    db.videos := db.videos + [v];
    var uploader := Get(db.users, UserId, me);
    if uploader.None? {
      r := Wrap(500, PublishFailure, ApiError(400, "User not found"));
      return;
    }
    r := Reply(200, Public(uploader.value), "Video upload successfully");
  }

  // ---------------------------------------------------------------- getVideoById

  const LookupFailure := "something went wrong while getting the video"

  /** getVideoById: the catch answers with the HTTP status of the error it caught (400
      for an invalid id, 404 for a missing video) and a body whose status is always
      500. */
  function GetVideoById(videos: seq<Video>, videoId: string): (r: Outcome<Video>)
    ensures !IsValidObjectId(videoId) ==> r == Err(400, 500, LookupFailure, NoCause)
    ensures IsValidObjectId(videoId) && !Has(videos, VideoId, videoId) ==> r == Err(404, 500, LookupFailure, NoCause)
    ensures r.Ok? <==> IsValidObjectId(videoId) && Has(videos, VideoId, videoId)
    ensures r.Ok? ==> r == Reply(200, r.data, "video fetched successfully") && r.data in videos && r.data.id == videoId
  {
    if !IsValidObjectId(videoId) then Err(400, 500, LookupFailure, NoCause)
    else
      match Get(videos, VideoId, videoId)
      case None => Err(404, 500, LookupFailure, NoCause)
      case Some(v) => Reply(200, v, "video fetched successfully")
  }

  // ---------------------------------------------------------------- updateVideo

  const UpdateFailure := "something went wrong while updating video"

  /** The video after updateVideo's overwrite: title, description and thumbnail take the
      values sent, `""` for any not sent; nothing else changes. */
  function Overwritten(v: Video, title: Option<string>, description: Option<string>, thumbnail: Option<string>): (r: Video)
    ensures r.title == (if title.Some? then title.value else "")
    ensures r.description == (if description.Some? then description.value else "")
    ensures r.thumbnail == (if thumbnail.Some? then thumbnail.value else "")
    ensures r.id == v.id && r.videoFile == v.videoFile && r.owner == v.owner
    ensures r.views == v.views && r.duration == v.duration && r.isPublished == v.isPublished
  {
    v.(title := Default(title, ""), description := Default(description, ""), thumbnail := Default(thumbnail, ""))
  }

  /** updateVideo. An empty id gives HTTP 400 and a missing video 404, each with 500 in
      the body; an id that cannot be cast raises an error with no status code, which
      ends as a driver error. */
  method UpdateVideo(db: Store, videoId: string, title: Option<string>, description: Option<string>,
                     thumbnail: Option<string>)
    returns (r: Outcome<Video>)
    requires db.Valid()
    modifies db`videos
    ensures db.Valid()
    ensures videoId == "" ==> r == Err(400, 500, UpdateFailure, NoCause)
    ensures videoId != "" && !IsValidObjectId(videoId) ==> r == Crash()
    ensures IsValidObjectId(videoId) && !Has(old(db.videos), VideoId, videoId) ==> r == Err(404, 500, UpdateFailure, NoCause)
    ensures r.Err? ==> db.videos == old(db.videos)
    ensures r.Ok? <==> IsValidObjectId(videoId) && Has(old(db.videos), VideoId, videoId)
    ensures r.Ok? ==>
      var i := FindKey(old(db.videos), VideoId, videoId).value;
      && db.videos == old(db.videos)[i := Overwritten(old(db.videos)[i], title, description, thumbnail)]
      && r == Reply(200, db.videos[i], "Video updated successfully")
  {
    if videoId == "" {
      r := Err(400, 500, UpdateFailure, NoCause);
      return;
    }
    if !IsValidObjectId(videoId) {
      r := Crash();
      return;
    }
    var found := FindKey(db.videos, VideoId, videoId);
    if found.None? {
      r := Err(404, 500, UpdateFailure, NoCause);
      return;
    }
    var i := found.value;
    var v := Overwritten(db.videos[i], title, description, thumbnail);
    DistinctUpdate(db.videos, VideoId, i, v);
    db.videos := db.videos[i := v];
    r := Reply(200, v, "Video updated successfully");
  }

  // ---------------------------------------------------------------- deleteVideo

  /** The public id of a stored file: the last `/`-separated segment of its URL, cut
      before its first `.`. */
  function PublicId(url: string): (r: string)
    ensures '/' !in r && '.' !in r
    ensures |r| <= |url|
  {
    BeforeFirst(AfterLast(url, '/'), '.')
  }

  /** The public id of `<anything>/<id>.<extension>` is `<id>`, for an id without a dot
      or a slash and an extension without a slash. */
  lemma PublicIdOfUrl(prefix: string, id: string, extension: string)
    requires '/' !in id && '.' !in id && '/' !in extension
    ensures PublicId(prefix + "/" + id + "." + extension) == id
  {
    var tail := id + "." + extension;
    assert '/' !in tail;
    assert prefix + "/" + id + "." + extension == prefix + ['/'] + tail;
    AfterLastOf(prefix, '/', tail);
    assert tail == id + ['.'] + extension;
    BeforeFirstOf(id, '.', extension);
  }

  const DeleteFailure := "Something went wrong while deleting the video"

  /** Both stored files were removed: `destroy(publicId, resourceType)` is the `result`
      the storage service reports. */
  predicate FilesDestroyed(v: Video, destroy: (string, string) -> string)
  {
    destroy(PublicId(v.videoFile), "video") == "ok" && destroy(PublicId(v.thumbnail), "image") == "ok"
  }

  /** `Video.findByIdAndDelete(id)`: the store loses that video and stays valid. */
  method RemoveVideo(db: Store, id: Id)
    requires db.Valid()
    modifies db`videos
    ensures db.Valid()
    ensures db.videos == DeleteKey(old(db.videos), VideoId, id) && !Has(db.videos, VideoId, id)
  {
    db.videos := DeleteKey(db.videos, VideoId, id);
  }

  /** deleteVideo: after an empty id (400), a missing video (404) and a record without a
      file or thumbnail URL (400), both files are destroyed; the record is deleted only
      when both report "ok" (otherwise 500). Every failure is caught and answered as
      500, carrying it. */
  method DeleteVideo(db: Store, videoId: string, destroy: (string, string) -> string) returns (r: Outcome<Video>)
    requires db.Valid()
    modifies db`videos
    ensures db.Valid()
    ensures videoId == "" ==> r == Wrap(500, DeleteFailure, ApiError(400, "videoId param not found"))
    ensures videoId != "" && !IsValidObjectId(videoId) ==> r == Err(500, 500, DeleteFailure, DriverError)
    ensures IsValidObjectId(videoId) && !Has(old(db.videos), VideoId, videoId) ==>
      r == Wrap(500, DeleteFailure, ApiError(404, "Video not found"))
    ensures IsValidObjectId(videoId) && Has(old(db.videos), VideoId, videoId) ==>
      var v := Get(old(db.videos), VideoId, videoId).value;
      && ((v.videoFile == "" || v.thumbnail == "") ==>
            r == Wrap(500, DeleteFailure, ApiError(400, "Video or thumbnail URL is missing in the video record")))
      && (v.videoFile != "" && v.thumbnail != "" && !FilesDestroyed(v, destroy) ==>
            r == Wrap(500, DeleteFailure, ApiError(500, "Error deleting video or thumbnail from Cloudinary")))
      && (r.Ok? <==> v.videoFile != "" && v.thumbnail != "" && FilesDestroyed(v, destroy))
      && (r.Ok? ==> r == Reply(200, v, "Video and thumbnail deleted successfully"))
    ensures r.Err? ==> db.videos == old(db.videos)
    ensures r.Ok? ==> db.videos == DeleteKey(old(db.videos), VideoId, videoId) && !Has(db.videos, VideoId, videoId)
  {
    if videoId == "" {
      r := Wrap(500, DeleteFailure, ApiError(400, "videoId param not found"));
      return;
    }
    if !IsValidObjectId(videoId) {
      r := Err(500, 500, DeleteFailure, DriverError);
      return;
    }
    var found := Get(db.videos, VideoId, videoId);
    if found.None? {
      r := Wrap(500, DeleteFailure, ApiError(404, "Video not found"));
      return;
    }
    var v := found.value;
    if v.videoFile == "" || v.thumbnail == "" {
      r := Wrap(500, DeleteFailure, ApiError(400, "Video or thumbnail URL is missing in the video record"));
      return;
    }
    if !FilesDestroyed(v, destroy) {
      r := Wrap(500, DeleteFailure, ApiError(500, "Error deleting video or thumbnail from Cloudinary"));
      return;
    }
    RemoveVideo(db, videoId);
    r := Reply(200, v, "Video and thumbnail deleted successfully");
  }

  // ---------------------------------------------------------------- togglePublishStatus

  /** The videos collection with the publish flag of video `id` negated. */
  function PublishToggled(videos: seq<Video>, id: Id): (r: seq<Video>)
    ensures |r| == |videos|
    ensures forall j :: 0 <= j < |r| ==> r[j] == videos[j] || r[j] == videos[j].(isPublished := !videos[j].isPublished)
    ensures !Has(videos, VideoId, id) ==> r == videos
    ensures Has(videos, VideoId, id) ==>
      var i := FindKey(videos, VideoId, id).value;
      r == videos[i := videos[i].(isPublished := !videos[i].isPublished)]
    ensures FindKey(r, VideoId, id) == FindKey(videos, VideoId, id)
  {
    match FindKey(videos, VideoId, id)
    case None => videos
    case Some(i) =>
      var r := videos[i := videos[i].(isPublished := !videos[i].isPublished)];
      assert FindKey(r, VideoId, id) == Some(i) by {
        assert r[i].id == id;
        forall j | 0 <= j < i ensures r[j].id != id {
          assert r[j] == videos[j];
        }
      }
      r
  }

  /** Toggling the publish status twice restores the collection. */
  lemma {:induction false} PublishToggleTwice(videos: seq<Video>, id: Id)
    ensures PublishToggled(PublishToggled(videos, id), id) == videos
  {
    if Has(videos, VideoId, id) {
      var i := FindKey(videos, VideoId, id).value;
      var once := PublishToggled(videos, id);
      assert once[i].isPublished == !videos[i].isPublished;
      assert PublishToggled(once, id) == once[i := once[i].(isPublished := !once[i].isPublished)];
    }
  }

  function PublishMessage(published: bool): string
  {
    "Video publish status toggled to " + (if published then "Published" else "Unpublished")
  }

  /** togglePublishStatus: an empty id gives 400 and a missing video 404, with no catch;
      otherwise the flag of that one video is negated and the message names the new
      state. */
  method TogglePublishStatus(db: Store, videoId: string) returns (r: Outcome<Video>)
    requires db.Valid()
    modifies db`videos
    ensures db.Valid()
    ensures videoId == "" ==> r == Fail(400, "Video ID not found")
    ensures videoId != "" && !IsValidObjectId(videoId) ==> r == Crash()
    ensures IsValidObjectId(videoId) && !Has(old(db.videos), VideoId, videoId) ==> r == Fail(404, "Video not found")
    ensures r.Err? ==> db.videos == old(db.videos)
    ensures r.Ok? <==> IsValidObjectId(videoId) && Has(old(db.videos), VideoId, videoId)
    ensures r.Ok? ==>
      && db.videos == PublishToggled(old(db.videos), videoId)
      && r.data.isPublished == !Get(old(db.videos), VideoId, videoId).value.isPublished
      && r == Reply(200, Get(db.videos, VideoId, videoId).value, PublishMessage(r.data.isPublished))
  {
    if videoId == "" {
      r := Fail(400, "Video ID not found");
      return;
    }
    if !IsValidObjectId(videoId) {
      r := Crash();
      return;
    }
    var found := FindKey(db.videos, VideoId, videoId);
    if found.None? {
      r := Fail(404, "Video not found");
      return;
    }
    var i := found.value;
    var v := db.videos[i].(isPublished := !db.videos[i].isPublished);
    DistinctUpdate(db.videos, VideoId, i, v);
    db.videos := db.videos[i := v];
    r := Reply(200, v, PublishMessage(v.isPublished));
  }

  // ---------------------------------------------------------------- getVideoDetails

  /** The videos collection after `$inc: {views: 1}` on video `id`. */
  function Viewed(videos: seq<Video>, id: Id): (r: seq<Video>)
    ensures |r| == |videos|
    ensures forall j :: 0 <= j < |r| ==> r[j] == videos[j] || r[j] == videos[j].(views := videos[j].views + 1)
    ensures !Has(videos, VideoId, id) ==> r == videos
    ensures Has(videos, VideoId, id) ==>
      var i := FindKey(videos, VideoId, id).value;
      r == videos[i := videos[i].(views := videos[i].views + 1)]
    ensures FindKey(r, VideoId, id) == FindKey(videos, VideoId, id)
  {
    match FindKey(videos, VideoId, id)
    case None => videos
    case Some(i) =>
      var r := videos[i := videos[i].(views := videos[i].views + 1)];
      assert FindKey(r, VideoId, id) == Some(i) by {
        assert r[i].id == id;
        forall j | 0 <= j < i ensures r[j].id != id {
          assert r[j] == videos[j];
        }
      }
      r
  }

  /** The body of getVideoDetails: the video and its counts. */
  datatype VideoDetails = VideoDetails(video: Video, views: nat, likes: nat, comments: nat)

  /** getVideoDetails: for a valid id the views are incremented first (a no-op when the
      video is missing, which then gives 404); the counts are the likes on the video
      and the comments on it. There is no catch. */
  method GetVideoDetails(db: Store, videoId: string) returns (r: Outcome<VideoDetails>)
    requires db.Valid()
    modifies db`videos
    ensures db.Valid()
    ensures !IsValidObjectId(videoId) ==> r == Fail(400, "Invalid video ID") && db.videos == old(db.videos)
    ensures IsValidObjectId(videoId) ==> db.videos == Viewed(old(db.videos), videoId)
    ensures IsValidObjectId(videoId) && !Has(old(db.videos), VideoId, videoId) ==> r == Fail(404, "Video not found")
    ensures r.Ok? <==> IsValidObjectId(videoId) && Has(old(db.videos), VideoId, videoId)
    ensures r.Ok? ==>
      && r.status == 200 && r.msg == "Video details fetched successfully"
      && r.data.video == Get(db.videos, VideoId, videoId).value
      && r.data.views == Get(old(db.videos), VideoId, videoId).value.views + 1
      && r.data.likes == |LikesOn(db.likes, videoId)|
      && r.data.comments == |CommentsOn(db.comments, videoId)|
  {
    if !IsValidObjectId(videoId) {
      r := Fail(400, "Invalid video ID");
      return;
    }
    var i := FindKey(db.videos, VideoId, videoId);
    if i.Some? {
      DistinctUpdate(db.videos, VideoId, i.value, db.videos[i.value].(views := db.videos[i.value].views + 1));
    }
    db.videos := Viewed(db.videos, videoId);
    var found := Get(db.videos, VideoId, videoId);
    if found.None? {
      r := Fail(404, "Video not found");
      return;
    }
    var v := found.value;
    r := Reply(200, VideoDetails(v, v.views, |LikesOn(db.likes, videoId)|, |CommentsOn(db.comments, videoId)|),
               "Video details fetched successfully");
  }
}
