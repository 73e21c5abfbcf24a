/** Playlists: creation, the two lookups, `$push` and `$pull` on a playlist's videos,
    the `$set` of its name and description, and deletion. */
module PlaylistController {

  import opened Js
  import opened ObjectIds
  import opened Envelope
  import opened Tables
  import opened Records
  import opened Db

  /** `$pull: {videos: v}`: every occurrence of `v` removed, the rest in order. */
  function RemoveAll(s: seq<string>, v: string): (r: seq<string>)
    ensures v !in r
    ensures v !in s ==> r == s
  {
    if s == [] then []
    else (if s[0] == v then [] else [s[0]]) + RemoveAll(s[1..], v)
  }

  /** `$pull` keeps every other video as often as it occurred, and drops exactly the
      occurrences of `v`. */
  lemma {:induction false} RemoveAllCounts(s: seq<string>, v: string)
    ensures forall x :: x != v ==> multiset(RemoveAll(s, v))[x] == multiset(s)[x]
    ensures |RemoveAll(s, v)| == |s| - multiset(s)[v]
  {
    if s != [] {
      RemoveAllCounts(s[1..], v);
      assert s == [s[0]] + s[1..];
      assert multiset(s) == multiset{s[0]} + multiset(s[1..]);
    }
  }

  /** Removing from a concatenation removes from each part and keeps them in order, so
      `$pull` never reorders what it keeps. */
  lemma {:induction false} RemoveAllAppend(a: seq<string>, b: seq<string>, v: string)
    ensures RemoveAll(a + b, v) == RemoveAll(a, v) + RemoveAll(b, v)
  {
    if a != [] {
      assert (a + b)[0] == a[0] && (a + b)[1..] == a[1..] + b;
      RemoveAllAppend(a[1..], b, v);
    } else {
      assert a + b == b;
    }
  }

  /** The playlist after `$push: {videos: v}`. */
  function Pushed(p: Playlist, v: string): (r: Playlist)
    ensures r.id == p.id && r.owner == p.owner && r.name == p.name && r.description == p.description
    ensures |r.videos| == |p.videos| + 1 && r.videos[|p.videos|] == v
    ensures r.videos[..|p.videos|] == p.videos
  {
    p.(videos := p.videos + [v])
  }

  /** The playlist after `$pull: {videos: v}`. */
  function Pulled(p: Playlist, v: string): (r: Playlist)
    ensures r.id == p.id && r.owner == p.owner && r.name == p.name && r.description == p.description
    ensures v !in r.videos
    ensures forall x :: x != v ==> multiset(r.videos)[x] == multiset(p.videos)[x]
  {
    RemoveAllCounts(p.videos, v);
    p.(videos := RemoveAll(p.videos, v))
  }

  /** `$push` allows duplicates: pushing a video already in the list adds one more. */
  lemma PushAddsOccurrence(p: Playlist, v: string)
    ensures multiset(Pushed(p, v).videos)[v] == multiset(p.videos)[v] + 1
    ensures |Pushed(p, v).videos| == |p.videos| + 1
  {
    assert Pushed(p, v).videos == p.videos + [v];
  }

  /** Pulling a video that was pushed onto a list not holding it gives the list back. */
  lemma {:induction false} PullAfterPush(p: Playlist, v: string)
    requires v !in p.videos
    ensures Pulled(Pushed(p, v), v) == p
  {
    RemoveAllAppend(p.videos, [v], v);
    assert RemoveAll([v], v) == [] by {
      assert [v][1..] == [];
    }
  }

  /** The id check of add and remove, `isValid(videoId && playlistId)`: when the video id
      is non-empty only the playlist id is validated. */
  function VideoAndPlaylistIdValid(videoId: string, playlistId: string): (ok: bool)
    ensures ok <==> videoId != "" && IsValidObjectId(playlistId)
  {
    IsValidObjectId(And(videoId, playlistId))
  }

  /** createPlaylist. The name check rejects only when name and description are both
      falsy and videoId is truthy; the video id must then be valid. There is no catch,
      so errors keep their own status. */
  method CreatePlaylist(db: Store, name: Option<string>, description: Option<string>,
                        videoId: Option<string>, me: Id, newId: Id)
    returns (r: Outcome<Playlist>)
    requires db.Valid()
    requires FreshKey(db.playlists, PlaylistId, newId)
    modifies db`playlists
    ensures db.Valid()
    ensures !Truthy(name) && !Truthy(description) && Truthy(videoId) ==>
      r == Fail(400, "name and description are required")
    ensures (Truthy(name) || Truthy(description) || !Truthy(videoId)) && !IsValidField(videoId) ==>
      r == Fail(400, "Invalid video ID")
    ensures r.Err? ==> db.playlists == old(db.playlists)
    ensures r.Ok? <==> (Truthy(name) || Truthy(description) || !Truthy(videoId)) && IsValidField(videoId)
    ensures r.Ok? ==>
      && r == Reply(200, Playlist(newId, name, description, me, [videoId.value]), "Playlist created successfully")
      && db.playlists == old(db.playlists) + [r.data]
  {
    if !Truthy(name) && !Truthy(description) && Truthy(videoId) {
      r := Fail(400, "name and description are required");
      return;
    }
    if !IsValidField(videoId) {
      r := Fail(400, "Invalid video ID");
      return;
    }
    var p := Playlist(newId, name, description, me, [videoId.value]);
    DistinctAppend(db.playlists, PlaylistId, p);
    db.playlists := db.playlists + [p];
    r := Reply(200, p, "Playlist created successfully");
  }

  /** getUserPlaylists: the invalid-id error is caught and replaced by a 500; otherwise
      exactly the playlists the user owns, in collection order. */
  function GetUserPlaylists(playlists: seq<Playlist>, userId: string): (r: Outcome<seq<Playlist>>)
    ensures !IsValidObjectId(userId) ==> r == Fail(500, " something went wrong while fetching playlists")
    ensures IsValidObjectId(userId) ==> r.Ok? && r.status == 200 && r.msg == "playlists fetched successfully"
    ensures r.Ok? ==> forall p :: p in r.data <==> p in playlists && p.owner == userId
  {
    if !IsValidObjectId(userId) then
      Fail(500, " something went wrong while fetching playlists")
    else
      Reply(200, Filter(playlists, (p: Playlist) => p.owner == userId), "playlists fetched successfully")
  }

  /** getPlaylistById: an invalid id (400) and a missing playlist (404) are both caught
      and replaced by a 500. */
  function GetPlaylistById(playlists: seq<Playlist>, playlistId: string): (r: Outcome<Playlist>)
    ensures r.Ok? <==> IsValidObjectId(playlistId) && Has(playlists, PlaylistId, playlistId)
    ensures r.Err? ==> r == Fail(500, "something went wrong while fetching playlist")
    ensures r.Ok? ==> r.status == 200 && r.data in playlists && r.data.id == playlistId
  {
    if !IsValidObjectId(playlistId) then
      Fail(500, "something went wrong while fetching playlist")
    else
      match Get(playlists, PlaylistId, playlistId)
      case None => Fail(500, "something went wrong while fetching playlist")
      case Some(p) => Reply(200, p, "playlist fetched successfully")
  }

  /** addVideoToPlaylist: `findByIdAndUpdate` with `$push`; only the one playlist changes,
      and every failure becomes a 500. */
  method AddVideoToPlaylist(db: Store, playlistId: string, videoId: string) returns (r: Outcome<Playlist>)
    requires db.Valid()
    modifies db`playlists
    ensures db.Valid()
    ensures r.Ok? <==> VideoAndPlaylistIdValid(videoId, playlistId) && Has(old(db.playlists), PlaylistId, playlistId)
    ensures r.Err? ==>
      r == Fail(500, "something went wrong while adding video to playlist") && db.playlists == old(db.playlists)
    ensures r.Ok? ==>
      var i := FindKey(old(db.playlists), PlaylistId, playlistId).value;
      && db.playlists == old(db.playlists)[i := Pushed(old(db.playlists)[i], videoId)]
      && r == Reply(200, db.playlists[i], "Video added to playlist successfully")
  {
    if !VideoAndPlaylistIdValid(videoId, playlistId) {
      r := Fail(500, "something went wrong while adding video to playlist");
      return;
    }
    var found := FindKey(db.playlists, PlaylistId, playlistId);
    if found.None? {
      r := Fail(500, "something went wrong while adding video to playlist");
      return;
    }
    var i := found.value;
    var p := Pushed(db.playlists[i], videoId);
    DistinctUpdate(db.playlists, PlaylistId, i, p);
    db.playlists := db.playlists[i := p];
    r := Reply(200, p, "Video added to playlist successfully");
  }

  /** removeVideoFromPlaylist: `findByIdAndUpdate` with `$pull`; only the one playlist
      changes, and every failure becomes a 500. */
  method RemoveVideoFromPlaylist(db: Store, playlistId: string, videoId: string) returns (r: Outcome<Playlist>)
    requires db.Valid()
    modifies db`playlists
    ensures db.Valid()
    ensures r.Ok? <==> VideoAndPlaylistIdValid(videoId, playlistId) && Has(old(db.playlists), PlaylistId, playlistId)
    ensures r.Err? ==>
      r == Fail(500, "something went wrong while deleting video to playlist") && db.playlists == old(db.playlists)
    ensures r.Ok? ==>
      var i := FindKey(old(db.playlists), PlaylistId, playlistId).value;
      && db.playlists == old(db.playlists)[i := Pulled(old(db.playlists)[i], videoId)]
      && r == Reply(200, db.playlists[i], "Video deleted to playlist successfully")
  {
    if !VideoAndPlaylistIdValid(videoId, playlistId) {
      r := Fail(500, "something went wrong while deleting video to playlist");
      return;
    }
    var found := FindKey(db.playlists, PlaylistId, playlistId);
    if found.None? {
      r := Fail(500, "something went wrong while deleting video to playlist");
      return;
    }
    var i := found.value;
    var p := Pulled(db.playlists[i], videoId);
    DistinctUpdate(db.playlists, PlaylistId, i, p);
    db.playlists := db.playlists[i := p];
    r := Reply(200, p, "Video deleted to playlist successfully");
  }

  /** deletePlaylist: `findByIdAndDelete`; the deleted playlist is returned, and every
      failure becomes a 500. */
  method DeletePlaylist(db: Store, playlistId: string) returns (r: Outcome<Playlist>)
    requires db.Valid()
    modifies db`playlists
    ensures db.Valid()
    ensures r.Ok? <==> IsValidObjectId(playlistId) && Has(old(db.playlists), PlaylistId, playlistId)
    ensures r.Err? ==>
      r == Fail(500, "something went wrong while deleting the playlist") && db.playlists == old(db.playlists)
    ensures r.Ok? ==>
      && r == Reply(200, Get(old(db.playlists), PlaylistId, playlistId).value, "playlist deleted successfully")
      && db.playlists == DeleteKey(old(db.playlists), PlaylistId, playlistId)
      && !Has(db.playlists, PlaylistId, playlistId)
  {
    if !IsValidObjectId(playlistId) {
      r := Fail(500, "something went wrong while deleting the playlist");
      return;
    }
    var found := Get(db.playlists, PlaylistId, playlistId);
    if found.None? {
      r := Fail(500, "something went wrong while deleting the playlist");
      return;
    }
    db.playlists := DeleteKey(db.playlists, PlaylistId, playlistId);
    r := Reply(200, found.value, "playlist deleted successfully");
  }

  /** The playlist after `$set: {name: newName, description: newDescription}`: both
      fields are written, an undefined one becoming absent. */
  function Renamed(p: Playlist, newName: Option<string>, newDescription: Option<string>): (r: Playlist)
    ensures r.name == newName && r.description == newDescription
    ensures r.id == p.id && r.owner == p.owner && r.videos == p.videos
  {
    p.(name := newName, description := newDescription)
  }

  /** updatePlaylist: after an invalid id and a request with neither field, and a missing
      playlist, all answered as 500, both fields are set on the one playlist. */
  method UpdatePlaylist(db: Store, playlistId: string, newName: Option<string>, newDescription: Option<string>)
    returns (r: Outcome<Playlist>)
    requires db.Valid()
    modifies db`playlists
    ensures db.Valid()
    ensures r.Ok? <==>
      IsValidObjectId(playlistId) && (Truthy(newName) || Truthy(newDescription))
      && Has(old(db.playlists), PlaylistId, playlistId)
    ensures r.Err? ==>
      r == Fail(500, "something went wrong while updating playlist") && db.playlists == old(db.playlists)
    ensures r.Ok? ==>
      var i := FindKey(old(db.playlists), PlaylistId, playlistId).value;
      && db.playlists == old(db.playlists)[i := Renamed(old(db.playlists)[i], newName, newDescription)]
      && r == Reply(200, db.playlists[i], "Video added to playlist successfully")
  {
    if !IsValidObjectId(playlistId) {
      r := Fail(500, "something went wrong while updating playlist");
      return;
    }
    if !Truthy(newName) && !Truthy(newDescription) {
      r := Fail(500, "something went wrong while updating playlist");
      return;
    }
    var found := FindKey(db.playlists, PlaylistId, playlistId);
    if found.None? {
      r := Fail(500, "something went wrong while updating playlist");
      return;
    }
    var i := found.value;
    var p := Renamed(db.playlists[i], newName, newDescription);
    DistinctUpdate(db.playlists, PlaylistId, i, p);
    db.playlists := db.playlists[i := p];
    r := Reply(200, p, "Video added to playlist successfully");
  }
}
