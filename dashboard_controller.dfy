/** The channel dashboard: counts and total views of one channel, and its videos. */
module DashboardController {

  import opened Js
  import opened ObjectIds
  import opened Envelope
  import opened Tables
  import opened Records
  import opened Db

  /** The four figures getChannelStats reports. */
  datatype ChannelStats = ChannelStats(videoCount: nat, subscriberCount: nat, likeCount: nat, totalViews: nat)

  /** `$group` with `$sum: "$views"`: the total views of some videos, 0 for none. */
  function SumViews(videos: seq<Video>): (total: nat)
    ensures total == 0 <==> forall v :: v in videos ==> v.views == 0
  {
    assert videos != [] ==> forall v :: v in videos ==> v == videos[0] || v in videos[1..];
    if videos == [] then 0 else videos[0].views + SumViews(videos[1..])
  }

  lemma {:induction false} SumViewsAppend(a: seq<Video>, b: seq<Video>)
    ensures SumViews(a + b) == SumViews(a) + SumViews(b)
  {
    if a == [] {
      assert a + b == b;
    } else {
      assert (a + b)[1..] == a[1..] + b;
      SumViewsAppend(a[1..], b);
    }
  }

  /** No single video has more views than a collection it belongs to. */
  lemma {:induction false} SumViewsBound(videos: seq<Video>, v: Video)
    requires v in videos
    ensures v.views <= SumViews(videos)
  {
    if videos[0] != v {
      SumViewsBound(videos[1..], v);
    }
  }

  function SubscribersOf(subs: seq<Subscription>, channel: Id): seq<Subscription>
  {
    Filter(subs, (s: Subscription) => s.channel == channel)
  }

  function LikesBy(likes: seq<Like>, user: Id): seq<Like>
  {
    Filter(likes, (l: Like) => l.likedBy == user)
  }

  /** The figures for one channel: its videos, its subscriptions, the likes it has given
      (`likedBy` is the channel), and the views summed over its videos. */
  function Stats(videos: seq<Video>, subs: seq<Subscription>, likes: seq<Like>, channel: Id): (r: ChannelStats)
    ensures r.videoCount == |VideosOf(videos, channel)|
    ensures r.subscriberCount == |SubscribersOf(subs, channel)|
    ensures r.likeCount == |LikesBy(likes, channel)|
    ensures r.totalViews == SumViews(VideosOf(videos, channel))
    ensures r.videoCount == 0 ==> r.totalViews == 0
    ensures forall v :: v in videos && v.owner == channel ==> v.views <= r.totalViews
  {
    var own := VideosOf(videos, channel);
    forall v | v in videos && v.owner == channel ensures v.views <= SumViews(own) {
      SumViewsBound(own, v);
    }
    ChannelStats(|own|, |SubscribersOf(subs, channel)|, |LikesBy(likes, channel)|, SumViews(own))
  }

  /** A new video changes only its own channel's figures: one more video and its views
      added to the total. */
  lemma {:induction false} StatsAfterNewVideo(videos: seq<Video>, subs: seq<Subscription>, likes: seq<Like>,
                                              channel: Id, v: Video)
    ensures v.owner == channel ==>
      Stats(videos + [v], subs, likes, channel)
        == Stats(videos, subs, likes, channel).(videoCount := Stats(videos, subs, likes, channel).videoCount + 1,
                                                totalViews := Stats(videos, subs, likes, channel).totalViews + v.views)
    ensures v.owner != channel ==> Stats(videos + [v], subs, likes, channel) == Stats(videos, subs, likes, channel)
  {
    FilterAppend(videos, v, (x: Video) => x.owner == channel);
    assert VideosOf(videos + [v], channel) == VideosOf(videos, channel) + (if v.owner == channel then [v] else []);
    SumViewsAppend(VideosOf(videos, channel), if v.owner == channel then [v] else []);
    assert SumViews([v]) == v.views by {
      assert [v][1..] == [];
    }
  }

  /** getChannelStats, with `channelId` read from the request body. An invalid id (400)
      is caught and answered as 500. */
  function GetChannelStats(videos: seq<Video>, subs: seq<Subscription>, likes: seq<Like>, channelId: Option<string>)
    : (r: Outcome<ChannelStats>)
    ensures r.Ok? <==> IsValidField(channelId)
    ensures r.Err? ==> r == Fail(500, "Something went wrong while fetching channel stats")
    ensures r.Ok? ==>
      && r == Reply(200, Stats(videos, subs, likes, channelId.value), "Channel stats fetched successfully")
      && r.data.videoCount == Count(videos, (v: Video) => v.owner == channelId.value)
  {
    if !IsValidField(channelId) then
      Fail(500, "Something went wrong while fetching channel stats")
    else
      Reply(200, Stats(videos, subs, likes, channelId.value), "Channel stats fetched successfully")
  }

  /** The body getChannelVideos answers with, `{ videos }`. */
  datatype ChannelVideos = ChannelVideos(videos: seq<Video>)

  /** getChannelVideos: exactly the videos the channel owns, wrapped as `{ videos }`; an
      invalid id (400) is caught and answered as 500. */
  function GetChannelVideos(videos: seq<Video>, channelId: Option<string>): (r: Outcome<ChannelVideos>)
    ensures r.Ok? <==> IsValidField(channelId)
    ensures r.Err? ==> r == Fail(500, "Something went wrong while fetching channel videos")
    ensures r.Ok? ==> r.status == 200 && r.msg == "Channel videos fetched successfully"
    ensures r.Ok? ==> forall v :: v in r.data.videos <==> v in videos && v.owner == channelId.value
  {
    if !IsValidField(channelId) then
      Fail(500, "Something went wrong while fetching channel videos")
    else
      Reply(200, ChannelVideos(VideosOf(videos, channelId.value)), "Channel videos fetched successfully")
  }
}
