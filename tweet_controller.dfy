/** Tweets: creation, the list of a user's tweets, the `$set` of title and content, and
    deletion. */
module TweetController {

  import opened Js
  import opened ObjectIds
  import opened Envelope
  import opened Tables
  import opened Records
  import opened Db

  /** createTweet: rejected only when neither content nor title is truthy; the rejection
      (401) is caught and answered as 500, carrying it. */
  method CreateTweet(db: Store, title: Option<string>, content: Option<string>, me: Id, newId: Id)
    returns (r: Outcome<Tweet>)
    requires db.Valid()
    requires FreshKey(db.tweets, TweetId, newId)
    modifies db`tweets
    ensures db.Valid()
    ensures !Truthy(content) && !Truthy(title) ==>
      && r == Wrap(500, " internal server error ", ApiError(401, "please enter the whole information "))
      && db.tweets == old(db.tweets)
    ensures Truthy(content) || Truthy(title) ==>
      && r == Reply(200, Tweet(newId, title, content, me), "tweet successful")
      && db.tweets == old(db.tweets) + [r.data]
  {
    if !(Truthy(content) || Truthy(title)) {
      r := Wrap(500, " internal server error ", ApiError(401, "please enter the whole information "));
      return;
    }
    var t := Tweet(newId, title, content, me);
    DistinctAppend(db.tweets, TweetId, t);
    db.tweets := db.tweets + [t];
    r := Reply(200, t, "tweet successful");
  }

  /** `Tweet.find({owner})`. */
  function TweetsOf(tweets: seq<Tweet>, owner: Id): (r: seq<Tweet>)
    ensures forall t :: t in r <==> t in tweets && t.owner == owner
    ensures |r| == 0 <==> forall t :: t in tweets ==> t.owner != owner
  {
    var r := Filter(tweets, (t: Tweet) => t.owner == owner);
    assert |r| > 0 ==> r[0] in r;
    r
  }

  /** getUserTweets: an invalid id and a user without tweets are both 404s, caught and
      answered as 500 with the inner message as detail; a success is never empty. */
  function GetUserTweets(tweets: seq<Tweet>, userId: string): (r: Outcome<seq<Tweet>>)
    ensures !IsValidObjectId(userId) ==>
      r == Explain(500, "Something went wrong while fetching tweets", "Invalid user ID")
    ensures IsValidObjectId(userId) && (forall t :: t in tweets ==> t.owner != userId) ==>
      r == Explain(500, "Something went wrong while fetching tweets", "No tweets found for this user")
    ensures r.Ok? <==> IsValidObjectId(userId) && exists t :: t in tweets && t.owner == userId
    ensures r.Ok? ==> r.status == 200 && r.msg == "All tweets fetched successfully"
    ensures r.Ok? ==> |r.data| > 0 && forall t :: t in r.data <==> t in tweets && t.owner == userId
  {
    if !IsValidObjectId(userId) then
      Explain(500, "Something went wrong while fetching tweets", "Invalid user ID")
    else
      var found := TweetsOf(tweets, userId);
      if |found| == 0 then
        Explain(500, "Something went wrong while fetching tweets", "No tweets found for this user")
      else
        Reply(200, found, "All tweets fetched successfully")
  }

  /** The tweet after `$set: {title: newTitle, content: newContent}`: both fields are
      written, an undefined one becoming absent. */
  function Retitled(t: Tweet, newTitle: Option<string>, newContent: Option<string>): (r: Tweet)
    ensures r.title == newTitle && r.content == newContent
    ensures r.id == t.id && r.owner == t.owner
  {
    t.(title := newTitle, content := newContent)
  }

  /** updateTweet: the empty-fields check (400) comes before the id check (401); a
      missing tweet gives 500. There is no catch, so each keeps its own status. */
  method UpdateTweet(db: Store, tweetId: string, newTitle: Option<string>, newContent: Option<string>)
    returns (r: Outcome<Tweet>)
    requires db.Valid()
    modifies db`tweets
    ensures db.Valid()
    ensures !Truthy(newTitle) && !Truthy(newContent) ==> r == Fail(400, "Field cannot be empty")
    ensures (Truthy(newTitle) || Truthy(newContent)) && !IsValidObjectId(tweetId) ==>
      r == Fail(401, "Please enter a valid ID")
    ensures (Truthy(newTitle) || Truthy(newContent)) && IsValidObjectId(tweetId) && !Has(old(db.tweets), TweetId, tweetId) ==>
      r == Fail(500, "Failed to update the tweet")
    ensures r.Err? ==> db.tweets == old(db.tweets)
    ensures r.Ok? <==> (Truthy(newTitle) || Truthy(newContent)) && IsValidObjectId(tweetId) && Has(old(db.tweets), TweetId, tweetId)
    ensures r.Ok? ==>
      var i := FindKey(old(db.tweets), TweetId, tweetId).value;
      && db.tweets == old(db.tweets)[i := Retitled(old(db.tweets)[i], newTitle, newContent)]
      && r == Reply(200, db.tweets[i], "Tweet updated successfully")
  {
    if !Truthy(newTitle) && !Truthy(newContent) {
      r := Fail(400, "Field cannot be empty");
      return;
    }
    if !IsValidObjectId(tweetId) {
      r := Fail(401, "Please enter a valid ID");
      return;
    }
    var found := FindKey(db.tweets, TweetId, tweetId);
    if found.None? {
      r := Fail(500, "Failed to update the tweet");
      return;
    }
    var i := found.value;
    var t := Retitled(db.tweets[i], newTitle, newContent);
    DistinctUpdate(db.tweets, TweetId, i, t);
    db.tweets := db.tweets[i := t];
    r := Reply(200, t, "Tweet updated successfully");
  }

  /** deleteTweet: an invalid id gives 401 and a missing tweet 500; otherwise exactly that
      tweet is removed and returned. */
  method DeleteTweet(db: Store, tweetId: string) returns (r: Outcome<Tweet>)
    requires db.Valid()
    modifies db`tweets
    ensures db.Valid()
    ensures !IsValidObjectId(tweetId) ==> r == Fail(401, "Please enter a valid ID")
    ensures IsValidObjectId(tweetId) && !Has(old(db.tweets), TweetId, tweetId) ==> r == Fail(500, "tweet not found")
    ensures r.Err? ==> db.tweets == old(db.tweets)
    ensures r.Ok? <==> IsValidObjectId(tweetId) && Has(old(db.tweets), TweetId, tweetId)
    ensures r.Ok? ==>
      && r == Reply(200, Get(old(db.tweets), TweetId, tweetId).value, "Tweet deleted successfully")
      && db.tweets == DeleteKey(old(db.tweets), TweetId, tweetId)
      && !Has(db.tweets, TweetId, tweetId)
  {
    if !IsValidObjectId(tweetId) {
      r := Fail(401, "Please enter a valid ID");
      return;
    }
    var found := Get(db.tweets, TweetId, tweetId);
    if found.None? {
      r := Fail(500, "tweet not found");
      return;
    }
    db.tweets := DeleteKey(db.tweets, TweetId, tweetId);
    r := Reply(200, found.value, "Tweet deleted successfully");
  }
}
