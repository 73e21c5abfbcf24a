/** Subscriptions: the toggle, and the two lists that follow a subscription from one end
    to the other. */
module SubscriptionController {

  import opened Js
  import opened ObjectIds
  import opened Envelope
  import opened Tables
  import opened Toggles
  import opened Records
  import opened Db

  /** `subscriber` is subscribed to `channel`. */
  predicate Subscribed(subs: seq<Subscription>, subscriber: Id, channel: Id)
  {
    Has(subs, SubscriptionKey, (subscriber, channel))
  }

  /** The subscriptions collection after one toggle. */
  function SubscriptionToggled(subs: seq<Subscription>, subscriber: Id, channel: Id, newId: Id): (r: seq<Subscription>)
    ensures Distinct(subs, SubscriptionKey) ==>
      (Subscribed(r, subscriber, channel) <==> !Subscribed(subs, subscriber, channel))
    ensures Distinct(subs, SubscriptionKey) ==> Distinct(r, SubscriptionKey)
    ensures !Subscribed(subs, subscriber, channel) ==>
      multiset(r) == multiset(subs) + multiset{Subscription(newId, subscriber, channel)}
  {
    Toggle(subs, SubscriptionKey, (subscriber, channel), Subscription(newId, subscriber, channel))
  }

  /** toggleSubscription. Checks run in this order: an invalid channel id (400), a channel
      that does not exist (404), a current user that does not exist (404); each is
      answered with status 500 "Server error", carrying the inner error. */
  method ToggleSubscription(db: Store, channelId: string, me: Id, newId: Id)
    returns (r: Outcome<Option<Subscription>>)
    requires db.Valid()
    requires FreshKey(db.subscriptions, SubscriptionId, newId)
    modifies db`subscriptions
    ensures db.Valid()
    ensures !IsValidObjectId(channelId) ==>
      r == Wrap(500, "Server error", ApiError(400, "Invalid channel ID"))
    ensures IsValidObjectId(channelId) && !UserExists(db.users, channelId) ==>
      r == Wrap(500, "Server error", ApiError(404, "Channel not found"))
    ensures IsValidObjectId(channelId) && UserExists(db.users, channelId) && !UserExists(db.users, me) ==>
      r == Wrap(500, "Server error", ApiError(404, "Current user not found"))
    ensures r.Err? ==> db.subscriptions == old(db.subscriptions)
    ensures r.Ok? <==> IsValidObjectId(channelId) && UserExists(db.users, channelId) && UserExists(db.users, me)
    ensures r.Ok? ==> db.subscriptions == SubscriptionToggled(old(db.subscriptions), me, channelId, newId)
    ensures r.Ok? && Subscribed(old(db.subscriptions), me, channelId) ==>
      r == Reply(200, None, "Subscription removed successfully")
    ensures r.Ok? && !Subscribed(old(db.subscriptions), me, channelId) ==>
      r == Reply(200, Some(Subscription(newId, me, channelId)), "Subscription added successfully")
  {
    if !IsValidObjectId(channelId) {
      r := Wrap(500, "Server error", ApiError(400, "Invalid channel ID"));
      return;
    }
    if !UserExists(db.users, channelId) {
      r := Wrap(500, "Server error", ApiError(404, "Channel not found"));
      return;
    }
    if !UserExists(db.users, me) {
      r := Wrap(500, "Server error", ApiError(404, "Current user not found"));
      return;
    }
    var existing := FindKey(db.subscriptions, SubscriptionKey, (me, channelId));
    if existing.Some? {
      DistinctRemoveAt(db.subscriptions, SubscriptionId, existing.value);
      db.subscriptions := RemoveAt(db.subscriptions, existing.value);
      r := Reply(200, None, "Subscription removed successfully");
    } else {
      var sub := Subscription(newId, me, channelId);
      DistinctAppend(db.subscriptions, SubscriptionId, sub);
      db.subscriptions := db.subscriptions + [sub];
      r := Reply(200, Some(sub), "Subscription added successfully");
    }
  }

  /** Two successive toggles by one user on one channel leave the same (subscriber,
      channel) pairs subscribed, and when the user was not subscribed they restore the
      collection exactly. */
  lemma {:induction false} ToggleSubscriptionTwice(subs: seq<Subscription>, me: Id, channel: Id, id1: Id, id2: Id)
    requires Distinct(subs, SubscriptionKey)
    ensures forall a, c :: Subscribed(SubscriptionToggled(SubscriptionToggled(subs, me, channel, id1), me, channel, id2), a, c)
                           <==> Subscribed(subs, a, c)
    ensures !Subscribed(subs, me, channel) ==>
      SubscriptionToggled(SubscriptionToggled(subs, me, channel, id1), me, channel, id2) == subs
  {
    var x := Subscription(id1, me, channel);
    var y := Subscription(id2, me, channel);
    forall a, c ensures Subscribed(SubscriptionToggled(SubscriptionToggled(subs, me, channel, id1), me, channel, id2), a, c)
                        <==> Subscribed(subs, a, c) {
      ToggleTwiceKeys(subs, SubscriptionKey, (me, channel), x, y, (a, c));
    }
    if !Subscribed(subs, me, channel) {
      ToggleTwiceFromAbsent(subs, SubscriptionKey, (me, channel), x, y);
    }
  }

  /** `subscription.find({channel}).map(sub => sub.subscriber)`. */
  function SubscriberIds(subs: seq<Subscription>, channel: Id): (r: seq<Id>)
    ensures forall id :: id in r <==> Subscribed(subs, id, channel)
  {
    var found := Filter(subs, (s: Subscription) => s.channel == channel);
    var r := MapSeq(found, (s: Subscription) => s.subscriber);
    forall id ensures id in r <==> Subscribed(subs, id, channel) {
      if id in r {
        var i :| 0 <= i < |r| && r[i] == id;
        assert found[i] in subs && SubscriptionKey(found[i]) == (id, channel);
      }
      if Subscribed(subs, id, channel) {
        var i := FindKey(subs, SubscriptionKey, (id, channel)).value;
        assert subs[i] in found;
        var j :| 0 <= j < |found| && found[j] == subs[i];
        assert r[j] == id;
      }
    }
    r
  }

  /** `subscription.find({subscriber}).map(sub => sub.channel)`. */
  function ChannelIds(subs: seq<Subscription>, subscriber: Id): (r: seq<Id>)
    ensures forall id :: id in r <==> Subscribed(subs, subscriber, id)
  {
    var found := Filter(subs, (s: Subscription) => s.subscriber == subscriber);
    var r := MapSeq(found, (s: Subscription) => s.channel);
    forall id ensures id in r <==> Subscribed(subs, subscriber, id) {
      if id in r {
        var i :| 0 <= i < |r| && r[i] == id;
        assert found[i] in subs && SubscriptionKey(found[i]) == (subscriber, id);
      }
      if Subscribed(subs, subscriber, id) {
        var i := FindKey(subs, SubscriptionKey, (subscriber, id)).value;
        assert subs[i] in found;
        var j :| 0 <= j < |found| && found[j] == subs[i];
        assert r[j] == id;
      }
    }
    r
  }

  /** `User.find({_id: {$in: ids}}).select("-password -refreshToken")`: the users whose
      id is listed, in collection order, without their secrets. */
  function UsersIn(users: seq<User>, ids: seq<Id>): (r: seq<PublicUser>)
    ensures forall u :: u in users ==> (u.id in ids ==> Public(u) in r)
    ensures forall p :: p in r ==> exists u :: u in users && u.id in ids && p == Public(u)
  {
    var found := Filter(users, (u: User) => u.id in ids);
    var r := MapSeq(found, Public);
    forall u | u in users && u.id in ids ensures Public(u) in r {
      var j :| 0 <= j < |found| && found[j] == u;
      assert r[j] == Public(u);
    }
    forall p | p in r ensures exists u :: u in users && u.id in ids && p == Public(u) {
      var j :| 0 <= j < |r| && r[j] == p;
      assert found[j] in users;
    }
    r
  }

  /** getUserChannelSubscribers: after an invalid id (400) and a missing channel (404),
      both answered as 500, exactly the users subscribed to the channel. */
  function GetUserChannelSubscribers(users: seq<User>, subs: seq<Subscription>, channelId: string)
    : (r: Outcome<seq<PublicUser>>)
    ensures !IsValidObjectId(channelId) ==>
      r == Wrap(500, "Server error", ApiError(400, "Invalid channel ID"))
    ensures IsValidObjectId(channelId) && !UserExists(users, channelId) ==>
      r == Wrap(500, "Server error", ApiError(404, "Channel not found"))
    ensures r.Ok? <==> IsValidObjectId(channelId) && UserExists(users, channelId)
    ensures r.Ok? ==> r.status == 200
    ensures r.Ok? ==> forall u :: u in users ==> (Subscribed(subs, u.id, channelId) ==> Public(u) in r.data)
    ensures r.Ok? ==> forall p :: p in r.data ==>
      exists u :: u in users && Subscribed(subs, u.id, channelId) && p == Public(u)
  {
    if !IsValidObjectId(channelId) then
      Wrap(500, "Server error", ApiError(400, "Invalid channel ID"))
    else if !UserExists(users, channelId) then
      Wrap(500, "Server error", ApiError(404, "Channel not found"))
    else
      Reply(200, UsersIn(users, SubscriberIds(subs, channelId)),
            "Channel's subscriber list fetched successfully")
  }

  /** getSubscribedChannels: after a missing current user (404, answered as 500),
      exactly the users the current user is subscribed to. */
  function GetSubscribedChannels(users: seq<User>, subs: seq<Subscription>, me: Id)
    : (r: Outcome<seq<PublicUser>>)
    ensures !UserExists(users, me) ==>
      r == Wrap(500, "Server error", ApiError(404, "Current user not found"))
    ensures r.Ok? <==> UserExists(users, me)
    ensures r.Ok? ==> r.status == 200
    ensures r.Ok? ==> forall u :: u in users ==> (Subscribed(subs, me, u.id) ==> Public(u) in r.data)
    ensures r.Ok? ==> forall p :: p in r.data ==>
      exists u :: u in users && Subscribed(subs, me, u.id) && p == Public(u)
  {
    if !UserExists(users, me) then
      Wrap(500, "Server error", ApiError(404, "Current user not found"))
    else
      Reply(200, UsersIn(users, ChannelIds(subs, me)), "Subscribed channels fetched successfully")
  }
}
