/** The follow relation as the two id lists kept on every user record. */
module Graph {
  import opened Model
  import opened Seqs

  type Users = map<UserId, User>

  /** `b` appears in `a`'s `following` exactly as often as `a` appears in `b`'s `followers`. */
  ghost predicate MirroredPair(users: Users, a: UserId, b: UserId)
    requires a in users && b in users
  {
    multiset(users[a].following)[b] == multiset(users[b].followers)[a]
  }

  /** Every follow is recorded on both ends, and as often on one end as on the other. */
  ghost predicate Mirrored(users: Users) {
    forall a, b {:trigger MirroredPair(users, a, b)} :: a in users && b in users ==> MirroredPair(users, a, b)
  }

  /** Every id in `s` names a stored user. */
  ghost predicate AllKnown(users: Users, s: seq<UserId>) {
    forall i :: 0 <= i < |s| ==> s[i] in users
  }

  /** Every id in either list of every user names a stored user. */
  ghost predicate Closed(users: Users) {
    forall a :: a in users ==> AllKnown(users, users[a].following) && AllKnown(users, users[a].followers)
  }

  /** The state the follow and unfollow handlers keep: mirrored, closed, and
      each list free of duplicates. */
  ghost predicate SocialGraph(users: Users) {
    && Mirrored(users)
    && Closed(users)
    && (forall a :: a in users ==> NoDup(users[a].following) && NoDup(users[a].followers))
  }

  /** One `$push` on a user's `following`: `x` goes to the end of `u`'s list. */
  function PushFollowing(users: Users, u: UserId, x: UserId): (r: Users)
    requires u in users
    ensures r.Keys == users.Keys
    ensures forall v :: v in users ==>
      r[v].name == users[v].name && r[v].email == users[v].email && r[v].followers == users[v].followers
    ensures forall v :: v in users ==>
      r[v].following == (if v == u then users[v].following + [x] else users[v].following)
  {
    users[u := users[u].(following := users[u].following + [x])]
  }

  /** One `$push` on a user's `followers`. */
  function PushFollower(users: Users, u: UserId, x: UserId): (r: Users)
    requires u in users
    ensures r.Keys == users.Keys
    ensures forall v :: v in users ==>
      r[v].name == users[v].name && r[v].email == users[v].email && r[v].following == users[v].following
    ensures forall v :: v in users ==>
      r[v].followers == (if v == u then users[v].followers + [x] else users[v].followers)
  {
    users[u := users[u].(followers := users[u].followers + [x])]
  }

  /** One `$pull` on a user's `following`: every `x` leaves `u`'s list. */
  function PullFollowing(users: Users, u: UserId, x: UserId): (r: Users)
    requires u in users
    ensures r.Keys == users.Keys
    ensures forall v :: v in users ==>
      r[v].name == users[v].name && r[v].email == users[v].email && r[v].followers == users[v].followers
    ensures forall v :: v in users ==>
      r[v].following == (if v == u then Pull(users[v].following, x) else users[v].following)
  {
    users[u := users[u].(following := Pull(users[u].following, x))]
  }

  /** One `$pull` on a user's `followers`. */
  function PullFollower(users: Users, u: UserId, x: UserId): (r: Users)
    requires u in users
    ensures r.Keys == users.Keys
    ensures forall v :: v in users ==>
      r[v].name == users[v].name && r[v].email == users[v].email && r[v].following == users[v].following
    ensures forall v :: v in users ==>
      r[v].followers == (if v == u then Pull(users[v].followers, x) else users[v].followers)
  {
    users[u := users[u].(followers := Pull(users[u].followers, x))]
  }

  /** The two updates of a follow, one after the other: `target` goes to the
      end of the caller's `following`, then `caller` to the end of the
      target's `followers`. When caller and target are the same user both
      updates land on that one record. Only those two lists change. */
  function Followed(users: Users, caller: UserId, target: UserId): (r: Users)
    requires caller in users && target in users
    ensures r.Keys == users.Keys
    ensures forall u :: u in users ==>
      r[u].following == (if u == caller then users[u].following + [target] else users[u].following)
    ensures forall u :: u in users ==>
      r[u].followers == (if u == target then users[u].followers + [caller] else users[u].followers)
    ensures forall u :: u in users ==> r[u].name == users[u].name && r[u].email == users[u].email
  {
    PushFollower(PushFollowing(users, caller, target), target, caller)
  }

  /** The two updates of an unfollow: every `target` leaves the caller's
      `following`, then every `caller` leaves the target's `followers`.
      Only those two lists change. */
  function Unfollowed(users: Users, caller: UserId, target: UserId): (r: Users)
    requires caller in users && target in users
    ensures r.Keys == users.Keys
    ensures target !in r[caller].following && caller !in r[target].followers
    ensures forall u :: u in users ==>
      r[u].following == (if u == caller then Pull(users[u].following, target) else users[u].following)
    ensures forall u :: u in users ==>
      r[u].followers == (if u == target then Pull(users[u].followers, caller) else users[u].followers)
    ensures forall u :: u in users ==> r[u].name == users[u].name && r[u].email == users[u].email
  {
    PullMembers(users[caller].following, target, target);
    PullMembers(users[target].followers, caller, caller);
    PullFollower(PullFollowing(users, caller, target), target, caller)
  }

  /** A user who does not follow `target` is not among its followers either. */
  lemma NotFollowingNotFollower(users: Users, caller: UserId, target: UserId)
    requires SocialGraph(users) && caller in users && target in users
    requires target !in users[caller].following
    ensures caller !in users[target].followers
  {
    assert MirroredPair(users, caller, target);
  }

  /** Both `$push` updates of a follow raise the same count, so the lists stay mirrored. */
  lemma FollowKeepsMirrored(users: Users, caller: UserId, target: UserId)
    requires Mirrored(users) && caller in users && target in users
    ensures Mirrored(Followed(users, caller, target))
  {
    var r := Followed(users, caller, target);
    forall a, b | a in r && b in r
      ensures MirroredPair(r, a, b)
    {
      assert MirroredPair(users, a, b);
      FollowKeepsPair(users, caller, target, a, b);
    }
  }

  lemma FollowKeepsPair(users: Users, caller: UserId, target: UserId, a: UserId, b: UserId)
    requires caller in users && target in users && a in users && b in users
    requires MirroredPair(users, a, b)
    ensures a in Followed(users, caller, target) && b in Followed(users, caller, target)
    ensures MirroredPair(Followed(users, caller, target), a, b)
  {
    var r := Followed(users, caller, target);
    var f, g := users[a].following, users[b].followers;
    if a == caller {
      assert r[a].following == f + [target];
      assert multiset(r[a].following)[b] == multiset(f)[b] + if b == target then 1 else 0;
    } else {
      assert r[a].following == f;
    }
    if b == target {
      assert r[b].followers == g + [caller];
      assert multiset(r[b].followers)[a] == multiset(g)[a] + if a == caller then 1 else 0;
    } else {
      assert r[b].followers == g;
    }
  }

  /** A follow that passed the already-following check keeps the social graph. */
  lemma FollowKeepsSocialGraph(users: Users, caller: UserId, target: UserId)
    requires SocialGraph(users) && caller in users && target in users
    requires target !in users[caller].following
    ensures SocialGraph(Followed(users, caller, target))
  {
    var r := Followed(users, caller, target);
    FollowKeepsMirrored(users, caller, target);
    NotFollowingNotFollower(users, caller, target);
    AppendDistinct(users[caller].following, target);
    AppendDistinct(users[target].followers, caller);
    forall a | a in r
      ensures AllKnown(r, r[a].following) && AllKnown(r, r[a].followers)
      ensures NoDup(r[a].following) && NoDup(r[a].followers)
    {
      assert AllKnown(users, users[a].following) && AllKnown(users, users[a].followers);
      assert NoDup(users[a].following) && NoDup(users[a].followers);
      assert r[a].following == if a == caller then users[a].following + [target] else users[a].following;
      assert r[a].followers == if a == target then users[a].followers + [caller] else users[a].followers;
    }
  }

  /** Both `$pull` updates of an unfollow clear the same count, so the lists stay mirrored. */
  lemma UnfollowKeepsMirrored(users: Users, caller: UserId, target: UserId)
    requires Mirrored(users) && caller in users && target in users
    ensures Mirrored(Unfollowed(users, caller, target))
  {
    var r := Unfollowed(users, caller, target);
    forall a, b | a in r && b in r
      ensures MirroredPair(r, a, b)
    {
      assert MirroredPair(users, a, b);
      assert r[a].following == if a == caller then Pull(users[a].following, target) else users[a].following;
      assert r[b].followers == if b == target then Pull(users[b].followers, caller) else users[b].followers;
    }
  }

  /** Any unfollow keeps the social graph. */
  lemma UnfollowKeepsSocialGraph(users: Users, caller: UserId, target: UserId)
    requires SocialGraph(users) && caller in users && target in users
    ensures SocialGraph(Unfollowed(users, caller, target))
  {
    var r := Unfollowed(users, caller, target);
    UnfollowKeepsMirrored(users, caller, target);
    PullDistinct(users[caller].following, target);
    PullDistinct(users[target].followers, caller);
    forall a | a in r
      ensures AllKnown(r, r[a].following) && AllKnown(r, r[a].followers)
      ensures NoDup(r[a].following) && NoDup(r[a].followers)
    {
      assert AllKnown(users, users[a].following) && AllKnown(users, users[a].followers);
      assert NoDup(users[a].following) && NoDup(users[a].followers);
      assert r[a].following == if a == caller then Pull(users[a].following, target) else users[a].following;
      assert r[a].followers == if a == target then Pull(users[a].followers, caller) else users[a].followers;
      forall i | 0 <= i < |r[a].following| ensures r[a].following[i] in users {
        PullMembers(users[a].following, target, r[a].following[i]);
      }
      forall i | 0 <= i < |r[a].followers| ensures r[a].followers[i] in users {
        PullMembers(users[a].followers, caller, r[a].followers[i]);
      }
    }
  }

  /** A successful unfollow shortens each of the two lists by exactly one. */
  lemma UnfollowCounts(users: Users, caller: UserId, target: UserId)
    requires SocialGraph(users) && caller in users && target in users
    requires target in users[caller].following
    ensures |Unfollowed(users, caller, target)[caller].following| == |users[caller].following| - 1
    ensures |Unfollowed(users, caller, target)[target].followers| == |users[target].followers| - 1
  {
    assert MirroredPair(users, caller, target);
    PullDistinct(users[caller].following, target);
    PullDistinct(users[target].followers, caller);
  }

  /** Unfollowing right after a follow gives back the users exactly as they were. */
  lemma FollowThenUnfollow(users: Users, caller: UserId, target: UserId)
    requires SocialGraph(users) && caller in users && target in users
    requires target !in users[caller].following
    ensures Unfollowed(Followed(users, caller, target), caller, target) == users
  {
    NotFollowingNotFollower(users, caller, target);
    PullUndoesPush(users, caller, target);
  }

  lemma PullUndoesPush(users: Users, caller: UserId, target: UserId)
    requires caller in users && target in users
    requires target !in users[caller].following && caller !in users[target].followers
    ensures Unfollowed(Followed(users, caller, target), caller, target) == users
  {
    var r := Unfollowed(Followed(users, caller, target), caller, target);
    forall u | u in users ensures u in r && r[u] == users[u] {
      PullUndoesPushAt(users, caller, target, u);
    }
    SameEntries(r, users);
  }

  lemma SameEntries(m: Users, n: Users)
    requires m.Keys == n.Keys
    requires forall u :: u in n ==> m[u] == n[u]
    ensures m == n
  {
  }

  lemma PullUndoesPushAt(users: Users, caller: UserId, target: UserId, u: UserId)
    requires caller in users && target in users && u in users
    requires target !in users[caller].following && caller !in users[target].followers
    ensures u in Unfollowed(Followed(users, caller, target), caller, target)
    ensures Unfollowed(Followed(users, caller, target), caller, target)[u] == users[u]
  {
    var f := Followed(users, caller, target);
    var r := Unfollowed(f, caller, target);
    var before := users[u];
    if u == caller {
      PullAppended(before.following, target);
      assert f[u].following == before.following + [target];
    }
    if u == target {
      PullAppended(before.followers, caller);
      assert f[u].followers == before.followers + [caller];
    }
    assert r[u].following == before.following;
    assert r[u].followers == before.followers;
  }

  /** The profile's follower count is the number of users whose `following`
      list names this user. */
  lemma FollowerCount(users: Users, a: UserId)
    requires SocialGraph(users) && a in users
    ensures |users[a].followers| == |set b | b in users && a in users[b].following|
  {
    DistinctCard(users[a].followers);
    forall b ensures b in users[a].followers <==> b in users && a in users[b].following {
      if b in users[a].followers {
        assert MirroredPair(users, b, a);
      }
      if b in users && a in users[b].following {
        assert MirroredPair(users, b, a);
      }
    }
    assert (set b | b in users[a].followers) == (set b | b in users && a in users[b].following);
  }

  /** Likewise, the following count is the number of users whose `followers`
      list names this user. */
  lemma FollowingCount(users: Users, a: UserId)
    requires SocialGraph(users) && a in users
    ensures |users[a].following| == |set b | b in users && a in users[b].followers|
  {
    DistinctCard(users[a].following);
    forall b ensures b in users[a].following <==> b in users && a in users[b].followers {
      if b in users[a].following {
        assert MirroredPair(users, a, b);
      }
      if b in users && a in users[b].followers {
        assert MirroredPair(users, a, b);
      }
    }
    assert (set b | b in users[a].following) == (set b | b in users && a in users[b].followers);
  }
}
