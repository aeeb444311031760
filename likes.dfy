/** A post's `likes` array: the membership test, the prepend and the filter
    of the like and unlike handlers. */
module Likes {
  import opened Model
  import opened Seqs

  /** `post.likes.some((like) => like.user.toString() === u)` */
  predicate HasLiked(likes: seq<Like>, u: UserId) {
    exists i :: 0 <= i < |likes| && likes[i].user == u
  }

  /** `post.likes.filter((like) => like.user.toString() !== u)`. A like is
      nothing but its user, so dropping the likes by `u` pulls `Like(u)`. */
  function Unliked(likes: seq<Like>, u: UserId): (r: seq<Like>)
    ensures !HasLiked(r, u)
    ensures forall v :: v != u ==> (HasLiked(r, v) <==> HasLiked(likes, v))
  {
    var r := Pull(likes, Like(u));
    assert forall v :: HasLiked(r, v) <==> HasLiked(likes, v) && v != u by {
      forall v ensures HasLiked(r, v) <==> HasLiked(likes, v) && v != u {
        HasLikedIsLike(r, v);
        HasLikedIsLike(likes, v);
        PullMembers(likes, Like(u), Like(v));
      }
    }
    r
  }

  lemma HasLikedIsLike(likes: seq<Like>, u: UserId)
    ensures HasLiked(likes, u) <==> Like(u) in likes
  {
    if HasLiked(likes, u) {
      var i :| 0 <= i < |likes| && likes[i].user == u;
      assert likes[i] == Like(u);
    }
  }

  /** Prepending the like of a user who had not liked keeps the likes one per user. */
  lemma LikeKeepsDistinct(likes: seq<Like>, u: UserId)
    requires NoDup(likes) && !HasLiked(likes, u)
    ensures NoDup([Like(u)] + likes) && HasLiked([Like(u)] + likes, u)
  {
    HasLikedIsLike(likes, u);
    PrependDistinct(Like(u), likes);
    assert ([Like(u)] + likes)[0].user == u;
  }

  /** The filter keeps the other likes in their order; on likes that are one
      per user and include `u`, it removes exactly one entry. */
  lemma UnlikeKeepsOrder(likes: seq<Like>, u: UserId)
    ensures IsSubsequence(Unliked(likes, u), likes)
    ensures NoDup(likes) ==> NoDup(Unliked(likes, u))
    ensures NoDup(likes) && HasLiked(likes, u) ==> |Unliked(likes, u)| == |likes| - 1
  {
    PullSubsequence(likes, Like(u));
    HasLikedIsLike(likes, u);
    if NoDup(likes) {
      PullDistinct(likes, Like(u));
    }
  }

  /** Unliking right after a like gives back the likes as they were. */
  lemma LikeThenUnlike(likes: seq<Like>, u: UserId)
    requires !HasLiked(likes, u)
    ensures Unliked([Like(u)] + likes, u) == likes
  {
    HasLikedIsLike(likes, u);
    PullAbsent(likes, Like(u));
    assert ([Like(u)] + likes)[1..] == likes;
  }
}
