/** The route handlers of routes/apiRoutes.js as methods on an in-memory
    store. Each handler runs as one atomic step; the caller's id is the one
    the authentication middleware put on the request. */
module Api {
  import opened Model
  import opened Seqs
  import opened Graph
  import opened Likes
  import opened Feed
  import opened Auth

  /** A stored post is filed under its own id, has at most one like per user
      and no repeated comment reference, and every comment it references
      exists and belongs to it. */
  ghost predicate WellFormedPost(posts: map<PostId, Post>, comments: map<CommentId, Comment>, id: PostId)
    requires id in posts
  {
    var p := posts[id];
    && p.id == id
    && NoDup(p.likes)
    && NoDup(p.comments)
    && (forall i :: 0 <= i < |p.comments| ==> p.comments[i] in comments && comments[p.comments[i]].post == id)
  }

  /** Every stored post is well formed. */
  ghost predicate PostsWellFormed(posts: map<PostId, Post>, comments: map<CommentId, Comment>) {
    forall id :: id in posts ==> WellFormedPost(posts, comments, id)
  }

  class Store {
    var users: map<UserId, User>
    var posts: map<PostId, Post>
    var comments: map<CommentId, Comment>

    ghost predicate Valid()
      reads this
    {
      && SocialGraph(users)
      && PostsWellFormed(posts, comments)
    }

    /** Users are created outside the API (there is no sign-up route); the
        store starts from them, with no posts and no comments. */
    constructor (initial: map<UserId, User>)
      requires SocialGraph(initial)
      ensures Valid()
      ensures users == initial && posts == map[] && comments == map[]
    {
      users, posts, comments := initial, map[], map[];
    }

    /** POST /follow/:id. The target is looked up first; a caller with no
        user record makes `follower.following` throw, which the handler
        answers with 500. There is no check against following oneself. */
    method Follow(caller: UserId, target: UserId) returns (r: Result<()>)
      requires Valid()
      modifies this
      ensures Valid()
      ensures r == if target !in old(users) then Err(NotFound)
                   else if caller !in old(users) then Err(ServerError)
                   else if target in old(users)[caller].following then Err(AlreadyFollowing)
                   else Ok(())
      ensures r.Ok? ==> users == Followed(old(users), caller, target)
      ensures r.Err? ==> users == old(users)
      ensures posts == old(posts) && comments == old(comments)
    {
      if target !in users {
        return Err(NotFound);
      }
      if caller !in users {
        return Err(ServerError);
      }
      if target in users[caller].following {
        return Err(AlreadyFollowing);
      }
      FollowKeepsSocialGraph(users, caller, target);
      ghost var before := users;
      users := PushFollowing(users, caller, target);
      users := PushFollower(users, target, caller);
      assert users == Followed(before, caller, target);
      r := Ok(());
    }

    /** POST /unfollow/:id. Same lookups as Follow; on success each of the
        two lists is one entry shorter. */
    method Unfollow(caller: UserId, target: UserId) returns (r: Result<()>)
      requires Valid()
      modifies this
      ensures Valid()
      ensures r == if target !in old(users) then Err(NotFound)
                   else if caller !in old(users) then Err(ServerError)
                   else if target !in old(users)[caller].following then Err(NotFollowing)
                   else Ok(())
      ensures r.Ok? ==> users == Unfollowed(old(users), caller, target)
      ensures r.Ok? ==> |users[caller].following| == |old(users)[caller].following| - 1
      ensures r.Ok? ==> |users[target].followers| == |old(users)[target].followers| - 1
      ensures r.Err? ==> users == old(users)
      ensures posts == old(posts) && comments == old(comments)
    {
      if target !in users {
        return Err(NotFound);
      }
      if caller !in users {
        return Err(ServerError);
      }
      if target !in users[caller].following {
        return Err(NotFollowing);
      }
      UnfollowKeepsSocialGraph(users, caller, target);
      UnfollowCounts(users, caller, target);
      ghost var before := users;
      users := PullFollowing(users, caller, target);
      users := PullFollower(users, target, caller);
      assert users == Unfollowed(before, caller, target);
      r := Ok(());
    }

    /** GET /user. The two counts are the lengths of the caller's lists, and
        so the number of users on the other end of each relation. */
    function UserProfile(caller: UserId): (r: Result<Profile>)
      requires Valid()
      reads this
      ensures r.Ok? <==> caller in users
      ensures r.Err? ==> r.error == ServerError
      ensures r.Ok? ==> r.value.name == users[caller].name
      ensures r.Ok? ==> r.value.numFollowers == |users[caller].followers|
                                             == |set b | b in users && caller in users[b].following|
      ensures r.Ok? ==> r.value.numFollowing == |users[caller].following|
                                             == |set b | b in users && caller in users[b].followers|
    {
      if caller !in users then Err(ServerError)
      else
        FollowerCount(users, caller);
        FollowingCount(users, caller);
        var user := users[caller];
        Ok(Profile(user.name, |user.followers|, |user.following|))
    }

    /** POST /posts. The id and the creation time are assigned by the
        database and come in as inputs; the new post is retrievable at once. */
    method CreatePost(caller: UserId, title: string, desc: string, id: PostId, now: int) returns (r: Result<Created>)
      requires Valid() && id !in posts
      modifies this
      ensures Valid()
      ensures r == Ok(Created(id, title, desc, now))
      ensures posts == old(posts)[id := Post(id, title, desc, caller, now, [], [])]
      ensures GetPost(id) == Ok(Post(id, title, desc, caller, now, [], []))
      ensures users == old(users) && comments == old(comments)
    {
      var post := Post(id, title, desc, caller, now, [], []);
      posts := posts[id := post];
      r := Ok(Created(id, title, desc, now));
    }

    /** DELETE /posts/:id: one conditional removal matching both the id and
        the owner. A post of someone else is reported like a missing one. */
    method DeletePost(caller: UserId, id: PostId) returns (r: Result<()>)
      requires Valid()
      modifies this
      ensures Valid()
      ensures r == if id in old(posts) && old(posts)[id].owner == caller then Ok(()) else Err(NotFound)
      ensures r.Ok? ==> posts == old(posts) - {id}
      ensures r.Err? ==> posts == old(posts)
      ensures users == old(users) && comments == old(comments)
    {
      if id in posts && posts[id].owner == caller {
        posts := posts - {id};
        r := Ok(());
      } else {
        r := Err(NotFound);
      }
    }

    /** POST /like/:id. The new like goes in front; the answer is the new
        `likes` array. */
    method LikePost(caller: UserId, id: PostId) returns (r: Result<seq<Like>>)
      requires Valid()
      modifies this
      ensures Valid()
      ensures id !in old(posts) ==> r == Err(NotFound)
      ensures id in old(posts) && HasLiked(old(posts)[id].likes, caller) ==> r == Err(AlreadyLiked)
      ensures id in old(posts) && !HasLiked(old(posts)[id].likes, caller) ==>
        && r == Ok([Like(caller)] + old(posts)[id].likes)
        && posts == old(posts)[id := old(posts)[id].(likes := r.value)]
      ensures r.Err? ==> posts == old(posts)
      ensures users == old(users) && comments == old(comments)
    {
      if id !in posts {
        return Err(NotFound);
      }
      var post := posts[id];
      if HasLiked(post.likes, caller) {
        return Err(AlreadyLiked);
      }
      LikeKeepsDistinct(post.likes, caller);
      post := post.(likes := [Like(caller)] + post.likes);
      posts := posts[id := post];
      r := Ok(post.likes);
    }

    /** POST /unlike/:id. Every like by the caller is filtered out; the answer
        is the new `likes` array. */
    method UnlikePost(caller: UserId, id: PostId) returns (r: Result<seq<Like>>)
      requires Valid()
      modifies this
      ensures Valid()
      ensures id !in old(posts) ==> r == Err(NotFound)
      ensures id in old(posts) && !HasLiked(old(posts)[id].likes, caller) ==> r == Err(NotLiked)
      ensures id in old(posts) && HasLiked(old(posts)[id].likes, caller) ==>
        && r == Ok(Unliked(old(posts)[id].likes, caller))
        && |r.value| == |old(posts)[id].likes| - 1
        && posts == old(posts)[id := old(posts)[id].(likes := r.value)]
      ensures r.Err? ==> posts == old(posts)
      ensures users == old(users) && comments == old(comments)
    {
      if id !in posts {
        return Err(NotFound);
      }
      var post := posts[id];
      if !HasLiked(post.likes, caller) {
        return Err(NotLiked);
      }
      UnlikeKeepsOrder(post.likes, caller);
      post := post.(likes := Unliked(post.likes, caller));
      posts := posts[id := post];
      r := Ok(post.likes);
    }

    /** GET /posts/:id, without the joins that fill in user names: the stored record. */
    function GetPost(id: PostId): (r: Result<Post>)
      reads this
      ensures r.Ok? <==> id in posts
      ensures r.Ok? ==> r.value == posts[id]
      ensures r.Err? ==> r.error == NotFound
    {
      if id in posts then Ok(posts[id]) else Err(NotFound)
    }

    /** GET /all_posts: every post of the caller, each once, newest first.
        The query itself is a database search and sort; here it is a pass
        over the stored posts that inserts each of the caller's posts after
        the ones at least as new. */
    method AllPosts(caller: UserId) returns (r: seq<Post>)
      requires Valid()
      ensures NewestFirst(r)
      ensures NoDup(r)
      ensures forall p :: p in r ==> p.id in posts && posts[p.id] == p && p.owner == caller
      ensures forall id :: id in posts && posts[id].owner == caller ==> posts[id] in r
    {
      r := [];
      var todo := posts.Keys;
      while todo != {}
        invariant todo <= posts.Keys
        invariant NewestFirst(r) && NoDup(r)
        invariant forall p :: p in r ==> p.id in posts && posts[p.id] == p && p.owner == caller && p.id !in todo
        invariant forall id :: id in posts && id !in todo && posts[id].owner == caller ==> posts[id] in r
        decreases todo
      {
        var id :| id in todo;
        assert WellFormedPost(posts, comments, id);
        var post := posts[id];
        if post.owner == caller {
          var k := 0;
          while k < |r| && r[k].createdAt >= post.createdAt
            invariant 0 <= k <= |r|
            invariant forall i :: 0 <= i < k ==> r[i].createdAt >= post.createdAt
          {
            k := k + 1;
          }
          InsertNewestFirst(r, k, post);
          r := r[..k] + [post] + r[k..];
        }
        todo := todo - {id};
      }
    }

    /** POST /comment/:id. The comment is created, then its id goes to the
        end of the post's `comments`. The author is taken as a parameter: see
        Auth for what the handler reads instead. The comment's id is assigned
        by the database and comes in as an input. */
    method AddComment(author: UserId, postId: PostId, text: string, id: CommentId) returns (r: Result<CommentId>)
      requires Valid() && id !in comments
      modifies this
      ensures Valid()
      ensures r == if postId in old(posts) then Ok(id) else Err(NotFound)
      ensures r.Ok? ==> comments == old(comments)[id := Comment(author, postId, text)]
      ensures r.Ok? ==> posts == old(posts)[postId := old(posts)[postId].(comments := old(posts)[postId].comments + [id])]
      ensures r.Err? ==> comments == old(comments) && posts == old(posts)
      ensures users == old(users)
    {
      if postId !in posts {
        return Err(NotFound);
      }
      var post := posts[postId];
      assert WellFormedPost(posts, comments, postId);
      comments := comments[id := Comment(author, postId, text)];
      post := post.(comments := post.comments + [id]);
      AppendDistinct(old(posts)[postId].comments, id);
      posts := posts[postId := post];
      r := Ok(id);
      assert PostsWellFormed(old(posts), old(comments));
    }

    /** POST /comment/:id as a whole, with the author read from `req.userId`
        (Auth.CommentAuthor) rather than from `req.user.userId`. */
    method CommentOnPost(req: Request, postId: PostId, text: string, id: CommentId) returns (r: Result<CommentId>)
      requires Valid() && id !in comments
      modifies this
      ensures Valid()
      ensures r == if postId in old(posts) then Ok(id) else Err(NotFound)
      ensures r.Ok? ==> comments == old(comments)[id := Comment(req.userId, postId, text)]
      ensures r.Ok? ==> posts == old(posts)[postId := old(posts)[postId].(comments := old(posts)[postId].comments + [id])]
      ensures r.Err? ==> comments == old(comments) && posts == old(posts)
      ensures users == old(users)
    {
      r := AddComment(CommentAuthor(req), postId, text, id);
    }
  }
}
