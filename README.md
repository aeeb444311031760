# Social-Media-API: the route handlers as a verified store model

The repository is a small Express/Mongoose REST API for a social network:
users follow and unfollow each other, create and delete posts, like and
unlike them, and comment on them. All of the logic lives in the route
handlers of `routes/apiRoutes.js`. Each handler checks that the records it
names exist and that the action is not a duplicate, then updates one or two
stored documents.

This project models those handlers as methods of a class `Api.Store`. The
class holds three maps in place of the database collections: users, posts and
comments. The database operations become map lookups and updates:
`findById`, `$push` (append), `$pull` (remove every occurrence),
`findOneAndDelete`, and `save` after an in-memory change. The operations the
handlers apply to their arrays are modelled as sequence functions:
`includes`/`some` (membership), `unshift` (prepend) and `filter` (removal
that keeps order).

Modules:

- `Model` (model.dfy): the records (`User`, `Post`, `Like`, `Comment`), the ids and the handler outcomes (`Result`, `Error`).
- `Seqs` (seqs.dfy): `Pull`, the order-keeping removal behind both `$pull` and `likes.filter`, with its properties.
- `Graph` (graph.dfy): the follow relation, stored as the `following`/`followers` lists of each user. It holds the single `$push`/`$pull` updates, the two-update follow and unfollow, and the invariant they keep.
- `Likes` (likes.dfy): the `some` test and the `filter` of like/unlike, and their properties.
- `Feed` (feed.dfy): the newest-first order of the own-posts listing.
- `Auth` (auth.dfy): the request fields the authentication middleware sets, and where the comment handler reads its author.
- `Api` (store.dfy): the `Store` class with one method per handler, and the store invariant `Valid()`. `Valid()` requires that:
  - the follow lists mirror each other, name only stored users and hold no duplicates;
  - each post is stored under its own id, has at most one like per user and lists no comment id twice;
  - every comment id a post lists exists and belongs to that post.

Each handler is one atomic step of the store. A handler that fails leaves the
store unchanged. The authenticated caller is a parameter.

Some behaviour of the code is not in the design description, and the model follows the code:

- A caller without a user record gets 500 from follow, unfollow and the profile, because `follower.following` or `user.followers` throws inside the handler's `try`. This happens after the target lookup, so in follow and unfollow a missing target still gets 404 first.
- Follow has no guard against following oneself. A self-follow appends the user to both of their own lists.
- Posts have a single owner field, `owner`. The code stores the owner under `createdBy` when it creates a post (routes/apiRoutes.js:83), but deletion and the own-posts listing filter on `user` (routes/apiRoutes.js:98, 184). Which field the Post schema actually has is not visible here. The model treats all three as the same field.

## Model

| member | source | states |
|---|---|---|
| Seqs.Pull | routes/apiRoutes.js:146-148 | the result holds no occurrence of the removed value and every other element exactly as often as before |
| Seqs.PullSubsequence | routes/apiRoutes.js:146-148 | the removal keeps the remaining elements in their original order |
| Seqs.PullDistinct | routes/apiRoutes.js:54-55 | on a duplicate-free list the removal keeps it duplicate-free and, when the value was present, removes exactly one element |
| Seqs.PullAppended | routes/apiRoutes.js:33-34 | removing a value just appended to a list that lacked it gives the list back |
| Graph.PushFollowing | routes/apiRoutes.js:33 | `$push` on `following` appends to that user's list only and changes nothing else |
| Graph.PushFollower | routes/apiRoutes.js:34 | `$push` on `followers` appends to that user's list only and changes nothing else |
| Graph.PullFollowing | routes/apiRoutes.js:54 | `$pull` on `following` removes from that user's list only and changes nothing else |
| Graph.PullFollower | routes/apiRoutes.js:55 | `$pull` on `followers` removes from that user's list only and changes nothing else |
| Graph.Followed | routes/apiRoutes.js:33-34 | after both updates of a follow, the target is at the end of the caller's `following` and the caller at the end of the target's `followers`; no other list, name or email changes, self-follow included |
| Graph.Unfollowed | routes/apiRoutes.js:54-55 | after both updates of an unfollow, the target is gone from the caller's `following` and the caller from the target's `followers`; nothing else changes |
| Graph.NotFollowingNotFollower | routes/apiRoutes.js:30 | under the mirror invariant, a caller who does not follow the target is not among its followers |
| Graph.FollowKeepsMirrored | routes/apiRoutes.js:33-34 | a follow keeps every user's `following` and `followers` mirrored, counted with multiplicity |
| Graph.FollowKeepsPair | routes/apiRoutes.js:33-34 | for any two users, the follow changes the count of one in the other's `following` exactly as it changes the count of the other in the first's `followers` |
| Graph.FollowKeepsSocialGraph | routes/apiRoutes.js:30-34 | a follow that passed the already-following check keeps the lists mirrored, referring to stored users only, and duplicate-free |
| Graph.UnfollowKeepsMirrored | routes/apiRoutes.js:54-55 | an unfollow keeps the lists mirrored |
| Graph.UnfollowKeepsSocialGraph | routes/apiRoutes.js:51-55 | an unfollow keeps the lists mirrored, closed and duplicate-free |
| Graph.UnfollowCounts | routes/apiRoutes.js:51-55 | a successful unfollow shortens the caller's `following` and the target's `followers` by exactly one |
| Graph.FollowThenUnfollow | routes/apiRoutes.js:33-34 | an unfollow right after a successful follow restores every user record exactly |
| Graph.PullUndoesPush | routes/apiRoutes.js:54-55 | the two `$pull` updates undo the two `$push` updates when neither id was listed before |
| Graph.FollowerCount | routes/apiRoutes.js:67 | under the invariant, the length of `followers` is the number of users whose `following` names this user |
| Graph.FollowingCount | routes/apiRoutes.js:68 | under the invariant, the length of `following` is the number of users whose `followers` names this user |
| Likes.HasLiked | routes/apiRoutes.js:119 | the `some` test of like and unlike: some like in the list is by the given user |
| Likes.Unliked | routes/apiRoutes.js:146-148 | the filtered likes contain none by the caller, and every other user has liked after exactly when they had liked before |
| Likes.HasLikedIsLike | routes/apiRoutes.js:119 | the `some` test on `like.user` is membership of that user's like entry |
| Likes.LikeKeepsDistinct | routes/apiRoutes.js:119-123 | prepending the like of a user who had not liked keeps at most one like per user, and the user now counts as having liked |
| Likes.UnlikeKeepsOrder | routes/apiRoutes.js:141-148 | the filter keeps the other likes in order and duplicate-free; on likes with one entry per user that include the caller it removes exactly one |
| Likes.LikeThenUnlike | routes/apiRoutes.js:119-148 | an unlike right after a successful like gives back the previous likes |
| Feed.NewestFirst | routes/apiRoutes.js:187 | the order of `.sort({ createdAt: -1 })`: creation times never increase along the list |
| Feed.InsertNewestFirst | routes/apiRoutes.js:187 | inserting a post before the first older one keeps the list in non-increasing `createdAt` order and duplicate-free |
| Auth.CommentAuthorAsWritten | routes/apiRoutes.js:198 | the author read as written: `req.user.userId`, which throws (Uncaught) when the request carries no `user` field |
| Auth.CommentAuthor | routes/apiRoutes.js:198 | the evidently intended author read: the caller id the middleware stores in `req.userId` |
| Auth.CommentAuthorAsWrittenFails | routes/apiRoutes.js:198 | as written, the comment handler's author lookup throws for every authenticated request |
| Api.Store.Follow | routes/apiRoutes.js:22-40 | missing target gives NotFound (404), missing caller record gives ServerError (500), already following gives AlreadyFollowing (400); each failure leaves the store unchanged; success applies Followed and keeps the invariant |
| Api.Store.Unfollow | routes/apiRoutes.js:43-61 | NotFound, ServerError and NotFollowing (400) in that order, leaving the store unchanged; success applies Unfollowed, shortens both lists by one and keeps the invariant |
| Api.Store.UserProfile | routes/apiRoutes.js:64-74 | for a stored caller, the name and the two list lengths, each equal to the number of users on the other end of the relation; ServerError for a missing caller |
| Api.Store.CreatePost | routes/apiRoutes.js:77-91 | stores a post owned by the caller with no likes or comments, returns its id, title, description and creation time, and a lookup by that id returns it at once |
| Api.Store.DeletePost | routes/apiRoutes.js:94-108 | removes exactly the post matching both id and owner; otherwise NotFound (404) and nothing is removed |
| Api.Store.LikePost | routes/apiRoutes.js:111-130 | NotFound for a missing post, AlreadyLiked (400) if the caller already liked it, each leaving the store unchanged; otherwise the new likes are the caller's like followed by the old likes in order, returned and stored |
| Api.Store.UnlikePost | routes/apiRoutes.js:133-155 | NotFound for a missing post, NotLiked (400) if the caller had not liked it, each leaving the store unchanged; otherwise the filtered likes, one shorter, are returned and stored |
| Api.Store.GetPost | routes/apiRoutes.js:158-179 | the stored post for a known id, NotFound otherwise |
| Api.Store.AllPosts | routes/apiRoutes.js:182-194 | every post of the caller exactly once, only the caller's posts, in non-increasing `createdAt` order |
| Api.Store.AddComment | routes/apiRoutes.js:196-226 | NotFound for a missing post, with no comment created; otherwise the comment is stored with the given author, post and text, and its id is appended to the end of that post's `comments` |
| Api.Store.CommentOnPost | routes/apiRoutes.js:196-226 | the comment route with the author read from `req.userId`: NotFound for a missing post with nothing created; otherwise the comment is stored with the authenticated caller as its author, its id is appended to the end of that post's `comments`, and no other post changes |

## Findings

| source | as written | input that shows it | evidently intended | confidence | as-written member | corrected member |
|---|---|---|---|---|---|---|
| routes/apiRoutes.js:198 | the handler reads the author as `req.user.userId`. This happens before its `try` block, and authMiddleware sets only `req.userId` (middlewares/authMiddleware.js:17) | any request that passed authentication: `req.user` is undefined, so the property access throws before the handler can answer | the author is `req.userId`, the caller every other handler uses | high; not executed | Auth.CommentAuthorAsWrittenFails | Api.Store.CommentOnPost |

## Left out

- The `/authenticate` route (routes/apiRoutes.js:10-19): a fixed credential comparison plus token signing. Nothing in it is stateful.
- Token verification in authMiddleware (a foreign library). The caller id is a parameter. A request without an `Authorization` header gets 401 (middlewares/authMiddleware.js:8-10) before any handler runs. Whether the token really carries a `userId` is outside the model: the route signs `{ email }` under `JWT_SECRET`, while the middleware verifies with `JWTSECRET` and reads `decoded.userId`.
- The `populate` joins of GET /posts/:id and GET /all_posts, which fill in user names and comment records. They are database joins, so the model returns the stored records.
- HTTP status codes and JSON bodies. Each `Error` value names the status its handler sends.
- Exceptions other than the missing-caller case: a malformed id (a cast error) and database failures. In the source these all become the catch-all 500.
- Id generation and timestamps. Post ids, comment ids and `createdAt` come from the database, so they are inputs here. Api.Store.CreatePost and Api.Store.AddComment require an id not already in use, standing for ObjectId uniqueness.
- Comment creation times and the user password field: no handler reads either.
- Concurrency and partial failure between the two writes of follow, unfollow and comment. Each handler is one atomic step.
- Api.Store.AllPosts: the database's order among posts with equal `createdAt` is unspecified. The contract fixes only the non-increasing order, not the order among ties.
- Api.Store.CreatePost: the handler does not check that the caller has a user record, and neither does the model. Posts of unknown owners are therefore allowed.
- The store methods require the invariant `Valid()` and preserve it. Users are created outside the API, so the constructor takes an initial user map that satisfies the social-graph invariant.
