/** The records the API stores and the outcomes its handlers report. */
module Model {

  /** Ids are opaque strings (MongoDB ObjectIds as the handlers compare them). */
  type UserId = string
  type PostId = string
  type CommentId = string

  datatype Option<T> = None | Some(value: T)

  /** A user record. `following` and `followers` are the two id lists that
      follow and unfollow update with `$push` and `$pull`. */
  datatype User = User(name: string, email: string, following: seq<UserId>, followers: seq<UserId>)

  /** One entry of a post's `likes` array: `{ user: id }`. */
  datatype Like = Like(user: UserId)

  /** A post record.
      `owner` stands for the post's single owner field. The source is not
      consistent about its name: creation stores the caller under `createdBy`
      (routes/apiRoutes.js:83), while deletion and the own-posts listing filter
      on `user` (routes/apiRoutes.js:98, 184). The model reads all three as
      the same field. */
  datatype Post = Post(
    id: PostId,
    title: string,
    desc: string,
    owner: UserId,
    createdAt: int,
    likes: seq<Like>,
    comments: seq<CommentId>)

  /** A comment record: its author, the post it belongs to and its text. */
  datatype Comment = Comment(user: UserId, post: PostId, text: string)

  /** Why a handler did not succeed. */
  datatype Error =
    | NotFound          // 404: the user or post named in the path does not exist
    | AlreadyFollowing  // 400
    | NotFollowing      // 400
    | AlreadyLiked      // 400
    | NotLiked          // 400
    | ServerError       // 500: an exception caught by the handler's try block
    | Uncaught          // an exception thrown outside the handler's try block: no response

  datatype Result<T> = Ok(value: T) | Err(error: Error)

  /** The body of a successful POST /posts. */
  datatype Created = Created(postId: PostId, title: string, desc: string, createdAt: int)

  /** The body of GET /user. */
  datatype Profile = Profile(name: string, numFollowers: nat, numFollowing: nat)
}
