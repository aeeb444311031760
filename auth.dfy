/** What the handlers find on the request once authMiddleware has let it
    through, and where the comment handler looks for its author. */
module Auth {
  import opened Model

  /** The claims object a handler could find under `req.user`. */
  datatype Claims = Claims(userId: UserId)

  /** The two request fields a handler might read for the caller: `req.userId`
      and `req.user`. */
  datatype Request = Request(userId: UserId, user: Option<Claims>)

  /** authMiddleware copies the token's user id to `req.userId` and sets
      nothing else; `req.user` stays undefined. */
  function Authenticated(id: UserId): Request {
    Request(id, None)
  }

  /** The comment handler's `req.user.userId`, evaluated before its try
      block: with `req.user` undefined the property access throws, and no
      handler answers. */
  function CommentAuthorAsWritten(req: Request): Result<UserId> {
    match req.user
    case None => Err(Uncaught)
    case Some(claims) => Ok(claims.userId)
  }

  /** The id every other handler uses for the caller; Api.Store.CommentOnPost
      records it as the comment's author. */
  function CommentAuthor(req: Request): UserId {
    req.userId
  }

  /** As written, no request that passed authentication gets an author. */
  lemma CommentAuthorAsWrittenFails(id: UserId)
    ensures CommentAuthorAsWritten(Authenticated(id)) == Err(Uncaught)
  {
  }
}
