/** The three Express middlewares that gate the cart and order routes on the
    session's user id. */
module Auth {
  import opened Lines

  /** `req.session`; its `userId` is missing when nobody logged in. */
  datatype Session = Session(userId: Option<string>)

  /** The truthiness test `req.session && req.session.userId`: a session that
      holds a non-empty user id. */
  predicate SignedIn(session: Option<Session>) {
    session.Some? && session.value.userId.Some? && session.value.userId.value != ""
  }

  /** What a middleware does with a request: pass it on with `next()`, or
      answer it with a status and an `error` message. */
  datatype Gate = Next | Reject(status: int, error: string)

  /** `requireAuth`: only signed-in requests get through; the rest get 401. */
  function RequireAuth(session: Option<Session>): (g: Gate)
    ensures g.Next? <==> SignedIn(session)
    ensures g.Reject? ==> g.status == 401 && g.error == "Authentication required"
  {
    if SignedIn(session) then Next else Reject(401, "Authentication required")
  }

  /** `requireGuest`: only requests without a signed-in user get through; the
      rest get 400. */
  function RequireGuest(session: Option<Session>): (g: Gate)
    ensures g.Next? <==> !SignedIn(session)
    ensures g.Reject? ==> g.status == 400 && g.error == "Already logged in"
  {
    if SignedIn(session) then Reject(400, "Already logged in") else Next
  }

  /** Every request passes exactly one of the two guards. */
  lemma ExactlyOneGuardPasses(session: Option<Session>)
    ensures RequireAuth(session).Next? != RequireGuest(session).Next?
    ensures RequireAuth(session).Reject? == RequireGuest(session).Next?
  {
  }

  /** The fields `addUserInfo` writes on the request object. */
  class Request {
    const session: Option<Session>
    var isAuthenticated: bool
    var userId: Option<string>

    constructor (session: Option<Session>)
      ensures this.session == session && !isAuthenticated && userId.None?
    {
      this.session := session;
      isAuthenticated := false;
      userId := None;
    }
  }

  /** `addUserInfo`: record whether `requireAuth` would pass and the session's
      user id (null without a session), then always call `next()`. */
  method AddUserInfo(req: Request) returns (next: bool)
    modifies req
    ensures next
    ensures req.isAuthenticated == RequireAuth(req.session).Next?
    ensures req.session.None? ==> req.userId.None?
    ensures req.session.Some? ==> req.userId == req.session.value.userId
  {
    req.isAuthenticated := SignedIn(req.session);
    req.userId := if req.session.Some? then req.session.value.userId else None;
    next := true;
  }
}
