/** `GET /api/auth/me` (src/app/api/auth/me/route.ts): who is logged in, read fresh
    from the store. */
module MeRoute {
  import opened Wrappers
  import opened Js
  import opened Auth
  import opened Http

  const NoToken: string := "No token provided"
  const InvalidToken: string := "Invalid token"
  const UserNotFound: string := "User not found"

  /** The store lookup the handler makes for a verified payload: by `payload.userId`. */
  function SessionQuery(payload: Payload): Query {
    IdQuery(payload.userId)
  }

  /** The handler. `cookie` is the `auth-token` cookie's value, `None` when absent. */
  function Get(cookie: Option<string>, o: Oracles): (r: Response)
    ensures r.status in {200, 401, 404, 500}
    ensures r.cookie.None?
    ensures r.status == 500 ==> r == Error(500, Some(InternalError))
    ensures !Truthy(cookie) <==> r == Error(401, Some(NoToken))
    ensures Truthy(cookie) ==>
      (r == Error(401, Some(InvalidToken)) <==> o.verify(cookie.value).Threw?)
    ensures Truthy(cookie) && o.verify(cookie.value).Returned? ==>
      var q := SessionQuery(o.verify(cookie.value).value);
      && (r.status == 500 <==> o.lookup(q).Threw?)
      && (r.status == 404 <==> o.lookup(q) == Returned(None))
      && (r.status == 404 ==> r == Error(404, Some(UserNotFound)))
      && (r.status == 200 <==> Found(o, q).Some?)
      && (r.status == 200 ==> r.body == UserBody(Some(ToUser(Found(o, q).value))))
  {
    if !Truthy(cookie) then Error(401, Some(NoToken))
    else
      var verification := VerifyToken(cookie.value, o.verify);
      if !verification.valid || verification.payload.None? then Error(401, Some(InvalidToken))
      else
        match o.lookup(SessionQuery(verification.payload.value))
        case Threw => Error(500, Some(InternalError))
        case Returned(None) => Error(404, Some(UserNotFound))
        case Returned(Some(user)) => Response(200, UserBody(Some(ToUser(user))), None)
  }

  /** The answer never depends on the password column of the row found: two stores
      that differ only in the password hash give the same response. */
  lemma AnswerIgnoresPasswordHash(cookie: Option<string>, o: Oracles, hash: string)
    requires Truthy(cookie) && o.verify(cookie.value).Returned?
    requires Found(o, SessionQuery(o.verify(cookie.value).value)).Some?
    ensures
      var q := SessionQuery(o.verify(cookie.value).value);
      var row := Found(o, q).value;
      var o' := o.(lookup := (q': Query) => if q' == q then Returned(Some(row.(password := hash))) else o.lookup(q'));
      Get(cookie, o) == Get(cookie, o')
  {
    var q := SessionQuery(o.verify(cookie.value).value);
    var row := Found(o, q).value;
    ToUserKeepsPublicColumnsOnly(row, row.(password := hash));
  }

  /** A payload without a `userId` claim looks up `id = undefined`, which no honest
      store matches, so the answer is not 200. */
  lemma MissingUserIdNeverSucceeds(cookie: Option<string>, o: Oracles)
    requires Truthy(cookie) && o.verify(cookie.value).Returned?
    requires o.verify(cookie.value).value.userId.None?
    requires StoreAnswers(o, SessionQuery(o.verify(cookie.value).value))
    ensures Get(cookie, o).status != 200
  {
    var q := SessionQuery(o.verify(cookie.value).value);
    assert Found(o, q).Some? ==> !Matches(Found(o, q).value, q);
  }
}
