/** `POST /api/auth/admin` (src/app/api/auth/admin/route.ts): admin login over HTTP. */
module AdminRoute {
  import opened Wrappers
  import opened Js
  import opened Auth
  import opened Http

  /** The JSON body `{passkey}`; an absent field is `None`. */
  datatype PasskeyBody = PasskeyBody(passkey: Option<string>)

  const MissingPasskey: string := "Admin passkey is required"

  /** The handler. `body` is what `request.json()` produced (`Threw` for a body that
      is not JSON); `adminPasskey` is ADMIN_PASSKEY and `nodeEnv` NODE_ENV. */
  function Post(body: Fallible<PasskeyBody>, adminPasskey: Option<string>, nodeEnv: Option<string>, o: Oracles): (r: Response)
    ensures r.status == 500 <==> body.Threw?
    ensures r.status == 500 ==> r == Error(500, Some(InternalError))
    ensures r.status == 400 <==> body.Returned? && !Truthy(body.value.passkey)
    ensures r.status == 400 ==> r == Error(400, Some(MissingPasskey))
    ensures r.status in {200, 400, 401, 500}
    ensures r.cookie.Some? <==> r.status == 200
    ensures body.Returned? && Truthy(body.value.passkey) ==>
      var auth := AuthenticateAdmin(body.value.passkey.value, adminPasskey, o);
      && (r.status == 401 <==> !auth.success)
      && (r.status == 401 ==> r == Error(401, auth.error))
      && (r.status == 200 ==>
            r.body == UserBody(auth.user)
            && r.cookie == Some(SessionCookie(auth.token.value, nodeEnv)))
  {
    match body
    case Threw => Error(500, Some(InternalError))
    case Returned(b) =>
      if !Truthy(b.passkey) then Error(400, Some(MissingPasskey))
      else
        var result := AuthenticateAdmin(b.passkey.value, adminPasskey, o);
        if !result.success then Error(401, result.error)
        else Response(200, UserBody(result.user), Some(SessionCookie(result.token.value, nodeEnv)))
  }

  /** A missing or empty passkey is refused without authenticating, whatever the
      configured passkey and whatever the store and signer would do. */
  lemma MissingPasskeySkipsAuthentication(b: PasskeyBody, k1: Option<string>, k2: Option<string>,
                                          nodeEnv: Option<string>, o1: Oracles, o2: Oracles)
    requires !Truthy(b.passkey)
    ensures Post(Returned(b), k1, nodeEnv, o1) == Post(Returned(b), k2, nodeEnv, o2)
    ensures Post(Returned(b), k1, nodeEnv, o1).status == 400
  {
  }

  /** A passkey other than the configured one (or any passkey when none is configured)
      gets 401 "Invalid admin passkey" and no cookie. */
  lemma WrongPasskeyIsRefused(passkey: string, adminPasskey: Option<string>, nodeEnv: Option<string>, o: Oracles)
    requires passkey != "" && adminPasskey != Some(passkey)
    ensures Post(Returned(PasskeyBody(Some(passkey))), adminPasskey, nodeEnv, o) == Error(401, Some(InvalidPasskey))
  {
  }

  /** With the configured passkey, the answer is 200 exactly when the admin row is
      found and signing succeeds; the body is that row's projection and the cookie
      carries the token signed for it. */
  lemma RightPasskeyLogsInAdmin(passkey: string, nodeEnv: Option<string>, o: Oracles)
    requires passkey != ""
    ensures
      var r := Post(Returned(PasskeyBody(Some(passkey))), Some(passkey), nodeEnv, o);
      var row := Found(o, AdminQuery());
      && (r.status == 200 <==> row.Some? && o.sign(ClaimsOf(row.value), TokenExpiresIn).Returned?)
      && (r.status == 200 ==>
            r.body == UserBody(Some(ToUser(row.value)))
            && r.cookie == Some(SessionCookie(o.sign(ClaimsOf(row.value), TokenExpiresIn).value, nodeEnv)))
  {
  }
}
