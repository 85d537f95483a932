/** `POST /api/auth/student` (src/app/api/auth/student/route.ts): student login over HTTP. */
module StudentRoute {
  import opened Wrappers
  import opened Js
  import opened Auth
  import opened Http

  /** The JSON body `{registerNumber, password}`; a field that is absent is `None`. */
  datatype Credentials = Credentials(registerNumber: Option<string>, password: Option<string>)

  const MissingCredentials: string := "Registration number and password are required"

  /** Both fields are present and non-empty (`registerNumber && password`). */
  predicate Complete(c: Credentials) {
    Truthy(c.registerNumber) && Truthy(c.password)
  }

  /** The handler. `body` is what `request.json()` produced (`Threw` for a body that
      is not JSON); `nodeEnv` is NODE_ENV. */
  function Post(body: Fallible<Credentials>, nodeEnv: Option<string>, o: Oracles): (r: Response)
    ensures r.status == 500 <==> body.Threw?
    ensures r.status == 500 ==> r == Error(500, Some(InternalError))
    ensures r.status == 400 <==> body.Returned? && !Complete(body.value)
    ensures r.status == 400 ==> r == Error(400, Some(MissingCredentials))
    ensures r.status in {200, 400, 401, 500}
    ensures r.cookie.Some? <==> r.status == 200
    ensures body.Returned? && Complete(body.value) ==>
      var auth := AuthenticateStudent(body.value.registerNumber.value, body.value.password.value, o);
      && (r.status == 401 <==> !auth.success)
      && (r.status == 401 ==> r == Error(401, auth.error))
      && (r.status == 200 ==>
            r.body == UserBody(auth.user)
            && r.cookie == Some(SessionCookie(auth.token.value, nodeEnv)))
  {
    match body
    case Threw => Error(500, Some(InternalError))
    case Returned(c) =>
      if !Truthy(c.registerNumber) || !Truthy(c.password) then Error(400, Some(MissingCredentials))
      else
        var result := AuthenticateStudent(c.registerNumber.value, c.password.value, o);
        if !result.success then Error(401, result.error)
        else Response(200, UserBody(result.user), Some(SessionCookie(result.token.value, nodeEnv)))
  }

  /** Incomplete credentials are refused without authenticating: the store, bcrypt and
      the signer cannot influence the answer. */
  lemma IncompleteCredentialsSkipAuthentication(c: Credentials, nodeEnv: Option<string>, o1: Oracles, o2: Oracles)
    requires !Complete(c)
    ensures Post(Returned(c), nodeEnv, o1) == Post(Returned(c), nodeEnv, o2)
    ensures Post(Returned(c), nodeEnv, o1).status == 400
  {
  }

  /** A successful login answers with the public projection of the student row,
      which holds no password hash and no token, and sets the session cookie to the
      very token the signer issued for that row. */
  lemma SuccessCarriesProjectionAndToken(c: Credentials, nodeEnv: Option<string>, o: Oracles)
    requires Post(Returned(c), nodeEnv, o).status == 200
    ensures
      var row := Found(o, StudentQuery(c.registerNumber.value)).value;
      var r := Post(Returned(c), nodeEnv, o);
      && r.body == UserBody(Some(ToUser(row)))
      && o.sign(ClaimsOf(row), TokenExpiresIn) == Returned(r.cookie.value.value)
      && r.cookie.value.options.maxAge == Some(TokenLifetimeSeconds)
  {
  }

  /** A password bcrypt rejects is answered 401 "Invalid password", with no cookie. */
  lemma WrongPasswordIsRefused(c: Credentials, nodeEnv: Option<string>, o: Oracles)
    requires Complete(c)
    requires Found(o, StudentQuery(c.registerNumber.value)).Some?
    requires o.compare(c.password.value, Found(o, StudentQuery(c.registerNumber.value)).value.password) == Returned(false)
    ensures Post(Returned(c), nodeEnv, o) == Error(401, Some(InvalidPassword))
  {
    StudentFailureMessages(c.registerNumber.value, c.password.value, o);
  }
}
