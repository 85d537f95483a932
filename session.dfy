/** What a browser experiences across requests: a login response's cookie presented
    afterwards to the access gate and to `GET /api/auth/me`. These lemmas connect the
    handlers and the gate; they assume only that jsonwebtoken reads back what it signed
    and that the store answers its queries honestly. */
module Session {
  import opened Wrappers
  import opened Auth
  import opened Http
  import opened Middleware
  import StudentRoute
  import AdminRoute
  import MeRoute

  /** After a successful student login, the cookie opens every `/dashboard…` path and
      is turned away from every `/admin…` path to the student dashboard. */
  lemma StudentSessionStaysInStudentArea(c: StudentRoute.Credentials, nodeEnv: Option<string>, o: Oracles, pathname: string)
    requires StudentRoute.Post(Returned(c), nodeEnv, o).status == 200
    requires StoreAnswers(o, StudentQuery(c.registerNumber.value))
    requires CodecReadsBack(o, ClaimsOf(Found(o, StudentQuery(c.registerNumber.value)).value))
    ensures
      var token := StudentRoute.Post(Returned(c), nodeEnv, o).cookie.value.value;
      && (StudentPrefix <= pathname ==> Gate(pathname, Some(token), o.verify) == Next)
      && (AdminPrefix <= pathname ==> Gate(pathname, Some(token), o.verify) == Redirect(StudentHome))
  {
    var token := StudentRoute.Post(Returned(c), nodeEnv, o).cookie.value.value;
    StudentClaimsAreStudent(c.registerNumber.value, c.password.value, o);
    if StudentPrefix <= pathname {
      GuardedPassIffRole(pathname, Some(token), o.verify);
    }
    if AdminPrefix <= pathname {
      AdminAreaRejectsOtherRoles(pathname, token, o.verify);
    }
  }

  /** After a successful admin login, the cookie opens every `/admin…` path and is
      turned away from every `/dashboard…` path to the admin dashboard. */
  lemma AdminSessionStaysInAdminArea(b: AdminRoute.PasskeyBody, adminPasskey: Option<string>, nodeEnv: Option<string>,
                                     o: Oracles, pathname: string)
    requires AdminRoute.Post(Returned(b), adminPasskey, nodeEnv, o).status == 200
    requires StoreAnswers(o, AdminQuery())
    requires CodecReadsBack(o, ClaimsOf(Found(o, AdminQuery()).value))
    ensures
      var token := AdminRoute.Post(Returned(b), adminPasskey, nodeEnv, o).cookie.value.value;
      && (AdminPrefix <= pathname ==> Gate(pathname, Some(token), o.verify) == Next)
      && (StudentPrefix <= pathname ==> Gate(pathname, Some(token), o.verify) == Redirect(AdminHome))
  {
    var token := AdminRoute.Post(Returned(b), adminPasskey, nodeEnv, o).cookie.value.value;
    AdminClaimsAreAdmin(b.passkey.value, adminPasskey, o);
    if AdminPrefix <= pathname {
      GuardedPassIffRole(pathname, Some(token), o.verify);
    }
    if StudentPrefix <= pathname {
      StudentAreaRejectsOtherRoles(pathname, token, o.verify);
    }
  }

  /** Logging in as admin with the configured passkey and then asking `/api/auth/me`
      with the cookie returns the admin user the login returned, provided the store
      still holds that row under its id. */
  lemma AdminLoginThenMe(passkey: string, nodeEnv: Option<string>, o: Oracles)
    requires passkey != ""
    requires Found(o, AdminQuery()).Some?
    requires o.sign(ClaimsOf(Found(o, AdminQuery()).value), TokenExpiresIn).Returned?
    requires CodecReadsBack(o, ClaimsOf(Found(o, AdminQuery()).value))
    requires o.lookup(IdQuery(Some(Found(o, AdminQuery()).value.id))) == Returned(Some(Found(o, AdminQuery()).value))
    ensures
      var login := AdminRoute.Post(Returned(AdminRoute.PasskeyBody(Some(passkey))), Some(passkey), nodeEnv, o);
      && login.status == 200
      && MeRoute.Get(Some(login.cookie.value.value), o) == Response(200, login.body, None)
  {
    AdminRoute.RightPasskeyLogsInAdmin(passkey, nodeEnv, o);
  }

  /** A wrong passkey gets 401 and no cookie, so a later `/api/auth/me` without a
      cookie is 401 "No token provided". */
  lemma WrongPasskeyLeavesNoSession(passkey: string, adminPasskey: Option<string>, nodeEnv: Option<string>, o: Oracles)
    requires passkey != "" && adminPasskey != Some(passkey)
    ensures
      var login := AdminRoute.Post(Returned(AdminRoute.PasskeyBody(Some(passkey))), adminPasskey, nodeEnv, o);
      && login.status == 401 && login.cookie.None?
      && MeRoute.Get(None, o).status == 401
  {
    AdminRoute.WrongPasskeyIsRefused(passkey, adminPasskey, nodeEnv, o);
  }
}
