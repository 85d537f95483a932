/** The access gate of middleware.ts: a function of the request path, the
    `auth-token` cookie and jsonwebtoken's verdict on it. */
module Middleware {
  import opened Wrappers
  import opened Js
  import opened Auth
  import opened Http

  /** What the gate does with a request: let it through, redirect it, or redirect
      it while overwriting the session cookie. */
  datatype Decision =
    | Next
    | Redirect(location: string)
    | RedirectClearing(location: string, cookie: SetCookie)

  /** The landing page, where unauthenticated requests are sent. */
  const Landing: string := "/"
  const StudentHome: string := "/dashboard"
  const AdminHome: string := "/admin/dashboard"
  const StudentPrefix: string := "/dashboard"
  const AdminPrefix: string := "/admin"

  /** Paths that never need a session. */
  const PublicRoutes: seq<string> := ["/", "/api/auth/student", "/api/auth/admin"]

  /** `verification.payload?.role` */
  function RoleClaim(v: Verification): Option<string> {
    if v.payload.Some? then v.payload.value.role else None
  }

  /** The gate, branch for branch as middleware.ts writes it. `token` is the cookie's
      value (`None` when there is no cookie); `verify` is `jwt.verify`. */
  function Gate(pathname: string, token: Option<string>, verify: string -> Fallible<Payload>): (d: Decision)
    ensures d.RedirectClearing? ==> d == RedirectClearing(Landing, ClearedCookie())
    ensures d.Redirect? ==> d.location in {Landing, StudentHome, AdminHome}
  {
    if Includes(PublicRoutes, pathname) then Next
    else if StartsWith(pathname, StudentPrefix) || StartsWith(pathname, AdminPrefix) then
      if !Truthy(token) then Redirect(Landing)
      else
        var verification := VerifyToken(token.value, verify);
        if !verification.valid then RedirectClearing(Landing, ClearedCookie())
        else if StartsWith(pathname, AdminPrefix) && RoleClaim(verification) != Some(AdminRole) then
          Redirect(StudentHome)
        else if StartsWith(pathname, StudentPrefix) && !StartsWith(pathname, AdminPrefix)
                && RoleClaim(verification) != Some(StudentRole) then
          Redirect(AdminHome)
        else Next
    else Next
  }

  // ---------------------------------------------------------------------------
  // The policy the gate implements, stated independently

  /** The four kinds of path, by exact membership and by raw string prefix. */
  datatype Area = Public | AdminArea | StudentArea | Unguarded

  function Classify(pathname: string): Area {
    if pathname in PublicRoutes then Public
    else if AdminPrefix <= pathname then AdminArea
    else if StudentPrefix <= pathname then StudentArea
    else Unguarded
  }

  /** Public and unguarded paths pass; a guarded path needs a non-empty cookie
      (else home), a token that verifies (else home with the cookie cleared), and the
      area's role in the token (else the other role's home). */
  function Policy(area: Area, token: Option<string>, verify: string -> Fallible<Payload>): Decision {
    match area
    case Public => Next
    case Unguarded => Next
    case _ =>
      if token.None? || token.value == "" then Redirect(Landing)
      else
        match verify(token.value)
        case Threw => RedirectClearing(Landing, ClearedCookie())
        case Returned(payload) =>
          if area == AdminArea then
            if payload.role == Some(AdminRole) then Next else Redirect(StudentHome)
          else
            if payload.role == Some(StudentRole) then Next else Redirect(AdminHome)
  }

  /** The two guarded prefixes exclude each other, so the `!startsWith('/admin')`
      test on the student branch never changes the outcome. */
  lemma {:induction false} PrefixesDisjoint(pathname: string)
    ensures !(StartsWith(pathname, AdminPrefix) && StartsWith(pathname, StudentPrefix))
  {
    StartsWithIsPrefix(pathname, AdminPrefix);
    StartsWithIsPrefix(pathname, StudentPrefix);
    if AdminPrefix <= pathname {
      assert pathname[1] == AdminPrefix[1] != StudentPrefix[1];
    }
  }

  /** The gate as written is the policy applied to the path's class. */
  lemma {:induction false} GateFollowsPolicy(pathname: string, token: Option<string>, verify: string -> Fallible<Payload>)
    ensures Gate(pathname, token, verify) == Policy(Classify(pathname), token, verify)
  {
    IncludesIsMembership(PublicRoutes, pathname);
    StartsWithIsPrefix(pathname, AdminPrefix);
    StartsWithIsPrefix(pathname, StudentPrefix);
    PrefixesDisjoint(pathname);
  }

  /** No public route lies under a guarded prefix. */
  lemma GuardedPathsAreNotPublic(pathname: string)
    ensures AdminPrefix <= pathname || StudentPrefix <= pathname ==> pathname !in PublicRoutes
  {
    if AdminPrefix <= pathname {
      assert |pathname| >= 3 && pathname[2] == AdminPrefix[2] == 'd';
    }
    if StudentPrefix <= pathname {
      assert |pathname| >= 2 && pathname[1] == StudentPrefix[1] == 'd';
    }
  }

  // ---------------------------------------------------------------------------
  // Properties of the gate

  /** `/`, `/api/auth/student` and `/api/auth/admin` pass whatever the cookie. */
  lemma PublicRoutesPass(pathname: string, token: Option<string>, verify: string -> Fallible<Payload>)
    requires pathname in PublicRoutes
    ensures Gate(pathname, token, verify) == Next
  {
    GateFollowsPolicy(pathname, token, verify);
  }

  /** A path outside the public list and both guarded prefixes passes without the
      cookie or the verifier being looked at. */
  lemma UnguardedPathsPass(pathname: string, token: Option<string>, verify: string -> Fallible<Payload>)
    requires !(StudentPrefix <= pathname) && !(AdminPrefix <= pathname)
    ensures Gate(pathname, token, verify) == Next
  {
    GateFollowsPolicy(pathname, token, verify);
  }

  /** A guarded path without a (non-empty) cookie goes home and the cookie is left alone. */
  lemma MissingTokenRedirectsHome(pathname: string, token: Option<string>, verify: string -> Fallible<Payload>)
    requires StudentPrefix <= pathname || AdminPrefix <= pathname
    requires token.None? || token.value == ""
    ensures Gate(pathname, token, verify) == Redirect(Landing)
  {
    GuardedPathsAreNotPublic(pathname);
    GateFollowsPolicy(pathname, token, verify);
  }

  /** Clearing the cookie happens exactly when a guarded path carries a token that
      fails verification. */
  lemma OnlyRejectedTokensAreCleared(pathname: string, token: Option<string>, verify: string -> Fallible<Payload>)
    ensures Gate(pathname, token, verify).RedirectClearing? <==>
      Classify(pathname) in {AdminArea, StudentArea} && Truthy(token) && verify(token.value) == Threw
  {
    GateFollowsPolicy(pathname, token, verify);
  }

  /** An `/admin…` path with a verified token whose role is not "admin" is sent to the
      student dashboard. */
  lemma AdminAreaRejectsOtherRoles(pathname: string, token: string, verify: string -> Fallible<Payload>)
    requires AdminPrefix <= pathname && token != ""
    requires verify(token).Returned? && verify(token).value.role != Some(AdminRole)
    ensures Gate(pathname, Some(token), verify) == Redirect(StudentHome)
  {
    GuardedPathsAreNotPublic(pathname);
    GateFollowsPolicy(pathname, Some(token), verify);
  }

  /** A `/dashboard…` path with a verified token whose role is not "student" is sent to
      the admin dashboard. */
  lemma StudentAreaRejectsOtherRoles(pathname: string, token: string, verify: string -> Fallible<Payload>)
    requires StudentPrefix <= pathname && token != ""
    requires verify(token).Returned? && verify(token).value.role != Some(StudentRole)
    ensures Gate(pathname, Some(token), verify) == Redirect(AdminHome)
  {
    GuardedPathsAreNotPublic(pathname);
    GateFollowsPolicy(pathname, Some(token), verify);
  }

  /** Soundness and completeness on guarded paths: the request passes exactly when a
      non-empty token verifies and carries the area's role; any other role never passes. */
  lemma GuardedPassIffRole(pathname: string, token: Option<string>, verify: string -> Fallible<Payload>)
    requires StudentPrefix <= pathname || AdminPrefix <= pathname
    ensures Gate(pathname, token, verify) == Next <==>
      Truthy(token) && verify(token.value).Returned?
      && verify(token.value).value.role == Some(if AdminPrefix <= pathname then AdminRole else StudentRole)
  {
    GuardedPathsAreNotPublic(pathname);
    GateFollowsPolicy(pathname, token, verify);
  }

  /** Classification is by raw prefix: `/administrator` is guarded as admin ground and
      `/dashboards` as student ground. */
  lemma RawPrefixClassification()
    ensures Classify("/administrator") == AdminArea
    ensures Classify("/dashboards") == StudentArea
    ensures Classify("/admin/dashboard") == AdminArea
    ensures Classify("/api/auth/me") == Unguarded
  {
    assert "/administrator" !in PublicRoutes && AdminPrefix <= "/administrator";
    assert "/dashboards"[1] != AdminPrefix[1];
    assert "/dashboards" !in PublicRoutes && StudentPrefix <= "/dashboards";
    assert "/admin/dashboard" !in PublicRoutes && AdminPrefix <= "/admin/dashboard";
    assert "/api/auth/me"[2] != AdminPrefix[2] && "/api/auth/me"[1] != StudentPrefix[1];
    assert "/api/auth/me" !in PublicRoutes;
  }
}
