/** The authentication middlewares (Backend/middlewares/auth.js): one guard
    per role, each reading only its own cookie, and the combined guard in
    front of appointment deletion that accepts a patient or an admin,
    trying the patient cookie first. Token verification is a parameter:
    `verify(token)` is the id the token carries, or the error
    `jwt.verify` throws. */
module Auth {
  import opened Common
  import opened ErrorMiddleware
  import opened UserSchema

  /** The request's cookies; "" for a cookie that is absent. */
  datatype Cookies = Cookies(adminToken: string, patientToken: string, doctorToken: string)

  /** The outcome of `jwt.verify` on a token. */
  datatype Verification = Verified(id: Id) | Malformed | Expired

  /** A guard either lets the request through with `req.user` set, or ends
      it with the reply of the error middleware. */
  datatype GuardResult = Pass(user: User) | Deny(reply: Reply)

  /** `User.findById(id)`. */
  function FindUser(users: seq<User>, id: Id): (r: Option<User>)
    ensures r.Some? ==> r.value in users && r.value.id == id
    ensures r.None? ==> forall u :: u in users ==> u.id != id
  {
    if users == [] then None
    else if users[0].id == id then Some(users[0])
    else FindUser(users[1..], id)
  }

  /** The cookie each single-role guard reads. */
  function CookieFor(role: Role, c: Cookies): string {
    match role
    case Admin => c.adminToken
    case Patient => c.patientToken
    case Doctor => c.doctorToken
  }

  /** The error `jwt.verify` throws for a bad token. */
  function TokenError(v: Verification): AppError
    requires !v.Verified?
  {
    if v.Expired? then AppError("TokenExpiredError", "jwt expired", 0, 0, [], "", None)
    else AppError("JsonWebTokenError", "jwt malformed", 0, 0, [], "", None)
  }

  /** The `TypeError` of reading `req.user.role` when no user has the
      token's id. */
  const MissingUserError: AppError :=
    AppError("TypeError", "Cannot read properties of null (reading 'role')", 0, 0, [], "", None)

  /** `isAdminAuthenticated`, `isPatientAuthenticated` and
      `isDoctorAuthenticated`. */
  function Guard(role: Role, cookies: Cookies, verify: string -> Verification, users: seq<User>): (r: GuardResult)
    ensures CookieFor(role, cookies) == "" ==>
      r == Deny(Failure(400, "Not Authenticated " + RoleName(role)))
    ensures r.Pass? <==>
      CookieFor(role, cookies) != "" && verify(CookieFor(role, cookies)).Verified?
      && FindUser(users, verify(CookieFor(role, cookies)).id).Some?
      && FindUser(users, verify(CookieFor(role, cookies)).id).value.role == role
    ensures r.Pass? ==>
      (r.user in users && r.user.role == role && r.user.id == verify(CookieFor(role, cookies)).id)
  {
    var token := CookieFor(role, cookies);
    if token == "" then Deny(Reject("Not Authenticated " + RoleName(role), 400))
    else match verify(token)
      case Verified(id) =>
        (match FindUser(users, id)
         case None => Deny(Normalize(MissingUserError))
         case Some(u) =>
           if u.role != role then Deny(Reject(RoleName(u.role) + " is not authorized for this resource!", 403))
           else Pass(u))
      case _ => Deny(Normalize(TokenError(verify(token))))
  }

  /** A guard's decision depends on its own cookie only. */
  lemma GuardReadsOwnCookie(role: Role, c1: Cookies, c2: Cookies, verify: string -> Verification, users: seq<User>)
    requires CookieFor(role, c1) == CookieFor(role, c2)
    ensures Guard(role, c1, verify, users) == Guard(role, c2, verify, users)
  {
  }

  /** The status codes of a single-role guard: 400 for a missing cookie or
      a bad token, 403 for a user of another role, 500 when the token names
      no user. */
  lemma GuardStatusCodes(role: Role, cookies: Cookies, verify: string -> Verification, users: seq<User>)
    requires CookieFor(role, cookies) != ""
    ensures var token := CookieFor(role, cookies);
      var r := Guard(role, cookies, verify, users);
      && (!verify(token).Verified? ==> r.Deny? && r.reply.status == 400)
      && (verify(token).Verified? && FindUser(users, verify(token).id).None? ==> r.Deny? && r.reply.status == 500)
      && (verify(token).Verified? && FindUser(users, verify(token).id).Some?
          && FindUser(users, verify(token).id).value.role != role ==>
            r == Deny(Failure(403, RoleName(FindUser(users, verify(token).id).value.role)
                                  + " is not authorized for this resource!")))
  {
    var token := CookieFor(role, cookies);
    if !verify(token).Verified? {
      NormalizeCases(TokenError(verify(token)));
    } else if FindUser(users, verify(token).id).None? {
      NormalizeCases(MissingUserError);
    }
  }

  /** One token of the combined guard: what `jwt.verify` and `findById`
      give for it. */
  datatype Attempt = Threw | Loaded(user: Option<User>)

  function TryToken(token: string, verify: string -> Verification, users: seq<User>): Attempt
    requires token != ""
  {
    match verify(token)
    case Verified(id) => Loaded(FindUser(users, id))
    case _ => Threw
  }

  predicate LoadsRole(a: Attempt, role: Role) {
    a.Loaded? && a.user.Some? && a.user.value.role == role
  }

  /** `isAuthenticated`: a patient or an admin. */
  function PatientOrAdmin(cookies: Cookies, verify: string -> Verification, users: seq<User>): (r: GuardResult)
    ensures cookies.patientToken == "" && cookies.adminToken == "" ==>
      r == Deny(Failure(401, "Not Authenticated"))
    ensures r.Pass? ==> r.user in users && (r.user.role == Patient || r.user.role == Admin)
    ensures r.Deny? ==> r.reply.Failure? && r.reply.status in {401, 403}
  {
    var patientToken := cookies.patientToken;
    var adminToken := cookies.adminToken;
    if patientToken == "" && adminToken == "" then Deny(Reject("Not Authenticated", 401))
    else
      var p := if patientToken != "" then TryToken(patientToken, verify, users) else Loaded(None);
      if p.Threw? then Deny(Reject("Authentication failed", 401))
      else if LoadsRole(p, Patient) then Pass(p.user.value)
      else
        var a := if adminToken != "" then TryToken(adminToken, verify, users) else Loaded(None);
        if a.Threw? then Deny(Reject("Authentication failed", 401))
        else if LoadsRole(a, Admin) then Pass(a.user.value)
        else Deny(Reject("Not authorized", 403))
  }

  /** The patient cookie is tried first: when it names a patient the admin
      cookie is not consulted. */
  lemma PatientCookieFirst(cookies: Cookies, verify: string -> Verification, users: seq<User>)
    requires cookies.patientToken != ""
    requires LoadsRole(TryToken(cookies.patientToken, verify, users), Patient)
    ensures PatientOrAdmin(cookies, verify, users) ==
      Pass(TryToken(cookies.patientToken, verify, users).user.value)
    ensures forall admin: string ::
      PatientOrAdmin(cookies.(adminToken := admin), verify, users) == PatientOrAdmin(cookies, verify, users)
  {
  }

  /** A patient cookie that fails verification ends the request with 401,
      even when the admin cookie would have let it through. */
  lemma BadPatientTokenIs401(cookies: Cookies, verify: string -> Verification, users: seq<User>)
    requires cookies.patientToken != "" && !verify(cookies.patientToken).Verified?
    ensures PatientOrAdmin(cookies, verify, users) == Deny(Failure(401, "Authentication failed"))
  {
  }

  /** The combined guard lets a request through exactly when one of its
      cookies names a user of the matching role and the patient cookie, if
      present, did not throw. */
  lemma PatientOrAdminPasses(cookies: Cookies, verify: string -> Verification, users: seq<User>)
    ensures PatientOrAdmin(cookies, verify, users).Pass? <==>
      (cookies.patientToken != "" && LoadsRole(TryToken(cookies.patientToken, verify, users), Patient))
      || ((cookies.patientToken == "" || TryToken(cookies.patientToken, verify, users).Loaded?)
          && cookies.adminToken != "" && LoadsRole(TryToken(cookies.adminToken, verify, users), Admin))
  {
  }
}
