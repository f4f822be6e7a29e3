/**
 * The access gate: `verifyToken` followed, on role-gated routes, by
 * `verifyAdmin` or `verifySeller`. Signature checking of the session cookie
 * is not modelled; a `Credential` is what that check concluded.
 */
module Access {
  import opened Wrappers
  import opened Records
  import opened Api

  /** The `token` cookie: absent, failing verification, or carrying an email. */
  datatype Credential = Missing | Rejected | Signed(email: Email)

  /** What a route demands beyond a valid token. */
  datatype Requirement = SignedIn | RoleIs(role: string)

  const Denied401 := Reply(Unauthorized, Message(UNAUTHORIZED_TEXT))
  const Denied403 := Reply(Forbidden, Message(FORBIDDEN_TEXT))

  /** `verifyToken`: 401 unless the cookie is present and verifies. */
  function Authenticate(cred: Credential): (r: Result<Email, Response>)
    ensures r.Success? <==> cred.Signed?
    ensures r.Success? ==> r.value == cred.email
    ensures r.Failure? ==> r.error.Reply? && r.error.status.Code() == 401
  {
    match cred
    case Signed(email) => Success(email)
    case _ => Failure(Denied401)
  }

  /** `verifyAdmin` / `verifySeller`: the stored user must exist and hold `role`. */
  predicate HoldsRole(users: seq<User>, email: Email, role: string) {
    match FindUser(users, email)
    case None => false
    case Some(u) => u.role == role
  }

  /** The middleware chain of a route: identity first, then the role. */
  function Gate(users: seq<User>, cred: Credential, need: Requirement): (r: Result<Email, Response>)
    ensures !cred.Signed? ==> r == Failure(Denied401)
    ensures cred.Signed? && need.SignedIn? ==> r == Success(cred.email)
    ensures cred.Signed? && need.RoleIs? ==>
      r == (if HoldsRole(users, cred.email, need.role) then Success(cred.email) else Failure(Denied403))
    ensures r.Failure? ==> r.error.Reply? && r.error.status.Code() in {401, 403}
  {
    match Authenticate(cred)
    case Failure(denied) => Failure(denied)
    case Success(email) =>
      match need
      case SignedIn => Success(email)
      case RoleIs(role) =>
        if HoldsRole(users, email, role) then Success(email) else Failure(Denied403)
  }

  /** A user with no stored record is refused every role-gated route. */
  lemma UnknownUserForbidden(users: seq<User>, email: Email, role: string)
    requires forall i :: 0 <= i < |users| ==> users[i].email != email
    ensures Gate(users, Signed(email), RoleIs(role)) == Failure(Denied403)
  {
  }

  /**
   * With unique emails, a signed-in caller passes a role gate exactly when some
   * stored user with the caller's email has that role.
   */
  lemma {:induction false} GateByStoredRole(users: seq<User>, email: Email, role: string)
    requires UniqueEmails(users)
    ensures Gate(users, Signed(email), RoleIs(role)).Success? <==>
      exists i :: 0 <= i < |users| && users[i].email == email && users[i].role == role
  {
    if exists i :: 0 <= i < |users| && users[i].email == email && users[i].role == role {
      var i :| 0 <= i < |users| && users[i].email == email && users[i].role == role;
      FindUserUnique(users, i);
    } else if FindUser(users, email).Some? {
      var u := FindUser(users, email).value;
      var i :| 0 <= i < |users| && users[i] == u;
      assert users[i].role != role;
    }
  }

  /** A Customer never gets past the Admin or Seller gate. */
  lemma CustomerIsForbidden(users: seq<User>, email: Email, role: string)
    requires FindUser(users, email).Some? && FindUser(users, email).value.role == CUSTOMER
    requires role == ADMIN || role == SELLER
    ensures Gate(users, Signed(email), RoleIs(role)) == Failure(Denied403)
  {
  }
}
