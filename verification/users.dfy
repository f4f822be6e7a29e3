/**
 * The user lifecycle: first sign-in (POST /users/:email), the admin's user
 * list (GET /all-users/:email), the seller request (PATCH /users/:email) and
 * the admin's role change (PATCH /user/role/:email).
 */
module Users {
  import opened Wrappers
  import opened Collection
  import opened Records
  import opened Api
  import opened Access

  /** The record `insertOne` stores: the body's fields, role Customer, the time. */
  function NewUser(info: Profile, now: int): User {
    User(info.email, info.name, info.image, CUSTOMER, NoStatus, now)
  }

  /**
   * POST /users/:email. An existing record for the path's email is returned
   * untouched; otherwise the body is stored as a new Customer. The new
   * record's email is the body's, as the source spreads the body into it.
   */
  function CreateUser(s: Store, email: Email, info: Profile, now: int): (r: Step)
    ensures r.effects == [] && r.next.plants == s.plants && r.next.orders == s.orders
    ensures r.response.Reply? && r.response.status == Ok
    ensures FindUser(s.users, email).Some? ==>
      r.next == s && r.response == Reply(Ok, UserRecord(FindUser(s.users, email).value))
    ensures FindUser(s.users, email).None? ==>
      r.response == Reply(Ok, UserInserted) &&
      |r.next.users| == |s.users| + 1 && r.next.users[..|s.users|] == s.users &&
      r.next.users[|s.users|] == User(info.email, info.name, info.image, CUSTOMER, NoStatus, now)
  {
    match FindUser(s.users, email)
    case Some(existing) => Step(Reply(Ok, UserRecord(existing)), s, [])
    case None =>
      Step(Reply(Ok, UserInserted), s.(users := s.users + [NewUser(info, now)]), [])
  }

  /** Appending a user whose email was absent makes `findOne` find that user. */
  lemma FindAppended(users: seq<User>, u: User)
    requires FindUser(users, u.email).None?
    ensures FindUser(users + [u], u.email) == Some(u)
  {
    var all := users + [u];
    assert HasEmail(u.email)(all[|users|]);
  }

  /**
   * Signing in twice with the same email stores one record: the second call
   * answers with the record the first call left and changes nothing.
   */
  lemma CreateUserIdempotent(s: Store, email: Email, info: Profile, info2: Profile, t1: int, t2: int)
    requires info.email == email
    ensures var r1 := CreateUser(s, email, info, t1);
            var r2 := CreateUser(r1.next, email, info2, t2);
            r2.next == r1.next &&
            r2.response == Reply(Ok, UserRecord(FindUser(r1.next.users, email).value))
  {
    if FindUser(s.users, email).None? {
      FindAppended(s.users, NewUser(info, t1));
    }
  }

  /** First sign-in keeps emails unique when the body's email is the path's. */
  lemma CreateUserKeepsEmailsUnique(s: Store, email: Email, info: Profile, now: int)
    requires UniqueEmails(s.users) && info.email == email
    ensures UniqueEmails(CreateUser(s, email, info, now).next.users)
  {
  }

  /** A freshly created user is a Customer: every Admin or Seller route refuses them. */
  lemma NewUserIsNotPrivileged(s: Store, email: Email, info: Profile, now: int, role: string)
    requires FindUser(s.users, email).None? && info.email == email
    requires role == ADMIN || role == SELLER
    ensures Gate(CreateUser(s, email, info, now).next.users, Signed(email), RoleIs(role)) == Failure(Denied403)
  {
    FindAppended(s.users, NewUser(info, now));
  }

  /**
   * The lookup uses the path's email but the insert the body's: when they
   * differ, a second record for an already stored email can be created.
   */
  lemma CreateUserMismatchDuplicates()
    ensures var a := User("a@x.com", "A", "", CUSTOMER, NoStatus, 0);
            var s := Store([a], [], []);
            var r := CreateUser(s, "b@x.com", Profile("a@x.com", "A", ""), 1);
            |r.next.users| == 2 && !UniqueEmails(r.next.users)
  {
    var a := User("a@x.com", "A", "", CUSTOMER, NoStatus, 0);
    assert !HasEmail("b@x.com")(a);
  }

  function NotEmail(email: Email): User -> bool { (u: User) => u.email != email }

  /** GET /all-users/:email (Admin): every user except the one in the path. */
  function AllUsers(s: Store, cred: Credential, email: Email): (r: Step)
    ensures r.next == s && r.effects == []
    ensures Gate(s.users, cred, RoleIs(ADMIN)).Failure? ==>
      r.response == Gate(s.users, cred, RoleIs(ADMIN)).error
    ensures Gate(s.users, cred, RoleIs(ADMIN)).Success? ==>
      r.response.Reply? && r.response.status == Ok && r.response.body.UserList? &&
      var listed := r.response.body.users;
      |listed| <= |s.users| &&
      (forall i :: 0 <= i < |listed| ==> listed[i] in s.users && listed[i].email != email) &&
      (forall j :: 0 <= j < |s.users| && s.users[j].email != email ==> s.users[j] in listed) &&
      multiset(listed) <= multiset(s.users)
  {
    match Gate(s.users, cred, RoleIs(ADMIN))
    case Failure(denied) => Step(denied, s, [])
    case Success(_) =>
      FilterSubMultiset(s.users, NotEmail(email));
      Step(Reply(Ok, UserList(Filter(s.users, NotEmail(email)))), s, [])
  }

  /**
   * PATCH /users/:email. Any signed-in caller may ask for the path's user; the
   * request is refused with 400 when that user is missing or already asked.
   */
  function RequestSeller(s: Store, cred: Credential, email: Email): (r: Step)
    ensures r.effects == [] && r.next.plants == s.plants && r.next.orders == s.orders
    ensures r.response.Reply?
    ensures Gate(s.users, cred, SignedIn).Failure? ==> r.response.status == Unauthorized && r.next == s
    ensures cred.Signed? ==>
      (r.response.status == BadRequest <==>
        FindUser(s.users, email).None? || FindUser(s.users, email).value.status == Requested)
    ensures cred.Signed? && r.response.status == BadRequest ==> r.next == s
    ensures cred.Signed? && r.response.status != BadRequest ==>
      r.response == Reply(Ok, UpdateResult(1)) &&
      |r.next.users| == |s.users| &&
      var i := FindFirst(s.users, HasEmail(email)).value;
      s.users[i].email == email &&
      r.next.users == s.users[i := s.users[i].(status := Requested)]
  {
    match Gate(s.users, cred, SignedIn)
    case Failure(denied) => Step(denied, s, [])
    case Success(_) =>
      match FindFirst(s.users, HasEmail(email))
      case None => Step(Reply(BadRequest, Message(ALREADY_REQUESTED_TEXT)), s, [])
      case Some(i) =>
        if s.users[i].status == Requested then
          Step(Reply(BadRequest, Message(ALREADY_REQUESTED_TEXT)), s, [])
        else
          var users := s.users[i := s.users[i].(status := Requested)];
          Step(Reply(Ok, UpdateResult(1)), s.(users := users), [])
  }

  /** Marking the first match of an email keeps it the first match. */
  lemma FindAfterUpdate(users: seq<User>, email: Email, u: User)
    requires FindFirst(users, HasEmail(email)).Some?
    requires u.email == email
    ensures var i := FindFirst(users, HasEmail(email)).value;
            FindUser(users[i := u], email) == Some(u)
  {
    var i := FindFirst(users, HasEmail(email)).value;
    var after := users[i := u];
    assert HasEmail(email)(after[i]);
  }

  /** A second seller request for the same user is refused and changes nothing. */
  lemma SecondRequestRejected(s: Store, cred: Credential, email: Email)
    requires cred.Signed?
    requires RequestSeller(s, cred, email).response.status == Ok
    ensures var s1 := RequestSeller(s, cred, email).next;
            RequestSeller(s1, cred, email) == Step(Reply(BadRequest, Message(ALREADY_REQUESTED_TEXT)), s1, [])
  {
    var i := FindFirst(s.users, HasEmail(email)).value;
    FindAfterUpdate(s.users, email, s.users[i].(status := Requested));
  }

  /**
   * PATCH /user/role/:email (Admin): the first user with that email gets the
   * role from the body and status verified; no match updates nothing.
   */
  function UpdateRole(s: Store, cred: Credential, email: Email, role: string): (r: Step)
    ensures r.effects == [] && r.next.plants == s.plants && r.next.orders == s.orders
    ensures Gate(s.users, cred, RoleIs(ADMIN)).Failure? ==>
      r.response == Gate(s.users, cred, RoleIs(ADMIN)).error && r.next == s
    ensures Gate(s.users, cred, RoleIs(ADMIN)).Success? && FindUser(s.users, email).None? ==>
      r.response == Reply(Ok, UpdateResult(0)) && r.next == s
    ensures Gate(s.users, cred, RoleIs(ADMIN)).Success? && FindUser(s.users, email).Some? ==>
      r.response == Reply(Ok, UpdateResult(1)) &&
      |r.next.users| == |s.users| &&
      var i := FindFirst(s.users, HasEmail(email)).value;
      s.users[i].email == email &&
      r.next.users == s.users[i := s.users[i].(role := role, status := Verified)]
  {
    match Gate(s.users, cred, RoleIs(ADMIN))
    case Failure(denied) => Step(denied, s, [])
    case Success(_) =>
      match FindFirst(s.users, HasEmail(email))
      case None => Step(Reply(Ok, UpdateResult(0)), s, [])
      case Some(i) =>
        var users := s.users[i := s.users[i].(role := role, status := Verified)];
        Step(Reply(Ok, UpdateResult(1)), s.(users := users), [])
  }

  /** After an admin gives a stored user a role, that user passes the gate for that role. */
  lemma PromotedUserPassesGate(s: Store, cred: Credential, email: Email, role: string)
    requires Gate(s.users, cred, RoleIs(ADMIN)).Success?
    requires FindUser(s.users, email).Some?
    ensures var s1 := UpdateRole(s, cred, email, role).next;
            Gate(s1.users, Signed(email), RoleIs(role)) == Success(email)
  {
    var i := FindFirst(s.users, HasEmail(email)).value;
    FindAfterUpdate(s.users, email, s.users[i].(role := role, status := Verified));
  }

  /** The seller request keeps emails unique. */
  lemma RequestSellerKeepsEmailsUnique(s: Store, cred: Credential, email: Email)
    requires UniqueEmails(s.users)
    ensures UniqueEmails(RequestSeller(s, cred, email).next.users)
  {
  }

  /** The role change keeps emails unique. */
  lemma UpdateRoleKeepsEmailsUnique(s: Store, cred: Credential, email: Email, role: string)
    requires UniqueEmails(s.users)
    ensures UniqueEmails(UpdateRole(s, cred, email, role).next.users)
  {
  }
}
