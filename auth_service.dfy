/** AuthService: signing in with email and password, and registering a new
    account. The password hasher is passed in: `passwordHash` is what
    HashPassword produced for the new account, and `verify` stands for
    VerifyHashedPassword (stored hash, offered password). */
module AuthService {
  import opened Common
  import opened DateTimes
  import opened Entities
  import opened Dtos
  import opened Data
  import opened MethodResults

  const AccountMissing: string := "Account does not exist."
  const InvalidCredentials: string := "Invalid credentials."
  const EmailRegistered: string := "Email is already registered."

  datatype PasswordVerificationResult = Failed | Success | SuccessRehashNeeded

  // ---------------------------------------------------------------------
  // LoginAsync
  // ---------------------------------------------------------------------

  /** `FirstOrDefaultAsync(u => u.Email == email)`: the first user with the
      email; a null email matches nobody, since every stored email is set. */
  function FindByEmail(users: seq<User>, email: Option<string>): (r: Option<User>)
    ensures r.Some? ==> r.value in users && email == Some(r.value.email)
    ensures r.None? <==> email.None? || forall u :: u in users ==> u.email != email.value
  {
    match email
    case None => None
    case Some(e) => FindFirst(users, (u: User) => u.email == e)
  }

  /** LoginAsync: the account with the email must exist, and the password
      must verify as Success exactly (a hash that needs rehashing is
      refused too); the signed-in user carries the account's id, name and
      role. */
  function Login(users: seq<User>, model: LoginModel, verify: (string, string) -> PasswordVerificationResult)
    : (r: MethodResultOf<LoggedinUser>)
    ensures r == MethodResultOf.Fail(AccountMissing) <==> FindByEmail(users, model.email).None?
    ensures r.isSuccess ==>
      exists u :: u in users && Some(u.email) == model.email && verify(u.passwordHash, model.password) == Success
                  && r.data == Some(LoggedinUser(u.id, u.name, u.role))
    ensures !r.isSuccess ==> r == MethodResultOf.Fail(AccountMissing) || r == MethodResultOf.Fail(InvalidCredentials)
  {
    match FindByEmail(users, model.email)
    case None => MethodResultOf.Fail(AccountMissing)
    case Some(u) =>
      if verify(u.passwordHash, model.password) != Success then MethodResultOf.Fail(InvalidCredentials)
      else MethodResultOf.Ok(LoggedinUser(u.id, u.name, u.role))
  }

  /** With unique emails the account is determined by its email: signing in
      succeeds exactly when the password verifies against that account's
      hash, and then names that account. */
  lemma LoginByEmail(users: seq<User>, u: User, password: string, verify: (string, string) -> PasswordVerificationResult)
    requires UniqueEmails(users)
    requires u in users
    ensures var r := Login(users, LoginModel(Some(u.email), password), verify);
      (r.isSuccess <==> verify(u.passwordHash, password) == Success)
      && (r.isSuccess ==> r.data == Some(LoggedinUser(u.id, u.name, u.role)))
      && (!r.isSuccess ==> r == MethodResultOf.Fail(InvalidCredentials))
  {
    var found := FindByEmail(users, Some(u.email));
    assert found.Some?;
    SameEmailSameUser(users, found.value, u);
  }

  /** Two rows of a table with unique emails that share an email are the
      same row. */
  lemma SameEmailSameUser(users: seq<User>, a: User, b: User)
    requires UniqueEmails(users)
    requires a in users && b in users && a.email == b.email
    ensures a == b
  {
    var i :| 0 <= i < |users| && users[i] == a;
    var j :| 0 <= j < |users| && users[j] == b;
  }

  // ---------------------------------------------------------------------
  // RegisterAsync
  // ---------------------------------------------------------------------

  /** The account RegisterAsync writes: null fields become empty, the role
      is the default one and the hash is the hasher's. */
  function NewUser(model: RegisterModel, id: Guid, now: Ticks, passwordHash: string): (u: User)
    ensures u.id == id && u.role == DefaultRole && u.createdAt == now && u.passwordHash == passwordHash
    ensures u.email == (if model.email.Some? then model.email.value else "")
    ensures u.name == (if model.name.Some? then model.name.value else "")
    ensures u.contactNumber == Some(if model.contactNumber.Some? then model.contactNumber.value else "")
  {
    User(id, model.name.GetOr(""), model.email.GetOr(""), Some(model.contactNumber.GetOr("")), passwordHash,
         DefaultRole, now)
  }

  /** The uniqueness test as written, `Any(u => u.Email == model.Email)`:
      a null email is compared as null, and no stored email is null. */
  predicate EmailTakenAsWritten(users: seq<User>, email: Option<string>) {
    email.Some? && exists k :: 0 <= k < |users| && users[k].email == email.value
  }

  /** A request without an email passes the test as written even when an
      account already has the empty email that the request will store:
      registering it breaks the uniqueness of emails. */
  lemma AsWrittenAdmitsDuplicateEmail()
    ensures var users := [User(1, "first", "", Some(""), "h1", DefaultRole, 0)];
      var model := RegisterModel(Some("second"), None, None, Some("password"));
      UniqueEmails(users)
      && !EmailTakenAsWritten(users, model.email)
      && !UniqueEmails(users + [NewUser(model, 2, 0, "h2")])
  {
    var users := [User(1, "first", "", Some(""), "h1", DefaultRole, 0)];
    var model := RegisterModel(Some("second"), None, None, Some("password"));
    var users' := users + [NewUser(model, 2, 0, "h2")];
    assert users'[0].email == users'[1].email;
  }

  /** The test that keeps emails unique: it compares the email that will be
      stored, so a missing email is tested as the empty one. */
  predicate EmailTaken(users: seq<User>, email: Option<string>) {
    exists k :: 0 <= k < |users| && users[k].email == email.GetOr("")
  }

  /** The two tests differ only for a request without an email. */
  lemma EmailTestsAgreeOnGivenEmail(users: seq<User>, email: Option<string>)
    ensures email.Some? ==> (EmailTaken(users, email) <==> EmailTakenAsWritten(users, email))
    ensures email.None? ==> (EmailTaken(users, email) <==> exists k :: 0 <= k < |users| && users[k].email == "")
  {
  }

  /** Appending an account whose email no one has keeps emails unique. */
  lemma NewEmailKeepsEmailsUnique(users: seq<User>, u: User)
    requires UniqueEmails(users)
    requires forall k :: 0 <= k < |users| ==> users[k].email != u.email
    ensures UniqueEmails(users + [u])
  {
    var users' := users + [u];
    forall i, j | 0 <= i < j < |users'| ensures users'[i].email != users'[j].email {
      if j == |users| {
        assert users'[i] == users[i];
      } else {
        assert users'[i] == users[i] && users'[j] == users[j];
      }
    }
  }

  /** RegisterAsync, with the uniqueness test comparing the email it
      stores: a taken email fails with nothing written; otherwise the new
      account is appended. */
  method Register(db: DataContext, model: RegisterModel, id: Guid, now: Ticks, passwordHash: string)
      returns (r: MethodResult)
    requires db.Valid()
    requires KeyFree(db.users, (u: User) => u.id, id)
    modifies db`users
    ensures db.Valid()
    ensures EmailTaken(old(db.users), model.email) ==>
      r == MethodResult.Fail(EmailRegistered) && db.users == old(db.users)
    ensures !EmailTaken(old(db.users), model.email) ==>
      r == MethodResult.Ok() && db.users == old(db.users) + [NewUser(model, id, now, passwordHash)]
  {
    if EmailTaken(db.users, model.email) {
      return MethodResult.Fail(EmailRegistered);
    }
    var user := User(id, model.name.GetOr(""), model.email.GetOr(""), Some(model.contactNumber.GetOr("")), passwordHash,
                     DefaultRole, now);
    AppendKeepsUniqueKeys(db.users, [user], (u: User) => u.id);
    NewEmailKeepsEmailsUnique(db.users, user);
    db.users := db.users + [user];
    r := MethodResult.Ok();
  }

  /** An account just registered can sign in with its email and the
      password whose hash was stored, and signs in with the default role. */
  lemma RegisteredUserCanSignIn(users: seq<User>, model: RegisterModel, id: Guid, now: Ticks, passwordHash: string,
                                verify: (string, string) -> PasswordVerificationResult)
    requires UniqueEmails(users)
    requires !EmailTaken(users, model.email)
    requires model.email.Some?
    requires verify(passwordHash, model.password.GetOr("")) == Success
    ensures var u := NewUser(model, id, now, passwordHash);
      Login(users + [u], LoginModel(model.email, model.password.GetOr("")), verify)
      == MethodResultOf.Ok(LoggedinUser(id, u.name, DefaultRole))
  {
    var u := NewUser(model, id, now, passwordHash);
    NewEmailKeepsEmailsUnique(users, u);
    LoginByEmail(users + [u], u, model.password.GetOr(""), verify);
  }
}
