/**
 * The user handlers: registration, login, the caller's own profile, and the
 * two admin operations (listing users, changing a role).
 *
 * Request-body validation runs before a handler; its outcome reaches the
 * handler as the list of messages `errors` (empty when the body passed).
 * Password hashing, hash comparison and token signing are parameters.
 */
module UserController {
  import opened Store
  import opened Http
  import Query
  import UserModel
  import Auth
  import AdminGate

  const EmailInUseMessage: string := "Email já cadastrado"
  const BadCredentialsMessage: string := "Credenciais inválidas"
  const ProfileNotLoadedMessage: string := "Usuário não carregado"
  const ShortPasswordMessage: string := "Senha deve ter ao menos 6 caracteres"
  const UserNotFoundMessage: string := "Usuário não encontrado"

  /** Shortest password the profile update accepts. */
  const MinPasswordLength: nat := 6

  // ---------------------------------------------------------------------------
  // POST /users/register

  /** The row `register` asks for: no role key, so the column default applies. */
  function Registration(email: string, passwordHash: string, firstName: Option<string>,
                        lastName: Option<string>, address: Option<string>): UserModel.NewUser {
    UserModel.NewUser(email, passwordHash, firstName, lastName, address, Absent)
  }

  /** 201 with the public fields of the created user (not `created_at`); a store error is 500. */
  function RegisterReply(r: Result<DatedUser>): Reply {
    match r
    case Ok(d) => Reply(201, OneUser(d.user))
    case Err(_) => Reply(500, ErrorMessage(ServerError))
  }

  /**
   * `register`: invalid input is 400 and a taken email 409, neither writing
   * anything; otherwise the user is stored with the hashed password and the
   * role "user" and answered with 201.
   */
  method Register(db: Database, errors: seq<string>, email: string, password: string,
                  firstName: Option<string>, lastName: Option<string>, address: Option<string>,
                  hash: string -> string, now: Time) returns (reply: Reply)
    requires db.Valid()
    modifies db`users, db`nextUserId
    ensures db.Valid()
    ensures errors != [] ==>
      reply == Reply(400, FieldErrors(errors)) && db.users == old(db.users) && db.nextUserId == old(db.nextUserId)
    ensures errors == [] && EmailTaken(old(db.users), email) ==>
      reply == Reply(409, ErrorMessage(EmailInUseMessage)) && db.users == old(db.users) && db.nextUserId == old(db.nextUserId)
    ensures errors == [] && !EmailTaken(old(db.users), email) ==>
      var row := UserModel.InsertedUser(old(db.nextUserId), Registration(email, hash(password), firstName, lastName, address), now);
      && reply == Reply(201, OneUser(PublicOf(row)))
      && row.role == DefaultRole && row.passwordHash == hash(password)
      && old(db.nextUserId) !in old(db.users)
      && db.users == old(db.users)[row.id := row]
      && db.nextUserId == old(db.nextUserId) + 1
  {
    if errors != [] {
      return Reply(400, FieldErrors(errors));
    }
    var existing := UserModel.GetUserByEmail(db, email);
    if existing.Some? {
      return Reply(409, ErrorMessage(EmailInUseMessage));
    }
    var created := UserModel.CreateUser(db, Registration(email, hash(password), firstName, lastName, address), now);
    reply := RegisterReply(created);
  }

  // ---------------------------------------------------------------------------
  // POST /users/login

  /**
   * Login against the `users` table: an unknown email and a wrong password
   * get the same 401; a match gets a token for the user's id.
   */
  ghost function LoginOutcome(users: map<UserId, User>, email: string, password: string,
                              compare: (string, string) -> bool, sign: UserId -> string): Reply
  {
    if !EmailTaken(users, email) then Reply(401, ErrorMessage(BadCredentialsMessage))
    else
      var id :| id in users && users[id].email == email;
      if compare(password, users[id].passwordHash) then Reply(200, Session(sign(users[id].id), users[id].email))
      else Reply(401, ErrorMessage(BadCredentialsMessage))
  }

  method Login(db: Database, errors: seq<string>, email: string, password: string,
               compare: (string, string) -> bool, sign: UserId -> string) returns (reply: Reply)
    requires db.Valid()
    ensures errors != [] ==> reply == Reply(400, FieldErrors(errors))
    ensures errors == [] ==> reply == LoginOutcome(db.users, email, password, compare, sign)
  {
    if errors != [] {
      return Reply(400, FieldErrors(errors));
    }
    var user := UserModel.GetUserByEmail(db, email);
    if user.None? {
      return Reply(401, ErrorMessage(BadCredentialsMessage));
    }
    var c := user.value;
    if !compare(password, c.passwordHash) {
      return Reply(401, ErrorMessage(BadCredentialsMessage));
    }
    reply := Reply(200, Session(sign(c.id), c.email));
  }

  /** Login answers either a session or the one 401, so a caller cannot tell which check failed. */
  lemma LoginFailuresLookAlike(users: map<UserId, User>, email: string, password: string,
                               compare: (string, string) -> bool, sign: UserId -> string)
    ensures var r := LoginOutcome(users, email, password, compare, sign);
      r.Reply? && (r.payload.Session? || r == Reply(401, ErrorMessage(BadCredentialsMessage)))
  {
  }

  /** When emails are unique, the row login picks for an email is the one row with that email. */
  lemma {:induction false} LoginPicksTheRow(users: map<UserId, User>, id: UserId, password: string,
                                            compare: (string, string) -> bool, sign: UserId -> string)
    requires UniqueEmails(users) && id in users && users[id].id == id
    ensures LoginOutcome(users, users[id].email, password, compare, sign) ==
      if compare(password, users[id].passwordHash) then Reply(200, Session(sign(id), users[id].email))
      else Reply(401, ErrorMessage(BadCredentialsMessage))
  {
    var email := users[id].email;
    assert EmailTaken(users, email);
    var r := LoginOutcome(users, email, password, compare, sign);
    var other :| other in users && users[other].email == email && r ==
      if compare(password, users[other].passwordHash) then Reply(200, Session(sign(users[other].id), users[other].email))
      else Reply(401, ErrorMessage(BadCredentialsMessage));
    assert other == id;
  }

  /** A user who has just registered can log in with the same password. */
  lemma {:induction false} RegisteredUserCanLogIn(users: map<UserId, User>, next: UserId, email: string, password: string,
                                                  firstName: Option<string>, lastName: Option<string>, address: Option<string>,
                                                  hash: string -> string, compare: (string, string) -> bool,
                                                  sign: UserId -> string, now: Time)
    requires UsersKeyed(users, next) && UniqueEmails(users) && !EmailTaken(users, email)
    requires compare(password, hash(password))
    ensures var row := UserModel.InsertedUser(next, Registration(email, hash(password), firstName, lastName, address), now);
      LoginOutcome(users[next := row], email, password, compare, sign) == Reply(200, Session(sign(next), email))
  {
    var row := UserModel.InsertedUser(next, Registration(email, hash(password), firstName, lastName, address), now);
    var after := users[next := row];
    assert next !in users;
    assert UniqueEmails(after) by {
      assert forall k :: k in users ==> users[k].email != email;
      forall a, b | a in after && b in after && after[a].email == after[b].email ensures a == b {
        if a != next && b != next {
          assert users[a].email == users[b].email;
        }
      }
    }
    LoginPicksTheRow(after, next, password, compare, sign);
  }

  /**
   * The token of a successful login authenticates its bearer as the user who
   * logged in, provided verification accepts what signing produced and a
   * signed token holds no space.
   */
  lemma SessionTokenAuthenticates(users: map<UserId, User>, next: UserId, email: string, password: string,
                                  compare: (string, string) -> bool, sign: UserId -> string,
                                  verify: string -> Auth.Claims)
    requires UsersKeyed(users, next) && UniqueEmails(users)
    requires forall id :: id in users ==> verify(sign(id)) == Auth.Verified(Some(id)) && ' ' !in sign(id)
    requires LoginOutcome(users, email, password, compare, sign).payload.Session?
    ensures var step := Auth.Authentication(users, Some(Auth.BearerPrefix + LoginOutcome(users, email, password, compare, sign).payload.token), verify);
      step.Admitted? && step.user.email == email
  {
    var id :| id in users && users[id].email == email;
    LoginPicksTheRow(users, id, password, compare, sign);
    Auth.IssuedTokenAuthenticates(users, id, sign(id), verify);
  }

  // ---------------------------------------------------------------------------
  // GET /users/me and PATCH /users/me

  /** The user `authenticate` attached, or 404 when there is none. */
  function GetProfile(user: Option<PublicUser>): (reply: Reply)
    ensures user.None? ==> reply == Reply(404, ErrorMessage(ProfileNotLoadedMessage))
    ensures user.Some? ==> reply == Reply(200, OneUser(user.value))
  {
    if user.None? then Reply(404, ErrorMessage(ProfileNotLoadedMessage)) else Reply(200, OneUser(user.value))
  }

  /** Behind `authenticate`, the profile is the stored row of the token's user, without the hash. */
  lemma ProfileAfterAuthentication(users: map<UserId, User>, header: Option<string>, verify: string -> Auth.Claims)
    requires Auth.Authentication(users, header, verify).Admitted?
    ensures var step := Auth.Authentication(users, header, verify);
      GetProfile(Some(step.user)) == Reply(200, OneUser(PublicOf(users[step.id])))
  {
  }

  /** `if (password)`: present, not null, not empty. */
  predicate Truthy(password: Field<Option<string>>) {
    password.Given? && password.value.Some? && password.value.value != ""
  }

  predicate ShortPassword(password: Field<Option<string>>) {
    Truthy(password) && |password.value.value| < MinPasswordLength
  }

  /** The keys `patchProfile` passes on: the three names as sent, a hash only for a truthy password, never a role. */
  function ProfileUpdates(firstName: Field<Option<string>>, lastName: Field<Option<string>>, address: Field<Option<string>>,
                          password: Field<Option<string>>, hash: string -> string): (u: UserModel.UserUpdates)
    ensures u.role.Absent?
    ensures u.passwordHash.Given? <==> Truthy(password)
    ensures Truthy(password) ==> u.passwordHash == Given(Some(hash(password.value.value)))
  {
    UserModel.UserUpdates(firstName, lastName, address,
      if Truthy(password) then Given(Some(hash(password.value.value))) else Absent, Absent)
  }

  /** 200 with the updated profile (an empty body when no row came back); a store error is 500. */
  function PatchReply(r: Result<Option<PublicUser>>): Reply {
    match r
    case Ok(Some(u)) => Reply(200, OneUser(u))
    case Ok(None) => Reply(200, NoBody)
    case Err(_) => Reply(500, ErrorMessage(ServerError))
  }

  method PatchProfile(db: Database, userId: UserId, errors: seq<string>,
                      firstName: Field<Option<string>>, lastName: Field<Option<string>>, address: Field<Option<string>>,
                      password: Field<Option<string>>, hash: string -> string) returns (reply: Reply)
    requires db.Valid()
    modifies db`users
    ensures db.Valid()
    ensures errors != [] ==> reply == Reply(400, FieldErrors(errors)) && db.users == old(db.users)
    ensures errors == [] && ShortPassword(password) ==>
      reply == Reply(400, ErrorMessage(ShortPasswordMessage)) && db.users == old(db.users)
    ensures errors == [] && !ShortPassword(password) ==>
      var u := ProfileUpdates(firstName, lastName, address, password, hash);
      && reply == PatchReply(UserModel.UpdateUserResult(old(db.users), userId, u))
      && db.users == UserModel.UsersAfterUpdate(old(db.users), userId, u)
  {
    if errors != [] {
      return Reply(400, FieldErrors(errors));
    }
    if ShortPassword(password) {
      return Reply(400, ErrorMessage(ShortPasswordMessage));
    }
    var r := UserModel.UpdateUser(db, userId, ProfileUpdates(firstName, lastName, address, password, hash));
    reply := PatchReply(r);
  }

  /** A profile update never changes anybody's role: users cannot make themselves admins. */
  lemma PatchNeverChangesRole(users: map<UserId, User>, userId: UserId,
                              firstName: Field<Option<string>>, lastName: Field<Option<string>>, address: Field<Option<string>>,
                              password: Field<Option<string>>, hash: string -> string)
    ensures var after := UserModel.UsersAfterUpdate(users, userId, ProfileUpdates(firstName, lastName, address, password, hash));
      after.Keys == users.Keys && forall k :: k in users ==> after[k].role == users[k].role
  {
    UserModel.UpdateKeepsIdentity(users, userId, ProfileUpdates(firstName, lastName, address, password, hash));
  }

  /** After a password change the new password logs in. */
  lemma {:induction false} ChangedPasswordLogsIn(users: map<UserId, User>, next: UserId, userId: UserId,
                                                 firstName: Field<Option<string>>, lastName: Field<Option<string>>, address: Field<Option<string>>,
                                                 password: string, hash: string -> string, compare: (string, string) -> bool,
                                                 sign: UserId -> string)
    requires UsersKeyed(users, next) && UniqueEmails(users) && userId in users
    requires password != "" && compare(password, hash(password))
    ensures var after := UserModel.UsersAfterUpdate(users, userId, ProfileUpdates(firstName, lastName, address, Given(Some(password)), hash));
      LoginOutcome(after, users[userId].email, password, compare, sign) == Reply(200, Session(sign(userId), users[userId].email))
  {
    var u := ProfileUpdates(firstName, lastName, address, Given(Some(password)), hash);
    var after := UserModel.UsersAfterUpdate(users, userId, u);
    UserModel.UpdateKeepsIdentity(users, userId, u);
    assert after[userId] == UserModel.MergedUser(users[userId], u);
    assert UniqueEmails(after) by {
      forall a, b | a in after && b in after && after[a].email == after[b].email ensures a == b {
        assert users[a].email == users[b].email;
      }
    }
    LoginPicksTheRow(after, userId, password, compare, sign);
  }

  // ---------------------------------------------------------------------------
  // GET /users and PATCH /users/:id/role (behind isAdmin)

  method ListUsers(db: Database) returns (reply: Reply)
    requires db.Valid()
    ensures reply.Reply? && reply.status == 200 && reply.payload.UserList?
    ensures Query.SortedBy(reply.payload.users, UserModel.EmailKey)
    ensures multiset(reply.payload.users) == multiset(UserModel.DatedRows(db.users))
  {
    var rows := UserModel.GetAllUsers(db);
    reply := Reply(200, UserList(rows));
  }

  /** The one key `changeUserRole` passes on. */
  function RoleUpdate(role: Field<Option<string>>): UserModel.UserUpdates {
    UserModel.UserUpdates(Absent, Absent, Absent, Absent, role)
  }

  /** No row is 404, an updated row 200, a store error 500. */
  function RoleReply(r: Result<Option<PublicUser>>): Reply {
    match r
    case Ok(Some(u)) => Reply(200, OneUser(u))
    case Ok(None) => Reply(404, ErrorMessage(UserNotFoundMessage))
    case Err(_) => Reply(500, ErrorMessage(ServerError))
  }

  method ChangeUserRole(db: Database, errors: seq<string>, id: UserId, role: Field<Option<string>>) returns (reply: Reply)
    requires db.Valid()
    modifies db`users
    ensures db.Valid()
    ensures errors != [] ==> reply == Reply(400, FieldErrors(errors)) && db.users == old(db.users)
    ensures errors == [] ==>
      && reply == RoleReply(UserModel.UpdateUserResult(old(db.users), id, RoleUpdate(role)))
      && db.users == UserModel.UsersAfterUpdate(old(db.users), id, RoleUpdate(role))
  {
    if errors != [] {
      return Reply(400, FieldErrors(errors));
    }
    var r := UserModel.UpdateUser(db, id, RoleUpdate(role));
    reply := RoleReply(r);
  }

  /**
   * Setting a role decides the admin gate for that user from then on: it
   * passes exactly when the new role is "admin"; an unknown id is 404.
   */
  lemma RoleChangeDecidesAdminGate(users: map<UserId, User>, id: UserId, role: string)
    ensures id !in users ==>
      RoleReply(UserModel.UpdateUserResult(users, id, RoleUpdate(Given(Some(role))))) == Reply(404, ErrorMessage(UserNotFoundMessage))
    ensures id in users ==>
      var after := UserModel.UsersAfterUpdate(users, id, RoleUpdate(Given(Some(role))));
      && id in after
      && (AdminGate.IsAdmin(Some(PublicOf(after[id]))).Next? <==> role == AdminRole)
      && RoleReply(UserModel.UpdateUserResult(users, id, RoleUpdate(Given(Some(role))))) == Reply(200, OneUser(PublicOf(after[id])))
  {
  }
}
