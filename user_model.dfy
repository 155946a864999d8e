/**
 * The `users` table: insert with the role default, the two lookups (by email
 * for login, by id for the profile), the admin listing, and the partial update
 * built clause by clause.
 */
module UserModel {
  import opened Store
  import opened Query

  // ---------------------------------------------------------------------------
  // Insert.

  /**
   * The values `createUser` binds. The role is a destructuring default: it
   * becomes "user" only when the key is absent, and an explicit null is sent
   * as NULL.
   */
  datatype NewUser = NewUser(
    email: string,
    passwordHash: string,
    firstName: Option<string>,
    lastName: Option<string>,
    address: Option<string>,
    role: Field<Option<string>>)

  /** The role the insert binds, or None for a NULL. */
  function BoundRole(role: Field<Option<string>>): (r: Option<string>)
    ensures role.Absent? ==> r == Some(DefaultRole)
    ensures role.Given? ==> r == role.value
  {
    match role
    case Absent => Some(DefaultRole)
    case Given(v) => v
  }

  /** A NULL role is refused by NOT NULL; a taken email by the UNIQUE index. */
  function InsertError(users: map<UserId, User>, nu: NewUser): Option<DbError> {
    if BoundRole(nu.role).None? then Some(NotNullViolation)
    else if EmailTaken(users, nu.email) then Some(UniqueViolation)
    else None
  }

  function InsertedUser(id: UserId, nu: NewUser, now: Time): User
    requires BoundRole(nu.role).Some?
  {
    User(id, nu.email, nu.passwordHash, nu.firstName, nu.lastName, nu.address, BoundRole(nu.role).value, now)
  }

  /** `INSERT ... RETURNING` the public columns and `created_at`; the serial is drawn even when the row is refused. */
  method CreateUser(db: Database, nu: NewUser, now: Time) returns (r: Result<DatedUser>)
    requires db.Valid()
    modifies db`users, db`nextUserId
    ensures db.Valid()
    ensures db.nextUserId == old(db.nextUserId) + 1
    ensures var e := InsertError(old(db.users), nu);
      && (e.Some? ==> r == Err(e.value) && db.users == old(db.users))
      && (e.None? ==> var row := InsertedUser(old(db.nextUserId), nu, now);
                      && r == Ok(DatedOf(row))
                      && old(db.nextUserId) !in old(db.users)
                      && db.users == old(db.users)[row.id := row])
  {
    var id := db.nextUserId;
    db.nextUserId := db.nextUserId + 1;
    var e := InsertError(db.users, nu);
    if e.Some? {
      return Err(e.value);
    }
    var row := InsertedUser(id, nu, now);
    db.users := db.users[id := row];
    r := Ok(DatedOf(row));
  }

  // ---------------------------------------------------------------------------
  // Lookups and listing.

  /** `SELECT id, email, password_hash, role FROM users WHERE email = $1`: the one row with that email, if any. */
  method GetUserByEmail(db: Database, email: string) returns (r: Option<Credentials>)
    requires db.Valid()
    ensures r.Some? <==> EmailTaken(db.users, email)
    ensures r.Some? ==> r.value.email == email && r.value.id in db.users && r.value == CredentialsOf(db.users[r.value.id])
  {
    if EmailTaken(db.users, email) {
      var id :| id in db.users && db.users[id].email == email;
      r := Some(CredentialsOf(db.users[id]));
    } else {
      r := None;
    }
  }

  /** The profile row whose id is `id`, without the hash, or none when no row has that id. */
  function GetUserById(db: Database, id: UserId): (r: Option<PublicUser>)
    reads db
    requires db.Valid()
    ensures r.Some? ==> id in db.users && r.value == PublicOf(db.users[id]) && r.value.id == id
    ensures r.None? ==> forall k :: k in db.users ==> db.users[k].id != id
  {
    if id in db.users then Some(PublicOf(db.users[id])) else None
  }

  function EmailKey(d: DatedUser): string {
    d.user.email
  }

  function AnyUser(d: DatedUser): bool {
    true
  }

  /** Every user row as the admin listing shows it. */
  function DatedRows(users: map<UserId, User>): set<DatedUser> {
    set id | id in users :: DatedOf(users[id])
  }

  /** `SELECT ... FROM users ORDER BY email`: every user exactly once, by email. */
  method GetAllUsers(db: Database) returns (rows: seq<DatedUser>)
    requires db.Valid()
    ensures SortedBy(rows, EmailKey)
    ensures multiset(rows) == multiset(DatedRows(db.users))
  {
    rows := SelectOrdered(DatedRows(db.users), AnyUser, EmailKey);
    assert Matching(DatedRows(db.users), AnyUser) == DatedRows(db.users);
  }

  /** Emails are unique, so the listing is strictly ordered by email. */
  lemma {:induction false} ListingStrictlyByEmail(users: map<UserId, User>, rows: seq<DatedUser>)
    requires UniqueEmails(users)
    requires multiset(rows) == multiset(DatedRows(users))
    ensures forall i, j :: 0 <= i < j < |rows| ==> rows[i].user.email != rows[j].user.email
  {
    OnceEach(rows, DatedRows(users));
    forall i, j | 0 <= i < j < |rows| ensures rows[i].user.email != rows[j].user.email {
      assert rows[i] in DatedRows(users) && rows[j] in DatedRows(users);
      var a :| a in users && DatedOf(users[a]) == rows[i];
      var b :| b in users && DatedOf(users[b]) == rows[j];
    }
  }

  // ---------------------------------------------------------------------------
  // Partial update.

  datatype UserColumn = FirstName | LastName | Address | PasswordHash | Role

  /** The keys `updateUser` looks at; a present key may hold null. */
  datatype UserUpdates = UserUpdates(
    firstName: Field<Option<string>>,
    lastName: Field<Option<string>>,
    address: Field<Option<string>>,
    passwordHash: Field<Option<string>>,
    role: Field<Option<string>>)

  /** The supplied keys as (column, value) pairs, in the fixed order the statement lists them. */
  function SuppliedUserFields(u: UserUpdates): seq<(UserColumn, SqlValue)> {
    Supplied(u.firstName, FirstName, TextOrNull)
    + Supplied(u.lastName, LastName, TextOrNull)
    + Supplied(u.address, Address, TextOrNull)
    + Supplied(u.passwordHash, PasswordHash, TextOrNull)
    + Supplied(u.role, Role, TextOrNull)
  }

  predicate NothingSupplied(u: UserUpdates) {
    u.firstName.Absent? && u.lastName.Absent? && u.address.Absent? && u.passwordHash.Absent? && u.role.Absent?
  }

  lemma NothingSuppliedIsEmpty(u: UserUpdates)
    ensures NothingSupplied(u) <==> SuppliedUserFields(u) == []
  {
  }

  /** The statement for a non-empty update: the supplied columns, then `WHERE id`. */
  function UserStatement(id: UserId, u: UserUpdates): UpdateStatement<UserColumn> {
    StatementFor(SuppliedUserFields(u), [], id)
  }

  /** Whether the update object holds a defined value for `column`. */
  predicate UserKeyGiven(u: UserUpdates, column: UserColumn) {
    match column
    case FirstName => u.firstName.Given?
    case LastName => u.lastName.Given?
    case Address => u.address.Given?
    case PasswordHash => u.passwordHash.Given?
    case Role => u.role.Given?
  }

  /** The statement numbers its clauses `$1..$k` and binds the id to `$(k+1)` in the WHERE clause. */
  lemma UserStatementShape(id: UserId, u: UserUpdates)
    ensures var stmt := UserStatement(id, u);
      var s := SuppliedUserFields(u);
      && WellNumbered(stmt)
      && stmt.whereIndex == |s| + 1
      && stmt.params[stmt.whereIndex - 1] == SqlInt(id)
      && |stmt.assignments| == |s|
      && (forall i :: 0 <= i < |s| ==> stmt.assignments[i] == Param(s[i].0, i + 1) && stmt.params[i] == s[i].1)
  {
    StatementForBinds(SuppliedUserFields(u), [], id);
  }

  /** A SET clause is emitted for a column exactly when its key holds a defined value. */
  lemma {:induction false} SuppliedUserColumns(u: UserUpdates, c: UserColumn)
    ensures c in Columns(SuppliedUserFields(u)) <==> UserKeyGiven(u, c)
  {
    var o1 := Supplied(u.firstName, FirstName, TextOrNull);
    var o2 := Supplied(u.lastName, LastName, TextOrNull);
    var o3 := Supplied(u.address, Address, TextOrNull);
    var o4 := Supplied(u.passwordHash, PasswordHash, TextOrNull);
    var o5 := Supplied(u.role, Role, TextOrNull);
    ColumnsAppend(o1 + o2 + o3 + o4, o5);
    ColumnsAppend(o1 + o2 + o3, o4);
    ColumnsAppend(o1 + o2, o3);
    ColumnsAppend(o1, o2);
    ColumnsOfSupplied(u.firstName, FirstName, TextOrNull, c);
    ColumnsOfSupplied(u.lastName, LastName, TextOrNull, c);
    ColumnsOfSupplied(u.address, Address, TextOrNull, c);
    ColumnsOfSupplied(u.passwordHash, PasswordHash, TextOrNull, c);
    ColumnsOfSupplied(u.role, Role, TextOrNull, c);
  }

  /** No statement at all when no key is supplied. */
  method BuildUserUpdate(id: UserId, u: UserUpdates) returns (stmt: Option<UpdateStatement<UserColumn>>)
    ensures NothingSupplied(u) ==> stmt == None
    ensures !NothingSupplied(u) ==> stmt == Some(UserStatement(id, u))
  {
    var fields: seq<Assignment<UserColumn>> := [];
    var values: seq<SqlValue> := [];
    var idx: nat := 1;
    ghost var supplied: seq<(UserColumn, SqlValue)> := [];
    fields, values, idx, supplied := PushIfGiven(fields, values, idx, supplied, u.firstName, FirstName, TextOrNull);
    assert supplied == Supplied(u.firstName, FirstName, TextOrNull);
    fields, values, idx, supplied := PushIfGiven(fields, values, idx, supplied, u.lastName, LastName, TextOrNull);
    fields, values, idx, supplied := PushIfGiven(fields, values, idx, supplied, u.address, Address, TextOrNull);
    fields, values, idx, supplied := PushIfGiven(fields, values, idx, supplied, u.passwordHash, PasswordHash, TextOrNull);
    fields, values, idx, supplied := PushIfGiven(fields, values, idx, supplied, u.role, Role, TextOrNull);
    NothingSuppliedIsEmpty(u);
    if |fields| == 0 {
      return None;
    }
    values := values + [SqlInt(id)];
    stmt := Some(UpdateStatement(fields, values, idx));
    assert fields == fields + [];
  }

  /** What the store does with one bound clause on a `users` row. */
  function AssignUserColumn(row: User, column: UserColumn, v: Option<SqlValue>): Result<User> {
    match column
    case FirstName => (match NullableText(v) case Ok(x) => Ok(row.(firstName := x)) case Err(e) => Err(e))
    case LastName => (match NullableText(v) case Ok(x) => Ok(row.(lastName := x)) case Err(e) => Err(e))
    case Address => (match NullableText(v) case Ok(x) => Ok(row.(address := x)) case Err(e) => Err(e))
    case PasswordHash => (match RequiredText(v) case Ok(x) => Ok(row.(passwordHash := x)) case Err(e) => Err(e))
    case Role => (match RequiredText(v) case Ok(x) => Ok(row.(role := x)) case Err(e) => Err(e))
  }

  function UserAssigner(): (User, UserColumn, Option<SqlValue>) -> Result<User> {
    (row, column, v) => AssignUserColumn(row, column, v)
  }

  /** A NOT NULL column (password_hash, role) is given null. */
  predicate RejectsNull(u: UserUpdates) {
    u.passwordHash == Given(None) || u.role == Given(None)
  }

  function NewOr<T>(f: Field<T>, current: T): T {
    if f.Given? then f.value else current
  }

  function NewNonNullOr<T>(f: Field<Option<T>>, current: T): T {
    if f.Given? && f.value.Some? then f.value.value else current
  }

  /**
   * The row an update should produce when no NOT NULL column is given null:
   * supplied keys replace their columns, absent keys keep them; the id, the
   * email and `created_at` never change.
   */
  function MergedUser(row: User, u: UserUpdates): User {
    row.(firstName := NewOr(u.firstName, row.firstName),
         lastName := NewOr(u.lastName, row.lastName),
         address := NewOr(u.address, row.address),
         passwordHash := NewNonNullOr(u.passwordHash, row.passwordHash),
         role := NewNonNullOr(u.role, row.role))
  }

  /** The clauses the store binds for an update, grouped from the right. */
  function BoundUserClauses(u: UserUpdates): seq<(UserColumn, Option<SqlValue>)> {
    BoundField(u.firstName, FirstName, TextOrNull) +
    (BoundField(u.lastName, LastName, TextOrNull) +
    (BoundField(u.address, Address, TextOrNull) +
    (BoundField(u.passwordHash, PasswordHash, TextOrNull) +
    BoundField(u.role, Role, TextOrNull))))
  }

  lemma UserStatementBinds(id: UserId, u: UserUpdates)
    ensures var stmt := UserStatement(id, u);
      Bindings(stmt.assignments, stmt.params) == BoundUserClauses(u)
  {
    var o1 := Supplied(u.firstName, FirstName, TextOrNull);
    var o2 := Supplied(u.lastName, LastName, TextOrNull);
    var o3 := Supplied(u.address, Address, TextOrNull);
    var o4 := Supplied(u.passwordHash, PasswordHash, TextOrNull);
    var o5 := Supplied(u.role, Role, TextOrNull);
    var none: seq<(UserColumn, Option<SqlValue>)> := [];
    var t5 := Bound(o5) + none;
    var t4 := Bound(o4) + t5;
    var stmt := UserStatement(id, u);
    StatementForBinds(SuppliedUserFields(u), [], id);
    assert Bindings([], stmt.params) == none;
    BoundThen(o1 + o2 + o3 + o4, o5, none);
    BoundThen(o1 + o2 + o3, o4, t5);
    BoundThen(o1 + o2, o3, t4);
    BoundThen(o1, o2, Bound(o3) + t4);
    BoundSupplied(u.firstName, FirstName, TextOrNull);
    BoundSupplied(u.lastName, LastName, TextOrNull);
    BoundSupplied(u.address, Address, TextOrNull);
    BoundSupplied(u.passwordHash, PasswordHash, TextOrNull);
    BoundSupplied(u.role, Role, TextOrNull);
    assert BoundField(u.role, Role, TextOrNull) + none == BoundField(u.role, Role, TextOrNull);
  }

  type Clauses = seq<(UserColumn, Option<SqlValue>)>

  // One lemma per clause, as for products.

  lemma FirstNameClause(row: User, u: UserUpdates, tail: Clauses)
    ensures ApplyBindings(row, BoundField(u.firstName, FirstName, TextOrNull) + tail, UserAssigner()) ==
      ApplyBindings(row.(firstName := NewOr(u.firstName, row.firstName)), tail, UserAssigner())
  {
    ApplyField(row, u.firstName, FirstName, TextOrNull, tail, UserAssigner());
  }

  lemma LastNameClause(row: User, u: UserUpdates, tail: Clauses)
    ensures ApplyBindings(row, BoundField(u.lastName, LastName, TextOrNull) + tail, UserAssigner()) ==
      ApplyBindings(row.(lastName := NewOr(u.lastName, row.lastName)), tail, UserAssigner())
  {
    ApplyField(row, u.lastName, LastName, TextOrNull, tail, UserAssigner());
  }

  lemma AddressClause(row: User, u: UserUpdates, tail: Clauses)
    ensures ApplyBindings(row, BoundField(u.address, Address, TextOrNull) + tail, UserAssigner()) ==
      ApplyBindings(row.(address := NewOr(u.address, row.address)), tail, UserAssigner())
  {
    ApplyField(row, u.address, Address, TextOrNull, tail, UserAssigner());
  }

  lemma PasswordHashClause(row: User, u: UserUpdates, tail: Clauses)
    ensures ApplyBindings(row, BoundField(u.passwordHash, PasswordHash, TextOrNull) + tail, UserAssigner()) ==
      if u.passwordHash == Given(None) then Err(NotNullViolation)
      else ApplyBindings(row.(passwordHash := NewNonNullOr(u.passwordHash, row.passwordHash)), tail, UserAssigner())
  {
    ApplyField(row, u.passwordHash, PasswordHash, TextOrNull, tail, UserAssigner());
  }

  lemma RoleClause(row: User, u: UserUpdates, tail: Clauses)
    ensures ApplyBindings(row, BoundField(u.role, Role, TextOrNull) + tail, UserAssigner()) ==
      if u.role == Given(None) then Err(NotNullViolation)
      else ApplyBindings(row.(role := NewNonNullOr(u.role, row.role)), tail, UserAssigner())
  {
    ApplyField(row, u.role, Role, TextOrNull, tail, UserAssigner());
  }

  lemma {:induction false} ApplyUserClauses(row: User, u: UserUpdates)
    ensures ApplyBindings(row, BoundUserClauses(u), UserAssigner()) ==
      if RejectsNull(u) then Err(NotNullViolation) else Ok(MergedUser(row, u))
  {
    var t6: Clauses := [];
    var t5 := BoundField(u.role, Role, TextOrNull);
    var t4 := BoundField(u.passwordHash, PasswordHash, TextOrNull) + t5;
    var t3 := BoundField(u.address, Address, TextOrNull) + t4;
    var t2 := BoundField(u.lastName, LastName, TextOrNull) + t3;
    var r1 := row.(firstName := NewOr(u.firstName, row.firstName));
    var r2 := r1.(lastName := NewOr(u.lastName, row.lastName));
    var r3 := r2.(address := NewOr(u.address, row.address));
    var r4 := r3.(passwordHash := NewNonNullOr(u.passwordHash, row.passwordHash));
    var r5 := r4.(role := NewNonNullOr(u.role, row.role));
    FirstNameClause(row, u, t2);
    LastNameClause(r1, u, t3);
    AddressClause(r2, u, t4);
    PasswordHashClause(r3, u, t5);
    RoleClause(r4, u, t6);
    assert t5 + t6 == t5;
  }

  /**
   * Running the built statement on a row yields the merged row, unless
   * password_hash or role was given null, which fails the whole statement.
   */
  lemma UserUpdateEffect(row: User, id: UserId, u: UserUpdates)
    ensures ExecUpdate(row, UserStatement(id, u), UserAssigner()) ==
      if RejectsNull(u) then Err(NotNullViolation) else Ok(MergedUser(row, u))
  {
    UserStatementBinds(id, u);
    ApplyUserClauses(row, u);
  }

  /** What `updateUser` answers. */
  function UpdateUserResult(users: map<UserId, User>, id: UserId, u: UserUpdates): Result<Option<PublicUser>> {
    if NothingSupplied(u) then Ok(if id in users then Some(PublicOf(users[id])) else None)
    else if id !in users then Ok(None)
    else if RejectsNull(u) then Err(NotNullViolation)
    else Ok(Some(PublicOf(MergedUser(users[id], u))))
  }

  /** The `users` table after `updateUser`. */
  function UsersAfterUpdate(users: map<UserId, User>, id: UserId, u: UserUpdates): map<UserId, User> {
    if !NothingSupplied(u) && id in users && !RejectsNull(u) then users[id := MergedUser(users[id], u)] else users
  }

  /**
   * With nothing supplied the current profile is answered and nothing is
   * written; otherwise a missing id gives no row, a null for a NOT NULL column
   * is an error that writes nothing, and an accepted update stores the merged
   * row and answers it.
   */
  lemma UpdateUserCases(users: map<UserId, User>, id: UserId, u: UserUpdates)
    ensures NothingSupplied(u) ==>
      && UsersAfterUpdate(users, id, u) == users
      && UpdateUserResult(users, id, u).Ok?
      && (UpdateUserResult(users, id, u).value.Some? <==> id in users)
    ensures NothingSupplied(u) && id in users ==> UpdateUserResult(users, id, u) == Ok(Some(PublicOf(users[id])))
    ensures id !in users ==> UpdateUserResult(users, id, u) == Ok(None) && UsersAfterUpdate(users, id, u) == users
    ensures RejectsNull(u) ==> UsersAfterUpdate(users, id, u) == users
    ensures !NothingSupplied(u) && id in users && RejectsNull(u) ==> UpdateUserResult(users, id, u) == Err(NotNullViolation)
    ensures !NothingSupplied(u) && id in users && !RejectsNull(u) ==>
      && UsersAfterUpdate(users, id, u)[id] == MergedUser(users[id], u)
      && UpdateUserResult(users, id, u) == Ok(Some(PublicOf(UsersAfterUpdate(users, id, u)[id])))
  {
  }

  /**
   * An update changes at most the one row, never its id, email or creation
   * time, and the role only when a role is supplied.
   */
  lemma UpdateKeepsIdentity(users: map<UserId, User>, id: UserId, u: UserUpdates)
    ensures var after := UsersAfterUpdate(users, id, u);
      && after.Keys == users.Keys
      && (forall k :: k in users && k != id ==> after[k] == users[k])
      && (forall k :: k in users ==> after[k].id == users[k].id && after[k].email == users[k].email && after[k].createdAt == users[k].createdAt)
      && (u.role.Absent? ==> forall k :: k in users ==> after[k].role == users[k].role)
  {
  }

  /**
   * `updateUser` as the store runs it: nothing supplied reads the row back,
   * anything supplied runs the built statement on the row with that id.
   */
  method UpdateUser(db: Database, id: UserId, u: UserUpdates) returns (r: Result<Option<PublicUser>>)
    requires db.Valid()
    modifies db`users
    ensures db.Valid()
    ensures r == UpdateUserResult(old(db.users), id, u)
    ensures db.users == UsersAfterUpdate(old(db.users), id, u)
  {
    var stmt := BuildUserUpdate(id, u);
    if stmt.None? {
      return Ok(GetUserById(db, id));
    }
    if id !in db.users {
      return Ok(None);
    }
    var row := db.users[id];
    UserUpdateEffect(row, id, u);
    match ExecUpdate(row, stmt.value, UserAssigner())
    case Err(e) =>
      r := Err(e);
    case Ok(updated) =>
      db.users := db.users[id := updated];
      r := Ok(Some(PublicOf(updated)));
  }
}
