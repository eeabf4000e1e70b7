/**
 * The user registry of auth.go: `User` records kept in the key-value store
 * under `user:{username}`, the login, registration, admin user-management,
 * password-change and bulk-import handlers, the `UserResponse` view the
 * handlers reply with, and the bearer-token extraction of `AuthMiddleware`.
 *
 * bcrypt and JWT are foreign code: checking a password against a stored
 * hash is the function parameter `check(password, hash)`, validating a token
 * is the function parameter `validate(token)`, and the outcome of hashing a
 * new password or signing a token is a supplied `Result`.
 */
module Auth {
  import opened Outcomes
  import opened Text

  /** A point in time in nanoseconds; 0 stands for Go's zero `time.Time`. */
  type Time = int

  /** A stored account (auth.go:20-30). */
  datatype User = User(
    id: string,
    username: string,
    password: string,
    email: string,
    isAdmin: bool,
    isActive: bool,
    createdAt: Time,
    updatedAt: Time,
    lastLogin: Time)

  /** The account as the handlers reply with it (auth.go:32-41). */
  datatype UserResponse = UserResponse(
    id: string,
    username: string,
    email: string,
    isAdmin: bool,
    isActive: bool,
    createdAt: Time,
    updatedAt: Time,
    lastLogin: Time)

  function Response(u: User): UserResponse {
    UserResponse(u.id, u.username, u.email, u.isAdmin, u.isActive, u.createdAt, u.updatedAt, u.lastLogin)
  }

  /** The reply view drops the password hash and nothing else. */
  lemma ResponseForgetsOnlyPassword(a: User, b: User)
    ensures Response(a) == Response(b) <==> a.(password := b.password) == b
  {
  }

  // ---------------------------------------------------------------- requests

  /** The login body, decoded into a `User` of which only these two fields
      are read. */
  datatype Credentials = Credentials(username: string, password: string)

  datatype CreateUserRequest = CreateUserRequest(username: string, password: string, email: string, isAdmin: bool)

  datatype UpdateUserRequest = UpdateUserRequest(email: string, isAdmin: bool, isActive: bool)

  datatype ChangePasswordRequest = ChangePasswordRequest(currentPassword: string, newPassword: string)

  /** The binding rules of `CreateUserRequest` (auth.go:43-48): the username
      is required, the password required and at least 8 characters long. */
  predicate CreateBinds(r: CreateUserRequest) {
    r.username != "" && |r.password| >= 8
  }

  /** The binding rules of `ChangePasswordRequest` (auth.go:56-59). */
  predicate ChangeBinds(r: ChangePasswordRequest) {
    r.currentPassword != "" && |r.newPassword| >= 8
  }

  // ------------------------------------------------------------------ replies

  /** The `error` or `message` of a handler's JSON reply. */
  datatype Msg =
    | BindFailed
    | InvalidCredentials
    | AccountInactive
    | TokenFailed
    | LoggedIn
    | UserExists
    | HashFailed
    | UserCreated
    | Unauthorized
    | AdminRequired
    | UserNotFound
    | UserUpdated
    | CannotDeleteSelf
    | UserDeleted
    | PasswordIncorrect
    | PasswordChanged
    | FileRequired
    | InvalidJson
    | InvalidCsv
    | ImportedUsers(count: nat)
    | HeaderRequired
    | InvalidToken

  /** The text each reply carries on the wire; a binding failure carries the
      validator's own message, which is not modelled. */
  function MsgText(m: Msg): string {
    match m
    case BindFailed => ""
    case InvalidCredentials => "Invalid credentials"
    case AccountInactive => "Account is inactive"
    case TokenFailed => "Failed to generate token"
    case LoggedIn => ""
    case UserExists => "User already exists"
    case HashFailed => "Failed to hash password"
    case UserCreated => "User created successfully"
    case Unauthorized => "Unauthorized"
    case AdminRequired => "Admin privileges required"
    case UserNotFound => "User not found"
    case UserUpdated => "User updated successfully"
    case CannotDeleteSelf => "Cannot delete your own account"
    case UserDeleted => "User deleted successfully"
    case PasswordIncorrect => "Current password is incorrect"
    case PasswordChanged => "Password changed successfully"
    case FileRequired => "File required"
    case InvalidJson => "Invalid JSON"
    case InvalidCsv => "Invalid CSV"
    case ImportedUsers(n) => "Imported " + FormatInt(n) + " users"
    case HeaderRequired => "Authorization header required"
    case InvalidToken => "Invalid token"
  }

  /** What a reply carries besides its message. */
  datatype Body =
    | NoBody
    | TokenBody(token: string, username: string, isAdmin: bool)
    | UserBody(user: UserResponse)

  datatype Reply = Reply(status: int, msg: Msg, body: Body)

  // ------------------------------------------------------------------- store

  function UserKey(username: string): string {
    "user:" + username
  }

  lemma UserKeyInjective(a: string, b: string)
    requires UserKey(a) == UserKey(b)
    ensures a == b
  {
    assert a == UserKey(a)[5..] && b == UserKey(b)[5..];
  }

  /** Every record sits under the key computed from its own username, as
      every write of auth.go stores it. */
  ghost predicate Keyed(users: map<string, User>) {
    forall k :: k in users ==> k == UserKey(users[k].username)
  }

  /** `GetUserByUsername` (auth.go:253-271). */
  function Find(users: map<string, User>, username: string): Option<User> {
    if UserKey(username) in users then Some(users[UserKey(username)]) else None
  }

  /** A user found by name carries that name, so writing it back under
      `user:`+its own username rewrites the record it was read from. */
  lemma FindNamed(users: map<string, User>, username: string)
    requires Keyed(users)
    ensures Find(users, username).Some? ==> Find(users, username).value.username == username
  {
    var k := UserKey(username);
    if k in users {
      UserKeyInjective(username, users[k].username);
    }
  }

  /** The admin guard of the user-management handlers (auth.go:437-443):
      the caller exists and is an admin. */
  predicate Privileged(users: map<string, User>, caller: string) {
    Find(users, caller).Some? && Find(users, caller).value.isAdmin
  }

  /** The verdict of the login checks (auth.go:143-170). */
  datatype Verdict = Refused(why: Msg) | Accepted(user: User)

  function Authenticate(users: map<string, User>, c: Credentials, check: (string, string) -> bool): (v: Verdict)
    ensures v.Accepted? <==>
              && UserKey(c.username) in users
              && users[UserKey(c.username)].isActive
              && check(c.password, users[UserKey(c.username)].password)
    ensures v.Accepted? ==> v.user == users[UserKey(c.username)]
    ensures v == Refused(AccountInactive) <==> UserKey(c.username) in users && !users[UserKey(c.username)].isActive
    ensures v.Refused? ==> v.why == AccountInactive || v.why == InvalidCredentials
  {
    match Find(users, c.username)
    case None => Refused(InvalidCredentials)
    case Some(stored) =>
      if !stored.isActive then Refused(AccountInactive)
      else if !check(c.password, stored.password) then Refused(InvalidCredentials)
      else Accepted(stored)
  }

  /** A newly created account: active, never logged in. */
  function NewUser(id: string, r: CreateUserRequest, hash: string, now: Time): User {
    User(id, r.username, hash, r.email, r.isAdmin, true, now, now, 0)
  }

  /** Why a creation request is refused, in the order `Register` and
      `CreateUser` check: binding, an existing account, hashing. */
  function CreateRefusal(users: map<string, User>, request: Option<CreateUserRequest>, hashed: Result<string>): (r: Option<Reply>)
    ensures r.None? <==>
              request.Some? && CreateBinds(request.value) && UserKey(request.value.username) !in users && hashed.Ok?
    ensures request.None? || !CreateBinds(request.value) ==> r == Some(Reply(400, BindFailed, NoBody))
    ensures request.Some? && CreateBinds(request.value) && UserKey(request.value.username) in users ==>
              r == Some(Reply(409, UserExists, NoBody))
  {
    if request.None? || !CreateBinds(request.value) then Some(Reply(400, BindFailed, NoBody))
    else if Find(users, request.value.username).Some? then Some(Reply(409, UserExists, NoBody))
    else if hashed.Err? then Some(Reply(500, HashFailed, NoBody))
    else None
  }

  /** A second registration of a name just registered is refused. */
  lemma CreateTwiceConflicts(users: map<string, User>, r: CreateUserRequest, id: string, hash: string, now: Time, hashed: Result<string>)
    requires CreateRefusal(users, Some(r), Ok(hash)).None?
    ensures CreateRefusal(users[UserKey(r.username) := NewUser(id, r, hash, now)], Some(r), hashed)
            == Some(Reply(409, UserExists, NoBody))
  {
  }

  // ------------------------------------------------------------ bulk import

  /** One CSV record of the import (auth.go:406-416): id, username, email,
      is_admin, is_active, created_at, updated_at, last_login. A flag is set
      exactly when its field is `true`; the password stays empty. */
  function RowUser(rec: seq<string>, rfc3339: string -> Time): User
    requires |rec| >= 8
  {
    User(rec[0], rec[1], "", rec[2], rec[3] == "true", rec[4] == "true",
         rfc3339(rec[5]), rfc3339(rec[6]), rfc3339(rec[7]))
  }

  /** The records after the header line. */
  function Rows(records: seq<seq<string>>): seq<seq<string>> {
    if |records| == 0 then [] else records[1..]
  }

  /** The users the CSV rows yield: one per row of at least 8 fields, in
      order; shorter rows are skipped. */
  function RowsUsers(rows: seq<seq<string>>, rfc3339: string -> Time): (us: seq<User>)
    ensures |us| <= |rows|
    ensures forall u :: u in us ==> exists rec :: rec in rows && |rec| >= 8 && u == RowUser(rec, rfc3339)
    ensures forall rec :: rec in rows && |rec| >= 8 ==> RowUser(rec, rfc3339) in us
    ensures forall u :: u in us ==> u.password == ""
  {
    if |rows| == 0 then []
    else
      var init := rows[..|rows| - 1];
      var last := rows[|rows| - 1];
      assert forall rec :: rec in rows <==> rec in init || rec == last by {
        assert rows == init + [last];
      }
      RowsUsers(init, rfc3339) + (if |last| >= 8 then [RowUser(last, rfc3339)] else [])
  }

  lemma RowsUsersSnoc(rows: seq<seq<string>>, rec: seq<string>, rfc3339: string -> Time)
    ensures RowsUsers(rows + [rec], rfc3339)
            == RowsUsers(rows, rfc3339) + (if |rec| >= 8 then [RowUser(rec, rfc3339)] else [])
  {
    assert (rows + [rec])[..|rows|] == rows;
  }

  /** Reading record `i` adds its user, unless it is the header or short. */
  lemma CsvStep(records: seq<seq<string>>, i: nat, rfc3339: string -> Time)
    requires i < |records|
    ensures RowsUsers(Rows(records[..i + 1]), rfc3339) ==
              RowsUsers(Rows(records[..i]), rfc3339)
              + (if i > 0 && |records[i]| >= 8 then [RowUser(records[i], rfc3339)] else [])
  {
    if i > 0 {
      assert Rows(records[..i + 1]) == Rows(records[..i]) + [records[i]];
      RowsUsersSnoc(Rows(records[..i]), records[i], rfc3339);
    }
  }

  /** Rows of one width are imported all or none: every row when it has
      the 8 fields a user needs, none otherwise. */
  lemma {:induction false} UniformRowsUsers(rows: seq<seq<string>>, n: nat, rfc3339: string -> Time)
    requires forall i :: 0 <= i < |rows| ==> |rows[i]| == n
    ensures n >= 8 ==> |RowsUsers(rows, rfc3339)| == |rows|
    ensures n < 8 ==> RowsUsers(rows, rfc3339) == []
  {
    if |rows| > 0 {
      UniformRowsUsers(rows[..|rows| - 1], n, rfc3339);
    }
  }

  /** Since the CSV reader accepts only records as wide as the header, an
      import yields a user for every data row when the header has at least
      8 fields, and no user at all otherwise. */
  lemma CsvAllOrNothing(records: CsvRecords, rfc3339: string -> Time)
    requires |records| >= 2
    ensures |records[0]| >= 8 ==> |RowsUsers(Rows(records), rfc3339)| == |records| - 1
    ensures |records[0]| < 8 ==> RowsUsers(Rows(records), rfc3339) == []
  {
    UniformRowsUsers(Rows(records), |records[0]|, rfc3339);
  }

  /** The CSV loop of `ImportUsersHandler` (auth.go:399-417). */
  method CsvUsers(records: seq<seq<string>>, rfc3339: string -> Time) returns (us: seq<User>)
    ensures us == RowsUsers(Rows(records), rfc3339)
  {
    us := [];
    var i := 0;
    while i < |records|
      invariant 0 <= i <= |records|
      invariant us == RowsUsers(Rows(records[..i]), rfc3339)
    {
      CsvStep(records, i, rfc3339);
      if i > 0 && |records[i]| >= 8 {
        us := us + [RowUser(records[i], rfc3339)];
      }
      i := i + 1;
    }
    assert records[..i] == records;
  }

  /** The store after saving each user in turn under `user:`+its username. */
  function SaveAll(users: map<string, User>, us: seq<User>): map<string, User> {
    if |us| == 0 then users
    else
      var last := us[|us| - 1];
      SaveAll(users, us[..|us| - 1])[UserKey(last.username) := last]
  }

  lemma {:induction false} SaveAllKeyed(users: map<string, User>, us: seq<User>)
    requires Keyed(users)
    ensures Keyed(SaveAll(users, us))
    decreases |us|
  {
    if |us| > 0 {
      SaveAllKeyed(users, us[..|us| - 1]);
    }
  }

  /** After an import, exactly the imported names have been added; each
      holds the last imported user of that name, and every other account
      is as it was. */
  lemma SaveAllLastWins(users: map<string, User>, us: seq<User>)
    ensures forall k :: k in SaveAll(users, us) <==> k in users || exists u :: u in us && k == UserKey(u.username)
    ensures forall i :: 0 <= i < |us| && (forall j :: i < j < |us| ==> us[j].username != us[i].username) ==>
              SaveAll(users, us)[UserKey(us[i].username)] == us[i]
    ensures forall k :: k in users && (forall u :: u in us ==> k != UserKey(u.username)) ==>
              SaveAll(users, us)[k] == users[k]
  {
    SaveAllKeys(users, us);
    SaveAllLast(users, us);
    SaveAllKeeps(users, us);
  }

  lemma {:induction false} SaveAllKeys(users: map<string, User>, us: seq<User>)
    ensures forall k :: k in SaveAll(users, us) <==> k in users || exists u :: u in us && k == UserKey(u.username)
    decreases |us|
  {
    if |us| > 0 {
      var init := us[..|us| - 1];
      var last := us[|us| - 1];
      SaveAllKeys(users, init);
      assert forall u :: u in us <==> u in init || u == last by {
        assert us == init + [last];
      }
    }
  }

  lemma {:induction false} SaveAllLast(users: map<string, User>, us: seq<User>)
    ensures forall i :: 0 <= i < |us| && (forall j :: i < j < |us| ==> us[j].username != us[i].username) ==>
              UserKey(us[i].username) in SaveAll(users, us) && SaveAll(users, us)[UserKey(us[i].username)] == us[i]
    decreases |us|
  {
    if |us| > 0 {
      var init := us[..|us| - 1];
      var last := us[|us| - 1];
      SaveAllLast(users, init);
      forall i | 0 <= i < |us| && (forall j :: i < j < |us| ==> us[j].username != us[i].username)
        ensures UserKey(us[i].username) in SaveAll(users, us) && SaveAll(users, us)[UserKey(us[i].username)] == us[i]
      {
        if i < |us| - 1 {
          assert us[i] == init[i];
          forall j | i < j < |init| ensures init[j].username != init[i].username {
            assert init[j] == us[j];
          }
          if UserKey(us[i].username) == UserKey(last.username) {
            UserKeyInjective(us[i].username, last.username);
          }
        }
      }
    }
  }

  lemma {:induction false} SaveAllKeeps(users: map<string, User>, us: seq<User>)
    ensures forall k :: k in users && (forall u :: u in us ==> k != UserKey(u.username)) ==>
              k in SaveAll(users, us) && SaveAll(users, us)[k] == users[k]
    decreases |us|
  {
    if |us| > 0 {
      var init := us[..|us| - 1];
      var last := us[|us| - 1];
      SaveAllKeeps(users, init);
      assert forall u :: u in init ==> u in us by {
        assert us == init + [last];
      }
    }
  }

  /** The uploaded file as each decoder reads it: the JSON array of users,
      or the CSV records; `None` where that decoder fails, which for the CSV
      reader includes a record whose field count differs from the first. */
  datatype Upload = Upload(asJson: Option<seq<User>>, asCsv: Option<CsvRecords>)

  // ----------------------------------------------------------- middleware

  datatype Claims = Claims(username: string, isAdmin: bool)

  /** What `AuthMiddleware` does with a request: abort it with a 401, or let
      it through with the caller's name, admin flag and user id set. */
  datatype Gate = Rejected(msg: Msg) | Admitted(username: string, isAdmin: bool, userId: string)

  /** The token: the header with its first `Bearer ` removed, wherever it
      stands (auth.go:756). */
  function BearerToken(header: string): string {
    ReplaceFirst(header, "Bearer ", "")
  }

  /** `AuthMiddleware` (auth.go:747-769). */
  function Authorize(header: string, validate: string -> Option<Claims>): (g: Gate)
    ensures g.Admitted? <==> header != "" && validate(BearerToken(header)).Some?
    ensures header == "" ==> g == Rejected(HeaderRequired)
    ensures header != "" && validate(BearerToken(header)).None? ==> g == Rejected(InvalidToken)
    ensures g.Admitted? ==>
              var claims := validate(BearerToken(header)).value;
              g.username == claims.username && g.userId == claims.username && g.isAdmin == claims.isAdmin
  {
    if header == "" then Rejected(HeaderRequired)
    else
      match validate(BearerToken(header))
      case None => Rejected(InvalidToken)
      case Some(claims) => Admitted(claims.username, claims.isAdmin, claims.username)
  }

  lemma SchemeStripped(token: string)
    ensures BearerToken("Bearer " + token) == token
  {
    ReplaceFirstAtFront("Bearer ", token);
  }

  /** A header without the scheme is taken as the token itself. */
  lemma BareTokenKept(header: string)
    requires forall j :: 0 <= j ==> !OccursAt(header, "Bearer ", j)
    ensures BearerToken(header) == header
  {
    ReplaceFirstSpec(header, "Bearer ", "");
  }

  /** The scheme is removed even from the middle of the header. */
  lemma SchemeStrippedAnywhere(before: string, after: string)
    requires forall j :: 0 <= j < |before| ==> !OccursAt(before + "Bearer " + after, "Bearer ", j)
    ensures BearerToken(before + "Bearer " + after) == before + after
  {
    var h := before + "Bearer " + after;
    assert h[|before|..|before| + 7] == "Bearer ";
    assert OccursAt(h, "Bearer ", |before|);
    var i := IndexOf(h, "Bearer ");
    assert i == |before|;
    assert h[..|before|] == before && h[|before| + 7..] == after;
  }

  // --------------------------------------------------------------- handlers

  class UserStore {
    var users: map<string, User>

    ghost predicate Valid()
      reads this
    {
      Keyed(users)
    }

    constructor ()
      ensures Valid() && users == map[]
    {
      users := map[];
    }

    /** `Login` (auth.go:133-197): only the last-login time of the account
        that passed the checks changes, and it changes even when signing
        the token then fails. */
    method Login(request: Option<Credentials>, check: (string, string) -> bool, token: Result<string>, now: Time)
      returns (reply: Reply)
      requires Valid()
      modifies this
      ensures Valid()
      ensures request.None? ==> reply == Reply(400, BindFailed, NoBody) && users == old(users)
      ensures request.Some? && Authenticate(old(users), request.value, check).Refused? ==>
                reply == Reply(401, Authenticate(old(users), request.value, check).why, NoBody) && users == old(users)
      ensures request.Some? && Authenticate(old(users), request.value, check).Accepted? ==>
                var u := Authenticate(old(users), request.value, check).user;
                && u.username == request.value.username
                && users == old(users)[UserKey(u.username) := u.(lastLogin := now)]
                && reply == if token.Err? then Reply(500, TokenFailed, NoBody)
                            else Reply(200, LoggedIn, TokenBody(token.value, u.username, u.isAdmin))
    {
      if request.None? {
        return Reply(400, BindFailed, NoBody);
      }
      var c := request.value;
      var found := Find(users, c.username);
      if found.None? {
        return Reply(401, InvalidCredentials, NoBody);
      }
      var stored := found.value;
      if !stored.isActive {
        return Reply(401, AccountInactive, NoBody);
      }
      if !check(c.password, stored.password) {
        return Reply(401, InvalidCredentials, NoBody);
      }
      FindNamed(users, c.username);
      stored := stored.(lastLogin := now);
      users := users[UserKey(stored.username) := stored];
      if token.Err? {
        return Reply(500, TokenFailed, NoBody);
      }
      reply := Reply(200, LoggedIn, TokenBody(token.value, stored.username, stored.isAdmin));
    }

    /** `Register` (auth.go:199-251): a new account is active and takes its
        admin flag from the request. */
    method Register(request: Option<CreateUserRequest>, hashed: Result<string>, now: Time) returns (reply: Reply)
      requires Valid()
      modifies this
      ensures Valid()
      ensures CreateRefusal(old(users), request, hashed).Some? ==>
                reply == CreateRefusal(old(users), request, hashed).value && users == old(users)
      ensures CreateRefusal(old(users), request, hashed).None? ==>
                && reply == Reply(201, UserCreated, NoBody)
                && users == old(users)[UserKey(request.value.username) := NewUser("", request.value, hashed.value, now)]
    {
      if request.None? || !CreateBinds(request.value) {
        return Reply(400, BindFailed, NoBody);
      }
      var r := request.value;
      if Find(users, r.username).Some? {
        return Reply(409, UserExists, NoBody);
      }
      if hashed.Err? {
        return Reply(500, HashFailed, NoBody);
      }
      users := users[UserKey(r.username) := NewUser("", r, hashed.value, now)];
      reply := Reply(201, UserCreated, NoBody);
    }

    /** `CreateUser` (auth.go:430-501): the admin-only variant, whose account
        gets the id `user_{nanos}`. */
    method CreateUser(caller: Option<string>, request: Option<CreateUserRequest>, hashed: Result<string>, nanos: int, now: Time)
      returns (reply: Reply)
      requires Valid()
      modifies this
      ensures Valid()
      ensures caller.None? ==> reply == Reply(401, Unauthorized, NoBody) && users == old(users)
      ensures caller.Some? && !Privileged(old(users), caller.value) ==>
                reply == Reply(403, AdminRequired, NoBody) && users == old(users)
      ensures caller.Some? && Privileged(old(users), caller.value) && CreateRefusal(old(users), request, hashed).Some? ==>
                reply == CreateRefusal(old(users), request, hashed).value && users == old(users)
      ensures caller.Some? && Privileged(old(users), caller.value) && CreateRefusal(old(users), request, hashed).None? ==>
                var u := NewUser("user_" + FormatInt(nanos), request.value, hashed.value, now);
                && users == old(users)[UserKey(u.username) := u]
                && reply == Reply(201, UserCreated, UserBody(Response(u)))
    {
      if caller.None? {
        return Reply(401, Unauthorized, NoBody);
      }
      var admin := Find(users, caller.value);
      if admin.None? || !admin.value.isAdmin {
        return Reply(403, AdminRequired, NoBody);
      }
      if request.None? || !CreateBinds(request.value) {
        return Reply(400, BindFailed, NoBody);
      }
      var r := request.value;
      if Find(users, r.username).Some? {
        return Reply(409, UserExists, NoBody);
      }
      if hashed.Err? {
        return Reply(500, HashFailed, NoBody);
      }
      var u := NewUser("user_" + FormatInt(nanos), r, hashed.value, now);
      users := users[UserKey(u.username) := u];
      reply := Reply(201, UserCreated, UserBody(Response(u)));
    }

    /** `UpdateUser` (auth.go:526-587): only the email, the two flags and the
        update time of the target change. */
    method UpdateUser(caller: Option<string>, username: string, request: Option<UpdateUserRequest>, now: Time)
      returns (reply: Reply)
      requires Valid()
      modifies this
      ensures Valid()
      ensures caller.None? ==> reply == Reply(401, Unauthorized, NoBody) && users == old(users)
      ensures caller.Some? && !Privileged(old(users), caller.value) ==>
                reply == Reply(403, AdminRequired, NoBody) && users == old(users)
      ensures caller.Some? && Privileged(old(users), caller.value) && UserKey(username) !in old(users) ==>
                reply == Reply(404, UserNotFound, NoBody) && users == old(users)
      ensures caller.Some? && Privileged(old(users), caller.value) && UserKey(username) in old(users) && request.None? ==>
                reply == Reply(400, BindFailed, NoBody) && users == old(users)
      ensures caller.Some? && Privileged(old(users), caller.value) && UserKey(username) in old(users) && request.Some? ==>
                var t := old(users)[UserKey(username)];
                var u := t.(email := request.value.email, isAdmin := request.value.isAdmin,
                            isActive := request.value.isActive, updatedAt := now);
                && users == old(users)[UserKey(username) := u]
                && reply == Reply(200, UserUpdated, UserBody(Response(u)))
    {
      if caller.None? {
        return Reply(401, Unauthorized, NoBody);
      }
      var admin := Find(users, caller.value);
      if admin.None? || !admin.value.isAdmin {
        return Reply(403, AdminRequired, NoBody);
      }
      var target := Find(users, username);
      if target.None? {
        return Reply(404, UserNotFound, NoBody);
      }
      if request.None? {
        return Reply(400, BindFailed, NoBody);
      }
      FindNamed(users, username);
      var r := request.value;
      var u := target.value.(email := r.email, isAdmin := r.isAdmin, isActive := r.isActive, updatedAt := now);
      users := users[UserKey(u.username) := u];
      reply := Reply(200, UserUpdated, UserBody(Response(u)));
    }

    /** `DeleteUser` (auth.go:589-631): an admin may delete any other
        existing account, and only that one. */
    method DeleteUser(caller: Option<string>, username: string) returns (reply: Reply)
      requires Valid()
      modifies this
      ensures Valid()
      ensures reply.status != 200 ==> users == old(users)
      ensures caller.None? ==> reply == Reply(401, Unauthorized, NoBody)
      ensures caller.Some? && !Privileged(old(users), caller.value) ==> reply == Reply(403, AdminRequired, NoBody)
      ensures caller.Some? && Privileged(old(users), caller.value) && username == caller.value ==>
                reply == Reply(400, CannotDeleteSelf, NoBody)
      ensures caller.Some? && Privileged(old(users), caller.value) && username != caller.value ==>
                if UserKey(username) in old(users)
                then reply == Reply(200, UserDeleted, NoBody) && users == old(users) - {UserKey(username)}
                else reply == Reply(404, UserNotFound, NoBody)
    {
      if caller.None? {
        return Reply(401, Unauthorized, NoBody);
      }
      var admin := Find(users, caller.value);
      if admin.None? || !admin.value.isAdmin {
        return Reply(403, AdminRequired, NoBody);
      }
      if username == caller.value {
        return Reply(400, CannotDeleteSelf, NoBody);
      }
      if Find(users, username).None? {
        return Reply(404, UserNotFound, NoBody);
      }
      users := users - {UserKey(username)};
      reply := Reply(200, UserDeleted, NoBody);
    }

    /** `ChangePassword` (auth.go:633-684): the hash is replaced only after
        the current password checks out, and only it and the update time
        change. */
    method ChangePassword(caller: Option<string>, request: Option<ChangePasswordRequest>,
                          check: (string, string) -> bool, hashed: Result<string>, now: Time)
      returns (reply: Reply)
      requires Valid()
      modifies this
      ensures Valid()
      ensures reply.status != 200 ==> users == old(users)
      ensures caller.None? ==> reply == Reply(401, Unauthorized, NoBody)
      ensures caller.Some? && (request.None? || !ChangeBinds(request.value)) ==> reply == Reply(400, BindFailed, NoBody)
      ensures caller.Some? && request.Some? && ChangeBinds(request.value) ==>
                var key := UserKey(caller.value);
                if key !in old(users) then reply == Reply(404, UserNotFound, NoBody)
                else if !check(request.value.currentPassword, old(users)[key].password)
                then reply == Reply(400, PasswordIncorrect, NoBody)
                else if hashed.Err? then reply == Reply(500, HashFailed, NoBody)
                else
                  && reply == Reply(200, PasswordChanged, NoBody)
                  && users == old(users)[key := old(users)[key].(password := hashed.value, updatedAt := now)]
    {
      if caller.None? {
        return Reply(401, Unauthorized, NoBody);
      }
      if request.None? || !ChangeBinds(request.value) {
        return Reply(400, BindFailed, NoBody);
      }
      var found := Find(users, caller.value);
      if found.None? {
        return Reply(404, UserNotFound, NoBody);
      }
      if !check(request.value.currentPassword, found.value.password) {
        return Reply(400, PasswordIncorrect, NoBody);
      }
      if hashed.Err? {
        return Reply(500, HashFailed, NoBody);
      }
      FindNamed(users, caller.value);
      var u := found.value.(password := hashed.value, updatedAt := now);
      users := users[UserKey(u.username) := u];
      reply := Reply(200, PasswordChanged, NoBody);
    }

    /** The save loop of `ImportUsersHandler` (auth.go:419-425). */
    method SaveUsers(us: seq<User>)
      requires Valid()
      modifies this
      ensures Valid() && users == SaveAll(old(users), us)
    {
      ghost var before := users;
      var i := 0;
      while i < |us|
        invariant 0 <= i <= |us|
        invariant users == SaveAll(before, us[..i])
      {
        assert us[..i + 1][..i] == us[..i];
        users := users[UserKey(us[i].username) := us[i]];
        i := i + 1;
      }
      assert us[..i] == us;
      SaveAllKeyed(before, us);
    }

    /** `ImportUsersHandler` (auth.go:370-428): accounts are created or
        overwritten, without any admin check of its own. */
    method ImportUsers(format: string, file: Option<Upload>, rfc3339: string -> Time) returns (reply: Reply)
      requires Valid()
      modifies this
      ensures Valid()
      ensures reply.status != 200 ==> users == old(users)
      ensures file.None? ==> reply == Reply(400, FileRequired, NoBody)
      ensures file.Some? && format == "json" ==>
                match file.value.asJson
                case None => reply == Reply(400, InvalidJson, NoBody)
                case Some(us) => reply == Reply(200, ImportedUsers(|us|), NoBody) && users == SaveAll(old(users), us)
      ensures file.Some? && format != "json" ==>
                match file.value.asCsv
                case None => reply == Reply(400, InvalidCsv, NoBody)
                case Some(records) =>
                  if |records| < 2 then reply == Reply(400, InvalidCsv, NoBody)
                  else
                    var us := RowsUsers(Rows(records), rfc3339);
                    reply == Reply(200, ImportedUsers(|us|), NoBody) && users == SaveAll(old(users), us)
    {
      if file.None? {
        return Reply(400, FileRequired, NoBody);
      }
      var us: seq<User>;
      if format == "json" {
        if file.value.asJson.None? {
          return Reply(400, InvalidJson, NoBody);
        }
        us := file.value.asJson.value;
      } else {
        if file.value.asCsv.None? || |file.value.asCsv.value| < 2 {
          return Reply(400, InvalidCsv, NoBody);
        }
        us := CsvUsers(file.value.asCsv.value, rfc3339);
      }
      SaveUsers(us);
      reply := Reply(200, ImportedUsers(|us|), NoBody);
    }
  }
}
