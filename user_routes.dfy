/**
 * The account endpoints: registration and login (both answer with a fresh
 * token), the caller's own record, changing one's own password, and the
 * admin-only user list, lookup, update and delete.
 *
 * Password hashing is an oracle: `hasher` stands for
 * `generate_password_hash` (its random salt folded into the oracle) and
 * `check(stored, candidate)` for `check_password_hash`. The two clock
 * readings `generate_token` makes are parameters.
 */
module UserRoutes {
  import opened Common
  import opened Models
  import opened Store
  import opened Auth

  /** The JSON body of `POST /auth/register`. */
  datatype RegisterBody = RegisterBody(username: Field<string>, email: Field<string>, password: Field<string>, role: Field<string>)

  /** The JSON body of `POST /auth/login`. */
  datatype LoginBody = LoginBody(username: Field<string>, password: Field<string>)

  /** The JSON body of `POST /auth/change-password`. */
  datatype PasswordBody = PasswordBody(current_password: Field<string>, new_password: Field<string>)

  /** The JSON body of `PUT /users/<id>`. */
  datatype UserBody = UserBody(username: Field<string>, email: Field<string>, role: Field<string>, is_active: Field<bool>)

  /** What registration and login hand back: the user and the claims of the token issued for them. */
  datatype Session = Session(user: User, claims: Claims)

  /**
   * Each account is stored under its own id, and no two share a username:
   * `register` refuses a taken username and `update_user` a changed one that
   * is taken, so every route that writes accounts keeps this true.
   */
  predicate Accounts(us: map<int, User>)
  {
    (forall id :: id in us ==> us[id].id == id) &&
    (forall a, b :: a in us && b in us && us[a].username == us[b].username ==> a == b)
  }

  // ----- POST /auth/register -----

  /**
   * The first check `register` fails: username, email and password must be
   * non-empty (in that order), the role (default `driver`) must be known,
   * and neither the username nor the email may be on file.
   */
  function RegisterCheck(us: map<int, User>, b: RegisterBody): (r: Option<Reason>)
    ensures r.None? <==>
      Supplied(b.username) && Supplied(b.email) && Supplied(b.password) &&
      Or(b.role, "driver") in Roles &&
      !UsernameTaken(us, b.username.value) && !EmailTaken(us, b.email.value)
    ensures !Supplied(b.username) ==> r == Some(MissingField("username"))
    ensures Supplied(b.username) && !Supplied(b.email) ==> r == Some(MissingField("email"))
    ensures Supplied(b.username) && Supplied(b.email) && !Supplied(b.password) ==> r == Some(MissingField("password"))
    ensures r == Some(AlreadyExists("username")) ==> UsernameTaken(us, b.username.value)
    ensures r == Some(AlreadyExists("email")) ==> EmailTaken(us, b.email.value)
  {
    if !Supplied(b.username) then Some(MissingField("username"))
    else if !Supplied(b.email) then Some(MissingField("email"))
    else if !Supplied(b.password) then Some(MissingField("password"))
    else if Or(b.role, "driver") !in Roles then Some(InvalidValue("role"))
    else if UsernameTaken(us, b.username.value) then Some(AlreadyExists("username"))
    else if EmailTaken(us, b.email.value) then Some(AlreadyExists("email"))
    else None
  }

  /** The account `register` stores: the given names, the role or `driver`, the password's hash, active. */
  function NewUser(id: int, b: RegisterBody, hasher: string -> string): (u: User)
    requires b.username.Given? && b.email.Given? && b.password.Given?
    ensures u.id == id && u.username == b.username.value && u.email == b.email.value
    ensures u.password_hash == hasher(b.password.value) && u.is_active
    ensures b.role.Absent? ==> u.role == "driver"
  {
    User(id, b.username.value, b.email.value, hasher(b.password.value), Or(b.role, "driver"), true)
  }

  /** `register`: no guard; a failed check adds nobody, success stores the account and issues its token. */
  method Register(db: Db, b: RegisterBody, hasher: string -> string, clockExp: Timestamp, clockIat: Timestamp)
    returns (o: Outcome, session: Option<Session>)
    requires db.Valid()
    modifies db
    ensures db.Valid()
    ensures RegisterCheck(old(db.users), b).Some? ==>
      o == BadRequest(RegisterCheck(old(db.users), b).value) && session == None && db.Snapshot() == old(db.Snapshot())
    ensures o.Created? <==> RegisterCheck(old(db.users), b).None?
    ensures o.Created? ==>
      o.id !in old(db.users) &&
      db.Snapshot() == old(db.Snapshot()).(
        users := old(db.users)[o.id := NewUser(o.id, b, hasher)], nextUserId := o.id + 1) &&
      session == Some(Session(NewUser(o.id, b, hasher), GenerateClaims(NewUser(o.id, b, hasher), clockExp, clockIat)))
  {
    var check := RegisterCheck(db.users, b);
    if check.Some? {
      return BadRequest(check.value), None;
    }
    var id := db.nextUserId;
    var role := if b.role.Given? then b.role.value else "driver";
    var user := User(id, b.username.value, b.email.value, hasher(b.password.value), role, true);
    db.users := db.users[id := user];
    db.nextUserId := id + 1;
    o := Created(id);
    session := Some(Session(user, GenerateClaims(user, clockExp, clockIat)));
  }

  // ----- POST /auth/login -----

  /** `User.query.filter_by(username=name).first()`: the one account with that username, if any. */
  function FindByUsername(us: map<int, User>, name: string): (r: Option<User>)
    requires Accounts(us)
    ensures r.Some? <==> UsernameTaken(us, name)
    ensures r.Some? ==> r.value.username == name && r.value.id in us && us[r.value.id] == r.value
  {
    if UsernameTaken(us, name) then
      var id :| id in us && us[id].username == name;
      Some(us[id])
    else None
  }

  /**
   * Whom `login` lets in: both values non-empty (else 400), an account with
   * that username whose stored hash checks against the password (else 401),
   * and an active account (else 401). The source's messages tell the two 401s
   * apart ("Invalid username or password", "Account is deactivated"); the
   * outcome here carries the status only.
   */
  function Authenticate(us: map<int, User>, b: LoginBody, check: (string, string) -> bool): (g: Gate)
    requires Accounts(us)
    ensures !Supplied(b.username) || !Supplied(b.password) ==> g == Reject(BadRequest(CredentialsRequired))
    ensures g.Admit? <==>
      Supplied(b.username) && Supplied(b.password) && UsernameTaken(us, b.username.value) &&
      check(FindByUsername(us, b.username.value).value.password_hash, b.password.value) &&
      FindByUsername(us, b.username.value).value.is_active
    ensures g.Admit? ==> g.user.username == b.username.value && g.user.id in us && us[g.user.id] == g.user
    ensures Supplied(b.username) && Supplied(b.password) && g.Reject? ==> g.outcome == Unauthorized
  {
    if !Supplied(b.username) || !Supplied(b.password) then Reject(BadRequest(CredentialsRequired))
    else
      match FindByUsername(us, b.username.value)
      case None => Reject(Unauthorized)
      case Some(user) =>
        if !check(user.password_hash, b.password.value) then Reject(Unauthorized)
        else if !user.is_active then Reject(Unauthorized)
        else Admit(user)
  }

  /** `login`: no guard, changes nothing; success answers with the account and a fresh token. */
  method Login(db: Db, b: LoginBody, check: (string, string) -> bool, clockExp: Timestamp, clockIat: Timestamp)
    returns (o: Outcome, session: Option<Session>)
    requires db.Valid()
    ensures Authenticate(db.users, b, check).Reject? ==>
      o == Authenticate(db.users, b, check).outcome && session == None
    ensures Authenticate(db.users, b, check).Admit? ==>
      o == Ok && session == Some(Session(Authenticate(db.users, b, check).user,
        GenerateClaims(Authenticate(db.users, b, check).user, clockExp, clockIat)))
  {
    var gate := Authenticate(db.users, b, check);
    if gate.Reject? {
      return gate.outcome, None;
    }
    o := Ok;
    session := Some(Session(gate.user, GenerateClaims(gate.user, clockExp, clockIat)));
  }

  /**
   * With a hasher whose hashes check against their own password, the
   * account registration stores lets the same username and password log
   * in, as that account.
   */
  lemma RegisterThenLogin(us: map<int, User>, id: int, b: RegisterBody, hasher: string -> string,
                          check: (string, string) -> bool)
    requires Accounts(us) && id !in us
    requires RegisterCheck(us, b).None?
    requires forall pw :: check(hasher(pw), pw)
    ensures Accounts(us[id := NewUser(id, b, hasher)])
    ensures Authenticate(us[id := NewUser(id, b, hasher)], LoginBody(b.username, b.password), check) ==
      Admit(NewUser(id, b, hasher))
  {
    var us' := us[id := NewUser(id, b, hasher)];
    assert us'[id].username == b.username.value;
    var found := FindByUsername(us', b.username.value);
    assert found == Some(NewUser(id, b, hasher));
  }

  // ----- GET /auth/me -----

  /** `get_current_user`: the caller's own record. */
  function Me(current: Option<User>): (r: (Outcome, Option<User>))
    ensures current.None? ==> r == (Unauthorized, None)
    ensures current.Some? ==> r == (Ok, current)
  {
    match RequireToken(current)
    case Reject(o) => (o, None)
    case Admit(user) => (Ok, Some(user))
  }

  // ----- POST /auth/change-password -----

  /** The first check `change_password` fails: both values non-empty, then the current password right. */
  function PasswordCheck(user: User, b: PasswordBody, check: (string, string) -> bool): (r: Option<Reason>)
    ensures r.None? <==>
      Supplied(b.current_password) && Supplied(b.new_password) && check(user.password_hash, b.current_password.value)
    ensures r == Some(WrongPassword) <==>
      Supplied(b.current_password) && Supplied(b.new_password) && !check(user.password_hash, b.current_password.value)
  {
    if !Supplied(b.current_password) || !Supplied(b.new_password) then Some(CredentialsRequired)
    else if !check(user.password_hash, b.current_password.value) then Some(WrongPassword)
    else None
  }

  /**
   * `change_password`: for the signed-in caller (whose record the token
   * resolved from the store), replaces only their password hash.
   */
  method ChangePassword(db: Db, current: Option<User>, b: PasswordBody, hasher: string -> string,
                        check: (string, string) -> bool) returns (o: Outcome)
    requires db.Valid()
    requires current.Some? ==> current.value.id in db.users && db.users[current.value.id] == current.value
    modifies db
    ensures db.Valid()
    ensures current.None? ==> o == Unauthorized && db.Snapshot() == old(db.Snapshot())
    ensures current.Some? && PasswordCheck(current.value, b, check).Some? ==>
      o == BadRequest(PasswordCheck(current.value, b, check).value) && db.Snapshot() == old(db.Snapshot())
    ensures o == Ok <==> current.Some? && PasswordCheck(current.value, b, check).None?
    ensures o == Ok ==>
      db.Snapshot() == old(db.Snapshot()).(users := old(db.users)[current.value.id :=
        current.value.(password_hash := hasher(b.new_password.value))])
  {
    var gate := RequireToken(current);
    if gate.Reject? {
      return gate.outcome;
    }
    var user := gate.user;
    var problem := PasswordCheck(user, b, check);
    if problem.Some? {
      return BadRequest(problem.value);
    }
    db.users := db.users[user.id := user.(password_hash := hasher(b.new_password.value))];
    o := Ok;
  }

  /** After a password change the new password logs in, for an active account, with a hasher whose hashes check. */
  lemma ChangedPasswordLogsIn(us: map<int, User>, user: User, b: PasswordBody, hasher: string -> string,
                              check: (string, string) -> bool)
    requires Accounts(us) && user.id in us && us[user.id] == user && user.is_active && user.username != ""
    requires PasswordCheck(user, b, check).None?
    requires forall pw :: check(hasher(pw), pw)
    ensures Accounts(us[user.id := user.(password_hash := hasher(b.new_password.value))])
    ensures Authenticate(us[user.id := user.(password_hash := hasher(b.new_password.value))],
      LoginBody(Given(user.username), b.new_password), check).Admit?
  {
    var us' := us[user.id := user.(password_hash := hasher(b.new_password.value))];
    assert us'[user.id].username == user.username;
    var found := FindByUsername(us', user.username);
    assert found.value.id == user.id;
  }

  // ----- GET /users, GET /users/<id> -----

  /** `get_users`: admin only; every account once, with their number. */
  method GetUsers(db: Db, current: Option<User>) returns (o: Outcome, data: seq<User>, count: int)
    ensures RequireRole(current, AdminOnly).Reject? ==>
      o == RequireRole(current, AdminOnly).outcome && data == [] && count == 0
    ensures RequireRole(current, AdminOnly).Admit? ==>
      o == Ok && count == |data| == |db.users| && forall u :: u in data <==> Stored(db.users, u)
  {
    var gate := RequireRole(current, AdminOnly);
    if gate.Reject? {
      return gate.outcome, [], 0;
    }
    var ids := AllIds(db.users);
    EnumeratesSize(ids, db.users);
    data := Rows(ids, db.users);
    forall u
      ensures u in data <==> Stored(db.users, u)
    {
      if Stored(db.users, u) {
        var id :| id in db.users && db.users[id] == u;
        var k :| 0 <= k < |ids| && ids[k] == id;
        assert data[k] == u;
      }
    }
    count := |data|;
    o := Ok;
  }

  /** `get_user`: admin only; the account, or 404 for a missing id. */
  function GetUser(users: map<int, User>, current: Option<User>, id: int): (r: (Outcome, Option<User>))
    ensures RequireRole(current, AdminOnly).Reject? ==> r == (RequireRole(current, AdminOnly).outcome, None)
    ensures RequireRole(current, AdminOnly).Admit? && id !in users ==> r == (NotFound, None)
    ensures r.0 == Ok <==> RequireRole(current, AdminOnly).Admit? && id in users
    ensures r.0 == Ok ==> r.1 == Some(users[id])
  {
    match RequireRole(current, AdminOnly)
    case Reject(o) => (o, None)
    case Admit(_) =>
      match GetOr404(users, id)
      case Raised(e) => (HandlerException(e), None)
      case Found(u) => (Ok, Some(u))
  }

  // ----- PUT /users/<id> -----

  /**
   * The first check `update_user` fails: a supplied role must be known; a
   * username or email is checked for clashes only when it differs from the
   * account's current one.
   */
  function UpdateCheck(us: map<int, User>, id: int, b: UserBody): (r: Option<Reason>)
    requires id in us
    ensures r.None? <==>
      (b.role.Given? ==> b.role.value in Roles) &&
      (b.username.Given? && b.username.value != us[id].username ==> !UsernameTaken(us, b.username.value)) &&
      (b.email.Given? && b.email.value != us[id].email ==> !EmailTaken(us, b.email.value))
    ensures b.username.Given? && b.username.value == us[id].username ==> r != Some(AlreadyExists("username"))
    ensures b.email.Given? && b.email.value == us[id].email ==> r != Some(AlreadyExists("email"))
  {
    if b.role.Given? && b.role.value !in Roles then Some(InvalidValue("role"))
    else if b.username.Given? && b.username.value != us[id].username && UsernameTaken(us, b.username.value) then
      Some(AlreadyExists("username"))
    else if b.email.Given? && b.email.value != us[id].email && EmailTaken(us, b.email.value) then
      Some(AlreadyExists("email"))
    else None
  }

  /** The account a successful update leaves: each supplied field replaced, the rest kept. */
  function Updated(u: User, b: UserBody): User
  {
    u.(username := Or(b.username, u.username), email := Or(b.email, u.email), role := Or(b.role, u.role),
       is_active := Or(b.is_active, u.is_active))
  }

  /** Only the supplied columns change; the id and the password hash never do, and a second update changes nothing more. */
  lemma UpdatedChangesOnlySupplied(u: User, b: UserBody)
    ensures Updated(u, b).id == u.id && Updated(u, b).password_hash == u.password_hash
    ensures b.username.Absent? ==> Updated(u, b).username == u.username
    ensures b.email.Absent? ==> Updated(u, b).email == u.email
    ensures b.role.Absent? ==> Updated(u, b).role == u.role
    ensures b.is_active.Absent? ==> Updated(u, b).is_active == u.is_active
    ensures Updated(Updated(u, b), b) == Updated(u, b)
  {
  }

  /** `update_user`: admin only; 404 for a missing id, 400 for a failed check, else the partial update. */
  method UpdateUser(db: Db, current: Option<User>, id: int, b: UserBody) returns (o: Outcome)
    requires db.Valid()
    modifies db
    ensures db.Valid()
    ensures RequireRole(current, AdminOnly).Reject? ==>
      o == RequireRole(current, AdminOnly).outcome && db.Snapshot() == old(db.Snapshot())
    ensures RequireRole(current, AdminOnly).Admit? && id !in old(db.users) ==>
      o == NotFound && db.Snapshot() == old(db.Snapshot())
    ensures RequireRole(current, AdminOnly).Admit? && id in old(db.users) && UpdateCheck(old(db.users), id, b).Some? ==>
      o == BadRequest(UpdateCheck(old(db.users), id, b).value) && db.Snapshot() == old(db.Snapshot())
    ensures o == Ok <==>
      RequireRole(current, AdminOnly).Admit? && id in old(db.users) && UpdateCheck(old(db.users), id, b).None?
    ensures o == Ok ==>
      db.Snapshot() == old(db.Snapshot()).(users := old(db.users)[id := Updated(old(db.users)[id], b)])
  {
    var gate := RequireRole(current, AdminOnly);
    if gate.Reject? {
      return gate.outcome;
    }
    var found := GetOr404(db.users, id);
    if found.Raised? {
      return HandlerException(found.error);
    }
    var problem := UpdateCheck(db.users, id, b);
    if problem.Some? {
      return BadRequest(problem.value);
    }
    var u := ApplyUpdate(found.value, b);
    db.users := db.users[id := u];
    o := Ok;
  }

  /** The assignments of `update_user`, one sent key after another. */
  method ApplyUpdate(u0: User, b: UserBody) returns (u: User)
    ensures u == Updated(u0, b)
  {
    u := u0;
    if b.username.Given? {
      u := u.(username := b.username.value);
    }
    if b.email.Given? {
      u := u.(email := b.email.value);
    }
    if b.role.Given? {
      u := u.(role := b.role.value);
    }
    if b.is_active.Given? {
      u := u.(is_active := b.is_active.value);
    }
  }

  // ----- DELETE /users/<id> -----

  /** `delete_user`: admin only; 404 for a missing id, 400 for the caller's own account, else removed. */
  method DeleteUser(db: Db, current: Option<User>, id: int) returns (o: Outcome)
    requires db.Valid()
    modifies db
    ensures db.Valid()
    ensures RequireRole(current, AdminOnly).Reject? ==> o == RequireRole(current, AdminOnly).outcome
    ensures RequireRole(current, AdminOnly).Admit? && id !in old(db.users) ==> o == NotFound
    ensures RequireRole(current, AdminOnly).Admit? && id in old(db.users) && id == current.value.id ==>
      o == BadRequest(SelfDelete)
    ensures o == Ok <==> RequireRole(current, AdminOnly).Admit? && id in old(db.users) && id != current.value.id
    ensures o == Ok ==> db.Snapshot() == old(db.Snapshot()).(users := old(db.users) - {id})
    ensures o != Ok ==> db.Snapshot() == old(db.Snapshot())
  {
    var gate := RequireRole(current, AdminOnly);
    if gate.Reject? {
      return gate.outcome;
    }
    var found := GetOr404(db.users, id);
    if found.Raised? {
      return HandlerException(found.error);
    }
    if found.value.id == gate.user.id {
      return BadRequest(SelfDelete);
    }
    db.users := db.users - {id};
    o := Ok;
  }
}
