/**
 * Access control of the backend: the claims a token carries, token
 * verification, resolving the caller from the Authorization header, and the
 * two guards (`token_required`, `role_required` with its `admin_required` and
 * `admin_or_manager_required` instances).
 *
 * Signing and decoding are an oracle: `decode` stands for `jwt.decode` with
 * the process secret minus its expiry check, answering `None` for a malformed
 * token or a bad signature. The clock is a parameter.
 */
module Auth {
  import opened Common
  import opened Models

  /** The payload of a token. */
  datatype Claims = Claims(user_id: int, username: string, role: string, exp: Timestamp, iat: Timestamp)

  /** `timedelta(hours=24)` in seconds. */
  const TokenLifetime: int := 24 * 60 * 60

  /**
   * The payload `generate_token` signs. The source reads the clock twice:
   * `clockExp` is the first `utcnow()` (for `exp`), `clockIat` the second (for `iat`).
   */
  function GenerateClaims(user: User, clockExp: Timestamp, clockIat: Timestamp): (c: Claims)
    ensures c.user_id == user.id && c.username == user.username && c.role == user.role
    ensures c.exp == clockExp + TokenLifetime && c.iat == clockIat
    ensures clockExp <= clockIat ==> c.exp - c.iat <= TokenLifetime
    ensures clockExp == clockIat ==> c.exp - c.iat == TokenLifetime
  {
    Claims(user.id, user.username, user.role, clockExp + TokenLifetime, clockIat)
  }

  /**
   * `verify_token`: the payload for a well-signed, unexpired token; `None` both
   * for an expired one and for any other invalid one. PyJWT rejects a token
   * once `exp <= now`.
   */
  function VerifyToken(token: string, now: Timestamp, decode: string -> Option<Claims>): (r: Option<Claims>)
    ensures r.Some? <==> decode(token).Some? && now < decode(token).value.exp
    ensures r.Some? ==> r == decode(token)
  {
    match decode(token)
    case None => None
    case Some(payload) => if payload.exp <= now then None else Some(payload)
  }

  /** A freshly issued token verifies, with the user's claims, until 24 hours after the first clock read. */
  lemma IssuedTokenLifetime(user: User, clockExp: Timestamp, clockIat: Timestamp, now: Timestamp,
                            sign: Claims -> string, decode: string -> Option<Claims>)
    requires decode(sign(GenerateClaims(user, clockExp, clockIat))) == Some(GenerateClaims(user, clockExp, clockIat))
    ensures var r := VerifyToken(sign(GenerateClaims(user, clockExp, clockIat)), now, decode);
      (r.Some? <==> now < clockExp + TokenLifetime) &&
      (r.Some? ==> r.value.user_id == user.id && r.value.role == user.role)
  {
  }

  // ----- the Authorization header -----

  /** Python's `s.split(sep)` with an explicit separator: empty parts are kept. */
  function Split(s: string, sep: char): (parts: seq<string>)
    ensures |parts| >= 1
    ensures forall i :: 0 <= i < |parts| ==> sep !in parts[i]
  {
    if s == [] then [""]
    else
      var rest := Split(s[1..], sep);
      if s[0] == sep then [""] + rest else [[s[0]] + rest[0]] + rest[1..]
  }

  /** `sep.join(parts)`. */
  function Join(parts: seq<string>, sep: char): string
    requires |parts| >= 1
  {
    if |parts| == 1 then parts[0] else parts[0] + [sep] + Join(parts[1..], sep)
  }

  /** Splitting loses nothing: joining the parts rebuilds the header. */
  lemma {:induction false} JoinSplit(s: string, sep: char)
    ensures Join(Split(s, sep), sep) == s
  {
    if s != [] {
      JoinSplit(s[1..], sep);
      var rest := Split(s[1..], sep);
      if s[0] != sep {
        if |rest| == 1 {
        } else {
          assert Join([[s[0]] + rest[0]] + rest[1..], sep) == [s[0]] + rest[0] + [sep] + Join(rest[1..], sep);
        }
      }
    }
  }

  /** Splitting a join of separator-free parts gives the parts back. */
  lemma {:induction false} SplitJoin(parts: seq<string>, sep: char)
    requires |parts| >= 1
    requires forall i :: 0 <= i < |parts| ==> sep !in parts[i]
    ensures Split(Join(parts, sep), sep) == parts
    decreases |parts|, |parts[0]|
  {
    if |parts| == 1 {
      SplitNoSep(parts[0], sep);
    } else if parts[0] == [] {
      SplitJoin(parts[1..], sep);
      assert Join(parts, sep) == [sep] + Join(parts[1..], sep);
      assert Join(parts, sep)[1..] == Join(parts[1..], sep);
    } else {
      var c := parts[0][0];
      var shorter := [parts[0][1..]] + parts[1..];
      SplitJoin(shorter, sep);
      assert Join(shorter, sep) == parts[0][1..] + [sep] + Join(parts[1..], sep);
      assert Join(parts, sep) == [c] + Join(shorter, sep);
      assert Join(parts, sep)[1..] == Join(shorter, sep);
      assert [c] + parts[0][1..] == parts[0];
    }
  }

  lemma {:induction false} SplitNoSep(s: string, sep: char)
    requires sep !in s
    ensures Split(s, sep) == [s]
  {
    if s != [] {
      SplitNoSep(s[1..], sep);
      assert [s[0]] + s[1..] == s;
    }
  }

  /** The token taken from the header: `auth_header.split(" ")[1]`, `None` on `IndexError`. */
  function HeaderToken(header: string): (t: Option<string>)
    ensures t.None? <==> ' ' !in header
  {
    SplitSingleIffNoSep(header, ' ');
    var parts := Split(header, ' ');
    if |parts| < 2 then None else Some(parts[1])
  }

  lemma {:induction false} SplitSingleIffNoSep(s: string, sep: char)
    ensures |Split(s, sep)| == 1 <==> sep !in s
  {
    if s != [] {
      SplitSingleIffNoSep(s[1..], sep);
    }
  }

  /** Any first word is accepted as the scheme: the token is the second space-separated word. */
  lemma SchemeNotChecked(scheme: string, token: string)
    requires ' ' !in scheme && ' ' !in token
    ensures HeaderToken(scheme + " " + token) == Some(token)
  {
    SplitJoin([scheme, token], ' ');
    assert Join([scheme, token], ' ') == scheme + " " + token;
  }

  /**
   * `get_current_user`: `None` without a header, without a second word, with an
   * empty second word, when the token does not verify, or when its user is gone.
   */
  function CurrentUser(header: Option<string>, now: Timestamp, decode: string -> Option<Claims>,
                       users: map<int, User>): (u: Option<User>)
    ensures u.Some? <==>
      header.Some? && HeaderToken(header.value).Some? && HeaderToken(header.value).value != "" &&
      VerifyToken(HeaderToken(header.value).value, now, decode).Some? &&
      VerifyToken(HeaderToken(header.value).value, now, decode).value.user_id in users
    ensures u.Some? ==> u.value == users[VerifyToken(HeaderToken(header.value).value, now, decode).value.user_id]
  {
    if header.None? then None
    else
      match HeaderToken(header.value)
      case None => None
      case Some(token) =>
        if token == "" then None
        else
          match VerifyToken(token, now, decode)
          case None => None
          case Some(payload) => if payload.user_id in users then Some(users[payload.user_id]) else None
  }

  // ----- the guards -----

  /** What a guard decides: run the handler with this user, or answer at once. */
  datatype Gate = Admit(user: User) | Reject(outcome: Outcome)

  /** `token_required`. */
  function RequireToken(current: Option<User>): (g: Gate)
    ensures g.Reject? <==> current.None?
    ensures g.Reject? ==> g.outcome == Unauthorized
    ensures g.Admit? ==> g.user == current.value
  {
    if current.None? then Reject(Unauthorized) else Admit(current.value)
  }

  /** `role_required(*allowed)`: 401 is decided before 403. */
  function RequireRole(current: Option<User>, allowed: set<string>): (g: Gate)
    ensures current.None? ==> g == Reject(Unauthorized)
    ensures g.Admit? <==> current.Some? && current.value.role in allowed
    ensures g.Admit? ==> g.user == current.value
    ensures current.Some? && current.value.role !in allowed ==> g == Reject(Forbidden)
  {
    match RequireToken(current)
    case Reject(o) => Reject(o)
    case Admit(user) => if user.role in allowed then Admit(user) else Reject(Forbidden)
  }

  const AdminOnly: set<string> := {"admin"}
  const AdminOrManager: set<string> := {"admin", "manager"}

  /** A decorated handler: the guard's answer, or the handler run with exactly the admitted user. */
  function Guarded(g: Gate, handler: User -> Outcome): Outcome
  {
    match g
    case Reject(o) => o
    case Admit(user) => handler(user)
  }

  /** `admin_required` runs the handler for an admin and for nobody else. */
  lemma AdminRequiredAdmitsOnlyAdmin(current: Option<User>, handler: User -> Outcome)
    ensures RequireRole(current, AdminOnly).Admit? <==> current.Some? && current.value.role == "admin"
    ensures current.Some? && current.value.role == "manager" ==>
      Guarded(RequireRole(current, AdminOnly), handler) == Forbidden
    ensures current.Some? && current.value.role == "admin" ==>
      Guarded(RequireRole(current, AdminOnly), handler) == handler(current.value)
  {
  }

  /** `admin_or_manager_required` admits exactly the admin and manager roles. */
  lemma AdminOrManagerAdmits(current: Option<User>)
    ensures RequireRole(current, AdminOrManager).Admit? <==>
      current.Some? && (current.value.role == "admin" || current.value.role == "manager")
  {
  }
}
