/**
 * The browser's sign-in state (`AuthManager` in auth.js): the token and the
 * user profile it keeps in memory, mirrored in local storage, the effect of
 * logging in and out and of re-checking the token, and the role tests the
 * pages use to show or hide controls.
 *
 * The network is a parameter: each method is given the answer its `fetch`
 * would have produced. Redirects and page rendering are not modelled.
 */
module ClientAuth {
  import opened Common

  /** The `user` object the API returns (`User.to_dict()`), as the page keeps it. */
  datatype Profile = Profile(id: int, username: string, email: string, role: string, is_active: bool)

  /** The answer to `POST /api/auth/login`: accepted with a token and profile, refused with a message, or no answer. */
  datatype LoginReply = Accepted(token: string, user: Profile) | Refused(message: string) | Unreachable

  /** What `login` resolves to. */
  datatype LoginResult = LoggedIn(user: Profile) | LoginFailed(message: string)

  /** The answer to `GET /api/auth/me`: the current profile, any non-success answer, or no answer. */
  datatype MeReply = Confirmed(user: Profile) | Denied | NoAnswer

  const NetworkErrorMessage: string := "Network error occurred"

  class AuthManager {
    var token: Option<string>
    var user: Option<Profile>
    /** The `token` and `user` entries of local storage. */
    var storedToken: Option<string>
    var storedUser: Option<Profile>

    /** Memory and local storage agree. */
    ghost predicate Synced()
      reads this
    {
      storedToken == token && storedUser == user
    }

    /** The constructor reads both entries back from local storage. */
    constructor (savedToken: Option<string>, savedUser: Option<Profile>)
      ensures token == savedToken && user == savedUser
      ensures Synced()
    {
      token, user := savedToken, savedUser;
      storedToken, storedUser := savedToken, savedUser;
    }

    /** Signed in: both a token and a user are held. */
    predicate IsAuthenticated()
      reads this
    {
      token.Some? && user.Some?
    }

    /** The held user has exactly this role; false with no user. */
    predicate HasRole(role: string)
      reads this
    {
      user.Some? && user.value.role == role
    }

    /** The held user's role is one of `roles`; false with no user. */
    predicate HasAnyRole(roles: seq<string>)
      reads this
    {
      user.Some? && user.value.role in roles
    }

    predicate IsAdmin()
      reads this
    {
      HasRole("admin")
    }

    predicate IsManager()
      reads this
    {
      HasRole("manager")
    }

    predicate IsDriver()
      reads this
    {
      HasRole("driver")
    }

    predicate CanManage()
      reads this
    {
      HasAnyRole(["admin", "manager"])
    }

    /** `login`: success stores exactly the returned token and user, anything else changes nothing. */
    method Login(reply: LoginReply) returns (r: LoginResult)
      requires Synced()
      modifies this
      ensures Synced()
      ensures reply.Accepted? ==>
        token == Some(reply.token) && user == Some(reply.user) && r == LoggedIn(reply.user) && IsAuthenticated()
      ensures !reply.Accepted? ==> token == old(token) && user == old(user) && r.LoginFailed?
      ensures reply.Refused? ==> r == LoginFailed(reply.message)
      ensures reply.Unreachable? ==> r == LoginFailed(NetworkErrorMessage)
    {
      match reply
      case Accepted(t, u) =>
        token, user := Some(t), Some(u);
        storedToken, storedUser := token, user;
        r := LoggedIn(u);
      case Refused(message) =>
        r := LoginFailed(message);
      case Unreachable =>
        r := LoginFailed(NetworkErrorMessage);
    }

    /** `logout`: forgets both token and user, in memory and in local storage. */
    method Logout()
      requires Synced()
      modifies this
      ensures Synced()
      ensures token == None && user == None
      ensures !IsAuthenticated() && !IsAdmin() && !IsManager() && !IsDriver() && !CanManage()
    {
      token, user := None, None;
      storedToken, storedUser := None, None;
    }

    /**
     * `checkTokenValidity`: false at once without a (non-empty) token; with
     * one, a confirmed profile replaces the held user, and any other answer
     * logs out.
     */
    method CheckTokenValidity(reply: MeReply) returns (valid: bool)
      requires Synced()
      modifies this
      ensures Synced()
      ensures (old(token).None? || old(token) == Some("")) ==> !valid && token == old(token) && user == old(user)
      ensures valid <==> old(token).Some? && old(token) != Some("") && reply.Confirmed?
      ensures valid ==> token == old(token) && user == Some(reply.user) && IsAuthenticated()
      ensures old(token).Some? && old(token) != Some("") && !reply.Confirmed? ==> token == None && user == None
    {
      if token.None? || token == Some("") {
        return false;
      }
      match reply
      case Confirmed(u) =>
        user := Some(u);
        storedUser := user;
        valid := true;
      case Denied =>
        Logout();
        valid := false;
      case NoAnswer =>
        Logout();
        valid := false;
    }

    /** The role tests: the three roles exclude each other, and managing means admin or manager. */
    lemma RoleTests()
      ensures CanManage() <==> IsAdmin() || IsManager()
      ensures !(IsAdmin() && IsManager()) && !(IsAdmin() && IsDriver()) && !(IsManager() && IsDriver())
      ensures user.None? ==> !HasRole("admin") && !HasAnyRole(["admin", "manager"])
      ensures IsDriver() ==> !CanManage()
    {
    }
  }
}
