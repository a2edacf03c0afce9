/**
 * The admin dashboard's authentication context: the signed-in user, the
 * token and the `isAuthenticated` flag, kept in step with the token saved in
 * `localStorage` under `admin_token`.  The login request, `jwtDecode` and
 * the clock are parameters: each operation receives their outcome.
 */
module AdminAuth {
  import opened Wrappers

  datatype AdminUser = AdminUser(id: string, email: string, name: string, role: string)

  /** The claims `jwtDecode` reads from a token; `exp` is in seconds. */
  datatype Claims = Claims(sub: string, email: string, name: Option<string>, role: string, exp: Option<int>)

  /** The body of a successful `POST /auth/login`. */
  datatype LoginData = LoginData(accessToken: string, user: AdminUser)

  /** A thrown error: the HTTP status of the response, when there was one, and the message. */
  datatype LoginError = LoginError(status: Option<int>, message: string)

  /** The settled login request. */
  datatype LoginResponse = Answered(data: LoginData) | Refused(error: LoginError)

  const AdminRole: string := "admin"
  const UnauthorizedWord: string := "Unauthorized"
  const NotAdminMessage: string := UnauthorizedWord + ". Only admin users can access this dashboard."

  /** The error `login` throws for a non-admin account: it carries no HTTP status. */
  const NotAdminError: LoginError := LoginError(None, NotAdminMessage)

  /** `decodedToken.exp && decodedToken.exp < Date.now() / 1000`, with the clock in milliseconds. */
  predicate Expired(c: Claims, nowMs: int) {
    c.exp.Some? && c.exp.value != 0 && c.exp.value * 1000 < nowMs
  }

  /** The user the token effect builds from the claims: `name || ''`. */
  function ClaimsUser(c: Claims): AdminUser {
    AdminUser(c.sub, c.email, if c.name.Some? then c.name.value else "", c.role)
  }

  /** A token that is present and a non-empty string. */
  predicate Truthy(t: Option<string>) {
    t.Some? && t.value != ""
  }

  class AuthState {
    var user: Option<AdminUser>
    var token: Option<string>
    var isAuthenticated: bool
    /** The `admin_token` entry of `localStorage`. */
    var saved: Option<string>

    /**
     * What holds between the fields in every reachable state: the token is
     * the saved one, an authenticated state has a token, and a known user
     * implies an authenticated state.
     */
    ghost predicate Valid()
      reads this
    {
      && token == saved
      && (isAuthenticated ==> token.Some?)
      && (user.Some? ==> isAuthenticated)
    }

    /** The provider's initial state, read from `localStorage`: `!!token`. */
    constructor(stored: Option<string>)
      ensures token == stored && saved == stored && user == None
      ensures isAuthenticated <==> Truthy(stored)
      ensures Valid()
    {
      user := None;
      token := stored;
      saved := stored;
      isAuthenticated := Truthy(stored);
    }

    /** `handleLogout`: clear the saved token, the token and the user. */
    method HandleLogout()
      modifies this
      ensures saved == None && token == None && user == None && !isAuthenticated
      ensures Valid()
    {
      saved := None;
      token := None;
      user := None;
      isAuthenticated := false;
    }

    /**
     * The effect run when the token changes.  `decoded` is what `jwtDecode`
     * gives for the token, None when it throws.  A falsy token changes
     * nothing; an undecodable or expired one logs out; otherwise the user is
     * taken from the claims and the state is authenticated.
     */
    method TokenEffect(decoded: Option<Claims>, nowMs: int)
      modifies this
      ensures !Truthy(old(token)) ==>
        user == old(user) && token == old(token) && saved == old(saved) && isAuthenticated == old(isAuthenticated)
      ensures Truthy(old(token)) && (decoded.None? || Expired(decoded.value, nowMs)) ==>
        saved == None && token == None && user == None && !isAuthenticated
      ensures Truthy(old(token)) && decoded.Some? && !Expired(decoded.value, nowMs) ==>
        user == Some(ClaimsUser(decoded.value)) && isAuthenticated && token == old(token) && saved == old(saved)
      ensures old(Valid()) ==> Valid()
    {
      if Truthy(token) {
        if decoded.None? {
          HandleLogout();
        } else if Expired(decoded.value, nowMs) {
          HandleLogout();
        } else {
          user := Some(ClaimsUser(decoded.value));
          isAuthenticated := true;
        }
      }
    }

    /**
     * `login`: a refused request is rethrown; an account whose role is not
     * "admin" is refused with `NotAdminError`, in both cases before anything
     * is saved; an admin's token is saved and becomes the session.
     */
    method Login(response: LoginResponse) returns (thrown: Option<LoginError>)
      modifies this
      ensures response.Refused? ==> thrown == Some(response.error)
      ensures response.Answered? && response.data.user.role != AdminRole ==> thrown == Some(NotAdminError)
      ensures thrown.Some? ==>
        user == old(user) && token == old(token) && saved == old(saved) && isAuthenticated == old(isAuthenticated)
      ensures thrown.None? <==> response.Answered? && response.data.user.role == AdminRole
      ensures thrown.None? ==>
        var d := response.data;
        saved == Some(d.accessToken) && token == Some(d.accessToken) && user == Some(d.user) && isAuthenticated
      ensures old(Valid()) ==> Valid()
    {
      if response.Refused? {
        return Some(response.error);
      }
      var d := response.data;
      if d.user.role != AdminRole {
        return Some(NotAdminError);
      }
      saved := Some(d.accessToken);
      token := Some(d.accessToken);
      user := Some(d.user);
      isAuthenticated := true;
      thrown := None;
    }
  }

  /** After logging out, the token effect has nothing left to act on. */
  method LogoutIsFinal(a: AuthState, decoded: Option<Claims>, nowMs: int)
    modifies a
    ensures a.token == None && !a.isAuthenticated && a.user == None
  {
    a.HandleLogout();
    a.TokenEffect(decoded, nowMs);
  }
}
