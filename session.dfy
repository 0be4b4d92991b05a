/**
 * The client's session store (web/js/auth.js): two persisted keys,
 * `aletheia_token` and `aletheia_user`, and the window's location hash,
 * which every redirect assigns.
 */
module Auth {
  import opened Common

  /** The profile the server returns with a session (models.Profile). */
  datatype User = User(id: string, role: string, fullName: string, email: string)

  /** The body `save` reads: `access_token` and `user`. */
  datatype AuthResponse = AuthResponse(accessToken: string, refreshToken: string, user: User)

  const LoginHash := "#/login"
  const LandlordHome := "#/dashboard"
  const TenantHome := "#/tenant"

  /** `!!token`: a stored token counts only when it is non-empty. */
  predicate Authenticated(token: Option<string>) {
    token.Some? && token.value != ""
  }

  /** `user?.role || ''`. */
  function RoleOf(user: Option<User>): (r: string)
    ensures user.None? ==> r == ""
    ensures user.Some? ==> r == user.value.role
  {
    match user
    case None => ""
    case Some(u) => u.role
  }

  /** Where `redirectToDashboard` sends a user of this role. */
  function DashboardHash(role: string): (h: string)
    ensures h == LandlordHome <==> role == "landlord"
    ensures h == TenantHome <==> role != "landlord"
  {
    if role == "landlord" then LandlordHome else TenantHome
  }

  /** The decision `requireRole(wanted)` takes: its result and the hash it assigns, if any. */
  function RoleGuard(authenticated: bool, role: string, wanted: string): (r: (bool, Option<string>))
    ensures r.0 <==> authenticated && role == wanted
    ensures r.0 <==> r.1.None?
    ensures !authenticated ==> r.1 == Some(LoginHash)
    ensures authenticated && role != wanted ==> r.1 == Some(DashboardHash(role))
  {
    if !authenticated then (false, Some(LoginHash))
    else if role != wanted then (false, Some(DashboardHash(role)))
    else (true, None)
  }

  /** A guard never sends an authenticated user to the login page. */
  lemma GuardKeepsSignedInUsersOffLogin(role: string, wanted: string)
    ensures RoleGuard(true, role, wanted).1 != Some(LoginHash)
  {
    assert DashboardHash(role) != LoginHash;
  }

  class Session {
    /** `localStorage['aletheia_token']`. */
    var token: Option<string>
    /** `localStorage['aletheia_user']`, already parsed. */
    var user: Option<User>
    /** `window.location.hash`. */
    var hash: string

    function IsAuthenticated(): bool
      reads this
    {
      Authenticated(token)
    }

    function Role(): string
      reads this
    {
      RoleOf(user)
    }

    /** Whatever the browser's storage holds when the page loads. */
    constructor (token: Option<string>, user: Option<User>, hash: string)
      ensures this.token == token && this.user == user && this.hash == hash
    {
      this.token := token;
      this.user := user;
      this.hash := hash;
    }

    method Save(r: AuthResponse)
      modifies this
      ensures token == Some(r.accessToken) && user == Some(r.user)
      ensures hash == old(hash)
      ensures IsAuthenticated() <==> r.accessToken != ""
      ensures Role() == r.user.role
    {
      token := Some(r.accessToken);
      user := Some(r.user);
    }

    method Logout()
      modifies this
      ensures token.None? && user.None?
      ensures !IsAuthenticated() && Role() == ""
      ensures hash == LoginHash
    {
      token := None;
      user := None;
      hash := LoginHash;
    }

    method RedirectToDashboard()
      modifies this`hash
      ensures hash == DashboardHash(Role())
      ensures hash == LandlordHome <==> Role() == "landlord"
    {
      if Role() == "landlord" {
        hash := LandlordHome;
      } else {
        hash := TenantHome;
      }
    }

    method RequireAuth() returns (ok: bool)
      modifies this`hash
      ensures ok <==> IsAuthenticated()
      ensures ok ==> hash == old(hash)
      ensures !ok ==> hash == LoginHash
    {
      if !IsAuthenticated() {
        hash := LoginHash;
        return false;
      }
      return true;
    }

    method RequireRole(wanted: string) returns (ok: bool)
      modifies this`hash
      ensures ok == RoleGuard(IsAuthenticated(), Role(), wanted).0
      ensures hash == RoleGuard(IsAuthenticated(), Role(), wanted).1.GetOr(old(hash))
    {
      var signedIn := RequireAuth();
      if !signedIn {
        return false;
      }
      if Role() != wanted {
        RedirectToDashboard();
        return false;
      }
      return true;
    }
  }
}
