/**
 * The API's authentication middleware: the `Authorization: Bearer` check,
 * the identity and profile lookups, the role check and the context getters.
 *
 * Supabase's `NewClient`/`Auth.GetUser` and the `profiles` role query are
 * oracles passed in as functions: `identify` maps a token to what the two
 * calls together produce, and `rolesOf` maps a user id to the decoded rows
 * of the profile query (`None` when the query or the decoding fails).
 */
module Middleware {
  import opened Common
  import Api

  /** What `NewClient` followed by `Auth.GetUser` produce for a token. */
  datatype Identity = ClientFailed | UserFailed | User(id: string)

  /** The request context's two values; `None` is a key that was never set. */
  datatype Ctx = Ctx(userId: Option<string>, role: Option<string>)

  /** Whether the wrapped handler runs, and with which context. */
  datatype Gate = Reject(status: int, error: string) | Pass(ctx: Ctx)

  const BearerPrefix := "Bearer "

  /** `strings.TrimPrefix`. */
  function TrimPrefix(s: string, prefix: string): (r: string)
    ensures StartsWith(s, prefix) ==> s == prefix + r
    ensures !StartsWith(s, prefix) ==> r == s
  {
    if StartsWith(s, prefix) then s[|prefix|..] else s
  }

  /** `AuthMiddleware`'s decision for one request. */
  function Authenticate(header: string, identify: string -> Identity, rolesOf: string -> Option<seq<string>>): (g: Gate)
    ensures header == "" ==> g == Reject(401, "Missing authorization header")
    ensures header != "" && !StartsWith(header, BearerPrefix) ==> g == Reject(401, "Invalid authorization format")
    ensures g.Pass? <==>
              && StartsWith(header, BearerPrefix)
              && identify(header[|BearerPrefix|..]).User?
              && var roles := rolesOf(identify(header[|BearerPrefix|..]).id);
                 roles.Some? && roles.value != []
    ensures g.Pass? ==> var id := identify(header[|BearerPrefix|..]).id;
              g.ctx == Ctx(Some(id), Some(rolesOf(id).value[0]))
    ensures StartsWith(header, BearerPrefix) && identify(header[|BearerPrefix|..]).ClientFailed? ==>
              g == Reject(401, "Invalid token")
    ensures StartsWith(header, BearerPrefix) && identify(header[|BearerPrefix|..]).UserFailed? ==>
              g == Reject(401, "Invalid or expired token")
    ensures StartsWith(header, BearerPrefix) && identify(header[|BearerPrefix|..]).User? ==>
              var roles := rolesOf(identify(header[|BearerPrefix|..]).id);
              (roles.None? || roles.value == []) ==> g == Reject(401, "User profile not found")
    ensures g.Reject? ==> g.status == 401
  {
    if header == "" then Reject(401, "Missing authorization header")
    else
      var token := TrimPrefix(header, BearerPrefix);
      if token == header then
        Reject(401, "Invalid authorization format")
      else
        match identify(token)
        case ClientFailed => Reject(401, "Invalid token")
        case UserFailed => Reject(401, "Invalid or expired token")
        case User(id) =>
          match rolesOf(id)
          case None => Reject(401, "User profile not found")
          case Some(roles) =>
            if |roles| == 0 then Reject(401, "User profile not found")
            else Pass(Ctx(Some(id), Some(roles[0])))
  }

  /** Removing a non-empty prefix always changes the string, so `token == header` means "no prefix". */
  lemma TrimChanges(s: string, prefix: string)
    requires prefix != []
    ensures TrimPrefix(s, prefix) == s <==> !StartsWith(s, prefix)
  {
    if StartsWith(s, prefix) {
      assert |TrimPrefix(s, prefix)| < |s|;
    }
  }

  /** The header `"Bearer " + t` hands exactly `t` to the identity lookup (one prefix removed, even an empty `t`). */
  lemma BearerToken(t: string, identify: string -> Identity, rolesOf: string -> Option<seq<string>>)
    ensures var g := Authenticate(BearerPrefix + t, identify, rolesOf);
            && (identify(t).ClientFailed? ==> g == Reject(401, "Invalid token"))
            && (identify(t).UserFailed? ==> g == Reject(401, "Invalid or expired token"))
            && (identify(t).User? && (rolesOf(identify(t).id).None? || rolesOf(identify(t).id).value == []) ==>
                  g == Reject(401, "User profile not found"))
            && (identify(t).User? && rolesOf(identify(t).id).Some? && rolesOf(identify(t).id).value != [] ==>
                  g == Pass(Ctx(Some(identify(t).id), Some(rolesOf(identify(t).id).value[0]))))
  {
    var h := BearerPrefix + t;
    assert h[..|BearerPrefix|] == BearerPrefix;
    assert h[|BearerPrefix|..] == t;
  }

  /** Every request the web client sends to a private endpoint gets past the header checks, carrying its stored token. */
  lemma ClientHeaderAccepted(call: Api.Call, token: Option<string>, origin: string,
                             identify: string -> Identity, rolesOf: string -> Option<seq<string>>)
    requires call.requiresAuth && Api.Prepare(call, token, origin).Some?
    ensures var header := Api.Prepare(call, token, origin).value.headers["Authorization"];
            var g := Authenticate(header, identify, rolesOf);
            && g != Reject(401, "Missing authorization header")
            && g != Reject(401, "Invalid authorization format")
            && (g.Pass? <==> identify(token.value).User? && rolesOf(identify(token.value).id).Some?
                             && rolesOf(identify(token.value).id).value != [])
  {
    var header := Api.Prepare(call, token, origin).value.headers["Authorization"];
    assert header == BearerPrefix + token.value;
    BearerToken(token.value, identify, rolesOf);
    assert header[..|BearerPrefix|] == BearerPrefix;
    assert header[|BearerPrefix|..] == token.value;
  }

  /** What `RequireRole(role)` decides: `None` runs the next handler. */
  function RequireRole(ctx: Ctx, role: string): (r: Option<(int, string)>)
    ensures r.None? <==> ctx.role == Some(role)
    ensures r.Some? ==> r.value == (403, "Insufficient permissions")
  {
    if ctx.role.None? || ctx.role.value != role then Some((403, "Insufficient permissions")) else None
  }

  /** `GetUserID`: the stored id, or `""` when none was stored. */
  function GetUserID(ctx: Ctx): (id: string)
    ensures ctx.userId.Some? ==> id == ctx.userId.value
    ensures ctx.userId.None? ==> id == ""
  {
    ctx.userId.GetOr("")
  }

  /** `GetUserRole`: the stored role, or `""` when none was stored. */
  function GetUserRole(ctx: Ctx): (role: string)
    ensures ctx.role.Some? ==> role == ctx.role.value
    ensures ctx.role.None? ==> role == ""
  {
    ctx.role.GetOr("")
  }

  /**
   * Behind the authentication middleware, a role-restricted route runs its
   * handler iff the caller's first profile row has that role, and the handler
   * then sees the caller's id and role through the getters.
   */
  lemma RoleRouteAdmits(header: string, identify: string -> Identity, rolesOf: string -> Option<seq<string>>, role: string)
    requires Authenticate(header, identify, rolesOf).Pass?
    ensures var ctx := Authenticate(header, identify, rolesOf).ctx;
            var id := identify(header[|BearerPrefix|..]).id;
            && (RequireRole(ctx, role).None? <==> rolesOf(id).value[0] == role)
            && GetUserID(ctx) == id
            && GetUserRole(ctx) == rolesOf(id).value[0]
  {
  }
}
