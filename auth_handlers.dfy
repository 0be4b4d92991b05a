/**
 * `AuthHandler`: sign-up, sign-in and invitation acceptance.
 *
 * Supabase Auth (`Auth.Signup`, `SignInWithEmailPassword`) is an oracle whose
 * answer is a parameter: it fails with a message or yields a session. A
 * request body that does not decode is `None`.
 */
module AuthHandlers {
  import opened Common
  import opened Tables

  datatype SignupRequest = SignupRequest(email: string, password: string, fullName: string, role: string, phone: string)
  datatype LoginRequest = LoginRequest(email: string, password: string)
  datatype AcceptInviteRequest = AcceptInviteRequest(token: string, fullName: string, email: string, password: string, phone: string)

  /** What Supabase Auth answers. */
  datatype AuthResult = AuthFailed(message: string) | Session(userId: string, accessToken: string, refreshToken: string)

  datatype AuthResponse = AuthResponse(accessToken: string, refreshToken: string, user: Profile)

  /**
   * A `string` member as `encoding/json` fills it from the key its tag names:
   * an absent key or `null` leaves "", a string is taken, any other value
   * fails the decode.  Keys no member names are ignored.
   */
  function StringMember(fields: map<string, Json>, key: string): (s: Option<string>)
    ensures key !in fields ==> s == Some("")
    ensures key in fields && fields[key].JStr? ==> s == Some(fields[key].s)
    ensures s.None? <==> key in fields && !fields[key].JStr? && !fields[key].JNull?
  {
    if key !in fields then Some("")
    else match fields[key]
      case JStr(v) => Some(v)
      case JNull => Some("")
      case _ => None
  }

  /** Decoding a body into `SignupRequest` (tags `email`, `password`, `full_name`, `role`, `phone`); `None` is a failed decode. */
  function DecodeSignup(body: Json): (req: Option<SignupRequest>)
    ensures req.Some? ==> body.JObj?
    ensures req.Some? ==> "full_name" !in body.fields ==> req.value.fullName == ""
    ensures req.Some? ==> forall key :: key in {"email", "password", "full_name", "role", "phone"} ==> StringMember(body.fields, key).Some?
    ensures body.JObj? && (forall key :: key in body.fields ==> body.fields[key].JStr?) ==>
              req == Some(SignupRequest(StringMember(body.fields, "email").value, StringMember(body.fields, "password").value,
                                        StringMember(body.fields, "full_name").value, StringMember(body.fields, "role").value,
                                        StringMember(body.fields, "phone").value))
  {
    if !body.JObj? then None
    else
      var f := body.fields;
      match (StringMember(f, "email"), StringMember(f, "password"), StringMember(f, "full_name"), StringMember(f, "role"), StringMember(f, "phone"))
      case (Some(e), Some(pw), Some(n), Some(ro), Some(ph)) => Some(SignupRequest(e, pw, n, ro, ph))
      case _ => None
  }

  /** Decoding a body into `AcceptInviteRequest` (tags `token`, `full_name`, `email`, `password`, `phone`). */
  function DecodeAcceptInvite(body: Json): (req: Option<AcceptInviteRequest>)
    ensures req.Some? ==> body.JObj?
    ensures req.Some? ==> "full_name" !in body.fields ==> req.value.fullName == ""
    ensures req.Some? ==> forall key :: key in {"token", "full_name", "email", "password", "phone"} ==> StringMember(body.fields, key).Some?
    ensures body.JObj? && (forall key :: key in body.fields ==> body.fields[key].JStr?) ==>
              req == Some(AcceptInviteRequest(StringMember(body.fields, "token").value, StringMember(body.fields, "full_name").value,
                                              StringMember(body.fields, "email").value, StringMember(body.fields, "password").value,
                                              StringMember(body.fields, "phone").value))
  {
    if !body.JObj? then None
    else
      var f := body.fields;
      match (StringMember(f, "token"), StringMember(f, "full_name"), StringMember(f, "email"), StringMember(f, "password"), StringMember(f, "phone"))
      case (Some(t), Some(n), Some(e), Some(pw), Some(ph)) => Some(AcceptInviteRequest(t, n, e, pw, ph))
      case _ => None
  }

  /** The 400 that `Signup`'s field checks produce, if any. */
  function SignupError(req: SignupRequest): (e: Option<string>)
    ensures e.None? <==> req.email != "" && req.password != "" && req.fullName != "" && req.role in {"landlord", "tenant"}
    ensures (req.email == "" || req.password == "" || req.fullName == "" || req.role == "") <==>
            e == Some("Email, password, full_name, and role are required")
  {
    if req.email == "" || req.password == "" || req.fullName == "" || req.role == "" then
      Some("Email, password, full_name, and role are required")
    else if req.role != "landlord" && req.role != "tenant" then
      Some("Role must be 'landlord' or 'tenant'")
    else None
  }

  /** `Signup`: the profile insert is database call 0. */
  method Signup(store: Store, req: Option<SignupRequest>, auth: AuthResult, faults: Faults) returns (r: Reply<AuthResponse>)
    modifies store`profiles
    ensures req.None? ==> r == Fail(400, "Invalid request body")
    ensures req.Some? && SignupError(req.value).Some? ==> r == Fail(400, SignupError(req.value).value)
    ensures req.Some? && SignupError(req.value).None? && auth.AuthFailed? ==> r == Fail(400, "Signup failed: " + auth.message)
    ensures req.Some? && SignupError(req.value).None? && auth.Session? && 0 in faults ==>
              r == Fail(500, "Failed to create profile: " + faults[0])
    ensures r.Fail? ==> store.profiles == old(store.profiles)
    ensures r.Ok? <==> req.Some? && SignupError(req.value).None? && auth.Session? && 0 !in faults
    ensures r.Ok? ==>
              var q := req.value;
              && store.profiles == old(store.profiles) + [Profile(auth.userId, q.role, q.fullName, q.email, q.phone)]
              && r == Ok(201, AuthResponse(auth.accessToken, auth.refreshToken, Profile(auth.userId, q.role, q.fullName, q.email, "")))
  {
    if req.None? {
      return Fail(400, "Invalid request body");
    }
    var q := req.value;
    var invalid := SignupError(q);
    if invalid.Some? {
      return Fail(400, invalid.value);
    }
    if auth.AuthFailed? {
      return Fail(400, "Signup failed: " + auth.message);
    }
    if 0 in faults {
      return Fail(500, "Failed to create profile: " + faults[0]);
    }
    store.profiles := store.profiles + [Profile(auth.userId, q.role, q.fullName, q.email, q.phone)];
    r := Ok(201, AuthResponse(auth.accessToken, auth.refreshToken, Profile(auth.userId, q.role, q.fullName, q.email, "")));
  }

  /** A successful sign-up always has a landlord or tenant role. */
  lemma SignupRoles(req: SignupRequest)
    requires SignupError(req).None?
    ensures req.role == "landlord" || req.role == "tenant"
  {
  }

  /** `Login`: the profile query is database call 0; a missing profile row gives the zero-valued profile. */
  function Login(profiles: seq<Profile>, req: Option<LoginRequest>, auth: AuthResult, faults: Faults): (r: Reply<AuthResponse>)
    ensures req.None? ==> r == Fail(400, "Invalid request body")
    ensures req.Some? && (req.value.email == "" || req.value.password == "") ==> r == Fail(400, "Email and password are required")
    ensures req.Some? && req.value.email != "" && req.value.password != "" && auth.AuthFailed? ==> r == Fail(401, "Invalid credentials")
    ensures req.Some? && req.value.email != "" && req.value.password != "" && auth.Session? && 0 in faults ==>
              r == Fail(500, "Failed to fetch profile")
    ensures r.Ok? <==> req.Some? && req.value.email != "" && req.value.password != "" && auth.Session? && 0 !in faults
    ensures r.Ok? ==> r.status == 200 && r.data.accessToken == auth.accessToken && r.data.refreshToken == auth.refreshToken
    ensures r.Ok? ==> (r.data.user in profiles && r.data.user.id == auth.userId) ||
                      (r.data.user == Profile("", "", "", "", "") && forall p :: p in profiles ==> p.id != auth.userId)
  {
    if req.None? then Fail(400, "Invalid request body")
    else if req.value.email == "" || req.value.password == "" then Fail(400, "Email and password are required")
    else if auth.AuthFailed? then Fail(401, "Invalid credentials")
    else if 0 in faults then Fail(500, "Failed to fetch profile")
    else
      var found := FirstWhere(profiles, (p: Profile) => p.id == auth.userId);
      Ok(200, AuthResponse(auth.accessToken, auth.refreshToken, found.GetOr(Profile("", "", "", "", ""))))
  }

  /** The invitation `AcceptInvite` looks up: the first pending one with the token. */
  function PendingInvite(invitations: seq<Invitation>, token: string): (r: Option<Invitation>)
    ensures r.Some? ==> r.value in invitations && r.value.token == token && r.value.status == "pending"
    ensures r.None? <==> forall i :: i in invitations ==> i.token != token || i.status != "pending"
  {
    FirstWhere(invitations, (i: Invitation) => i.token == token && i.status == "pending")
  }

  /** The unit row after the tenant is linked to it. */
  function Occupied(u: Unit, tenant: string): (v: Unit)
    ensures v.tenantId == Some(tenant) && v.status == "occupied"
    ensures v.(tenantId := u.tenantId, status := u.status) == u
  {
    u.(tenantId := Some(tenant), status := "occupied")
  }

  function Accepted(i: Invitation): (v: Invitation)
    ensures v.status == "accepted" && v.(status := i.status) == i
  {
    i.(status := "accepted")
  }

  /** The `.Eq("id", …)` filters of the two updates, and the unit update itself. */
  function UnitWithId(id: string): Unit -> bool { (u: Unit) => u.id == id }
  function InviteWithId(id: string): Invitation -> bool { (i: Invitation) => i.id == id }
  function OccupiedBy(tenant: string): Unit -> Unit { (u: Unit) => Occupied(u, tenant) }

  /**
   * `AcceptInvite`: database calls are 0 the invitation lookup, then 1 the
   * profile insert, 2 the unit update and 3 the invitation update, whose
   * errors are ignored (a failed write changes nothing).
   */
  method AcceptInvite(store: Store, req: Option<AcceptInviteRequest>, auth: AuthResult, faults: Faults)
    returns (r: Reply<AuthResponse>)
    modifies store`profiles, store`units, store`invitations
    ensures req.None? ==> r == Fail(400, "Invalid request body")
    ensures req.Some? && (req.value.token == "" || req.value.email == "" || req.value.password == "" || req.value.fullName == "") ==>
              r == Fail(400, "Token, email, password, and full_name are required")
    ensures r.Fail? ==> unchanged(store`profiles, store`units, store`invitations)
    ensures r.Ok? <==>
              && req.Some? && req.value.token != "" && req.value.email != "" && req.value.password != "" && req.value.fullName != ""
              && 0 !in faults && PendingInvite(old(store.invitations), req.value.token).Some? && auth.Session?
    ensures req.Some? && req.value.token != "" && req.value.email != "" && req.value.password != "" && req.value.fullName != "" &&
            0 in faults ==>
              r == Fail(500, "Failed to lookup invitation")
    ensures req.Some? && req.value.token != "" && req.value.email != "" && req.value.password != "" && req.value.fullName != "" &&
            0 !in faults && PendingInvite(old(store.invitations), req.value.token).None? ==>
              r == Fail(404, "Invalid or expired invitation")
    ensures req.Some? && req.value.token != "" && req.value.email != "" && req.value.password != "" && req.value.fullName != "" &&
            0 !in faults && PendingInvite(old(store.invitations), req.value.token).Some? && auth.AuthFailed? ==>
              r == Fail(400, "Signup failed: " + auth.message)
    ensures r.Ok? ==>
              var q := req.value;
              var invite := PendingInvite(old(store.invitations), q.token).value;
              && r == Ok(201, AuthResponse(auth.accessToken, auth.refreshToken, Profile(auth.userId, "tenant", q.fullName, q.email, "")))
              && store.profiles == old(store.profiles) + (if 1 in faults then [] else [Profile(auth.userId, "tenant", q.fullName, q.email, q.phone)])
              && store.units == (if 2 in faults then old(store.units)
                                 else UpdateWhere(old(store.units), UnitWithId(invite.unitId), OccupiedBy(auth.userId)))
              && store.invitations == (if 3 in faults then old(store.invitations)
                                       else UpdateWhere(old(store.invitations), InviteWithId(invite.id), Accepted))
  {
    if req.None? {
      return Fail(400, "Invalid request body");
    }
    var q := req.value;
    if q.token == "" || q.email == "" || q.password == "" || q.fullName == "" {
      return Fail(400, "Token, email, password, and full_name are required");
    }
    if 0 in faults {
      return Fail(500, "Failed to lookup invitation");
    }
    var found := PendingInvite(store.invitations, q.token);
    if found.None? {
      return Fail(404, "Invalid or expired invitation");
    }
    var invite := found.value;
    if auth.AuthFailed? {
      return Fail(400, "Signup failed: " + auth.message);
    }
    var tenant := auth.userId;
    if 1 !in faults {
      store.profiles := store.profiles + [Profile(tenant, "tenant", q.fullName, q.email, q.phone)];
    }
    if 2 !in faults {
      store.units := UpdateWhere(store.units, UnitWithId(invite.unitId), OccupiedBy(tenant));
    }
    if 3 !in faults {
      store.invitations := UpdateWhere(store.invitations, InviteWithId(invite.id), Accepted);
    }
    r := Ok(201, AuthResponse(auth.accessToken, auth.refreshToken, Profile(tenant, "tenant", q.fullName, q.email, "")));
  }

  /**
   * When the three writes succeed, the invited unit is occupied by the new
   * tenant, the invitation is accepted and no longer pending, and every other
   * unit and invitation is as it was.
   */
  lemma AcceptanceTransition(units: seq<Unit>, invitations: seq<Invitation>, token: string, tenant: string)
    requires PendingInvite(invitations, token).Some?
    ensures var invite := PendingInvite(invitations, token).value;
            var units' := UpdateWhere(units, UnitWithId(invite.unitId), OccupiedBy(tenant));
            var invitations' := UpdateWhere(invitations, InviteWithId(invite.id), Accepted);
            && (forall k :: 0 <= k < |units| ==>
                  if units[k].id == invite.unitId then units'[k].tenantId == Some(tenant) && units'[k].status == "occupied"
                  else units'[k] == units[k])
            && (forall k :: 0 <= k < |invitations| ==>
                  if invitations[k].id == invite.id then invitations'[k].status == "accepted"
                  else invitations'[k] == invitations[k])
            && (forall i :: i in invitations' && i.id == invite.id ==> i.status != "pending")
  {
    var invite := PendingInvite(invitations, token).value;
    var invitations' := UpdateWhere(invitations, InviteWithId(invite.id), Accepted);
    forall i | i in invitations' && i.id == invite.id ensures i.status != "pending" {
      var k :| 0 <= k < |invitations'| && invitations'[k] == i;
    }
  }

  /** Once accepted, the same token no longer finds that invitation, so it cannot be accepted twice. */
  lemma AcceptOnce(invitations: seq<Invitation>, token: string)
    requires PendingInvite(invitations, token).Some?
    requires forall i, j :: 0 <= i < j < |invitations| ==> invitations[i].id != invitations[j].id
    requires forall i :: i in invitations && i.token == token ==> i.id == PendingInvite(invitations, token).value.id
    ensures var invite := PendingInvite(invitations, token).value;
            PendingInvite(UpdateWhere(invitations, InviteWithId(invite.id), Accepted), token).None?
  {
    var invite := PendingInvite(invitations, token).value;
    var after := UpdateWhere(invitations, InviteWithId(invite.id), Accepted);
    forall x | x in after ensures x.token != token || x.status != "pending" {
      var k :| 0 <= k < |after| && after[k] == x;
      if invitations[k].id == invite.id {
        assert x.status == "accepted";
      } else {
        assert x == invitations[k];
        assert x in invitations;
      }
    }
  }
}
