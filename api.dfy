/**
 * The API client (web/js/api.js): the decision logic of `api.request` (the
 * authentication gate, the headers, the body, the URL and the error chosen
 * for a failed response) and the method, path and authentication flag of
 * each named wrapper.  `fetch` and `res.json()` are one abstract input.
 */
module Api {
  import opened Common
  import opened Query
  import Auth

  datatype Method = GET | POST | PUT

  /** The arguments of `api.request(method, path, body, requiresAuth)`; `JNull` is the default body. */
  datatype Call = Call(verb: Method, path: string, body: Json, requiresAuth: bool)

  /** What is handed to `fetch`: the URL and the `{ method, headers, body }` options. */
  datatype HttpRequest = HttpRequest(verb: Method, url: string, headers: map<string, string>, body: Option<Json>)

  /** What `fetch` and `res.json()` together produce: a rejected fetch, or a status and a body that parsed or not. */
  datatype FetchResult = NetworkFailure | Response(ok: bool, body: Option<Json>)

  /** Why a request threw: no session, the server's error, or an engine error (network, bad JSON, `null.error`). */
  datatype Reason = NotAuthenticated | HttpError(error: Json) | EngineError

  datatype Outcome = Returned(data: Json) | Threw(reason: Reason)

  /** `API_BASE` is the page's origin followed by this prefix. */
  const ApiPrefix := "/api"

  /** The request `api.request` sends, or `None` when the gate stops it before `fetch`. */
  function Prepare(call: Call, token: Option<string>, origin: string): (r: Option<HttpRequest>)
    ensures r.None? <==> call.requiresAuth && !Auth.Authenticated(token)
    ensures r.Some? ==> r.value.verb == call.verb && r.value.url == origin + ApiPrefix + call.path
    ensures r.Some? ==> "Content-Type" in r.value.headers && r.value.headers["Content-Type"] == "application/json"
    ensures r.Some? ==> ("Authorization" in r.value.headers <==> call.requiresAuth)
    ensures r.Some? && call.requiresAuth ==> r.value.headers["Authorization"] == "Bearer " + token.value
    ensures r.Some? ==> r.value.headers.Keys <= {"Content-Type", "Authorization"}
    ensures r.Some? ==> (r.value.body.Some? <==> Truthy(call.body))
    ensures r.Some? && r.value.body.Some? ==> r.value.body.value == call.body
  {
    if call.requiresAuth && !Auth.Authenticated(token) then None
    else
      var headers := map["Content-Type" := "application/json"];
      var headers := if call.requiresAuth then headers["Authorization" := "Bearer " + token.value] else headers;
      Some(HttpRequest(call.verb, origin + ApiPrefix + call.path, headers, if Truthy(call.body) then Some(call.body) else None))
  }

  /** `data.error || 'Request failed'`, where reading `.error` of `null` throws. */
  function ErrorOf(data: Json): (r: Reason)
    ensures data == JNull <==> r == EngineError
    ensures r.HttpError? ==> Truthy(r.error) || r.error == JStr("Request failed")
    ensures r.HttpError? && Field(data, "error").Some? && Truthy(Field(data, "error").value) ==>
              r.error == Field(data, "error").value
    ensures data != JNull && (Field(data, "error").None? || !Truthy(Field(data, "error").value)) ==>
              r == HttpError(JStr("Request failed"))
  {
    if data == JNull then EngineError
    else
      match Field(data, "error")
      case Some(e) => if Truthy(e) then HttpError(e) else HttpError(JStr("Request failed"))
      case None => HttpError(JStr("Request failed"))
  }

  /** What `request` does with the outcome of `fetch`. */
  function Receive(f: FetchResult): (o: Outcome)
    ensures o.Returned? <==> f.Response? && f.ok && f.body.Some?
    ensures o.Returned? ==> o.data == f.body.value
    ensures o.Threw? ==> o.reason != NotAuthenticated
    ensures f.Response? && !f.ok && f.body.Some? && f.body.value != JNull ==> o.Threw? && o.reason.HttpError?
    ensures f.Response? && !f.ok && f.body.Some? ==> o == Threw(ErrorOf(f.body.value))
    ensures f.NetworkFailure? || (f.Response? && f.body.None?) ==> o == Threw(EngineError)
  {
    match f
    case NetworkFailure => Threw(EngineError)
    case Response(ok, body) =>
      if body.None? then Threw(EngineError)
      else if !ok then Threw(ErrorOf(body.value))
      else Returned(body.value)
  }

  /**
   * The handlers answer every failure with the body `{"error": message}`:
   * a non-ok response carrying one throws that message, or the fallback
   * when the message is empty.
   */
  lemma ServerErrorThrown(msg: string)
    ensures var body := JObj(map["error" := JStr(msg)]);
            Receive(Response(false, Some(body))) ==
              Threw(HttpError(JStr(if msg != "" then msg else "Request failed")))
  {
  }

  /**
   * `api.request`: builds the headers in place, stops with `#/login` and
   * `'Not authenticated'` when a token is needed and missing, and otherwise
   * sends the request and maps the response.
   */
  method Request(session: Auth.Session, call: Call, origin: string, fetch: FetchResult)
      returns (sent: Option<HttpRequest>, out: Outcome)
    modifies session`hash
    ensures sent == Prepare(call, session.token, origin)
    ensures sent.None? ==> out == Threw(NotAuthenticated) && session.hash == Auth.LoginHash
    ensures sent.Some? ==> out == Receive(fetch) && session.hash == old(session.hash)
  {
    var headers := map["Content-Type" := "application/json"];
    if call.requiresAuth {
      var token := session.token;
      if !Auth.Authenticated(token) {
        session.hash := Auth.LoginHash;
        return None, Threw(NotAuthenticated);
      }
      headers := headers["Authorization" := "Bearer " + token.value];
    }
    var body := None;
    if Truthy(call.body) {
      body := Some(call.body);
    }
    sent := Some(HttpRequest(call.verb, origin + ApiPrefix + call.path, headers, body));
    out := Receive(fetch);
  }

  // ---------------------------------------------------------------------
  // encodeURIComponent
  // ---------------------------------------------------------------------

  /** The characters `encodeURIComponent` leaves alone. */
  predicate Unreserved(c: char) {
    ('A' <= c <= 'Z') || ('a' <= c <= 'z') || ('0' <= c <= '9') ||
    c == '-' || c == '_' || c == '.' || c == '!' || c == '~' || c == '*' || c == '\'' || c == '(' || c == ')'
  }

  /** An upper-case hexadecimal digit. */
  function HexUpper(d: nat): (c: char)
    requires d < 16
    ensures ('0' <= c <= '9') || ('A' <= c <= 'F')
  {
    if d < 10 then ('0' as int + d) as char else ('A' as int + d - 10) as char
  }

  /** The value of an upper-case hexadecimal digit. */
  function HexUpperValue(c: char): (v: Option<nat>)
    ensures v.Some? <==> ('0' <= c <= '9') || ('A' <= c <= 'F')
    ensures v.Some? ==> v.value < 16
  {
    if '0' <= c <= '9' then Some(c as int - '0' as int)
    else if 'A' <= c <= 'F' then Some(c as int - 'A' as int + 10)
    else None
  }

  /** Each digit is read back as its value, and each digit character is written by exactly its value. */
  lemma HexUpperRoundTrip(d: nat, c: char)
    requires d < 16
    ensures HexUpperValue(HexUpper(d)) == Some(d)
    ensures HexUpperValue(c) == Some(d) ==> HexUpper(d) == c
  {
  }

  /** The byte two upper-case digits denote. */
  function HexPair(hi: char, lo: char): (b: Option<nat>)
    ensures b.Some? ==> b.value < 256
  {
    match (HexUpperValue(hi), HexUpperValue(lo))
    case (Some(h), Some(l)) => Some(h * 16 + l)
    case _ => None
  }

  /** How many bytes a UTF-8 sequence with this lead byte has. */
  function Utf8Length(lead: nat): nat {
    if lead < 0x80 then 1 else if lead < 0xE0 then 2 else if lead < 0xF0 then 3 else 4
  }

  /** The code point a UTF-8 sequence of one to four bytes encodes. */
  function Utf8Value(bytes: seq<nat>): int
    requires 1 <= |bytes| <= 4
  {
    var b0: int, last: int := bytes[0], bytes[|bytes| - 1];
    if |bytes| == 1 then b0
    else if |bytes| == 2 then (b0 - 0xC0) * 0x40 + (last - 0x80)
    else if |bytes| == 3 then (b0 - 0xE0) * 0x1000 + (bytes[1] as int - 0x80) * 0x40 + (last - 0x80)
    else (b0 - 0xF0) * 0x40000 + (bytes[1] as int - 0x80) * 0x1000 + (bytes[2] as int - 0x80) * 0x40 + (last - 0x80)
  }

  /** The UTF-8 bytes of one Unicode scalar value: the lead byte gives the length, and the bytes decode to the character. */
  function Utf8(c: char): (bytes: seq<nat>)
    ensures 1 <= |bytes| <= 4
    ensures forall k :: 0 <= k < |bytes| ==> bytes[k] < 256
    ensures |bytes| == Utf8Length(bytes[0])
    ensures Utf8Value(bytes) == c as int
  {
    var n := c as int;
    if n < 0x80 then [n]
    else if n < 0x800 then Utf8Two(n); [0xC0 + n / 0x40, 0x80 + n % 0x40]
    else if n < 0x10000 then Utf8Three(n); [0xE0 + n / 0x1000, 0x80 + (n / 0x40) % 0x40, 0x80 + n % 0x40]
    else Utf8Four(n); [0xF0 + n / 0x40000, 0x80 + (n / 0x1000) % 0x40, 0x80 + (n / 0x40) % 0x40, 0x80 + n % 0x40]
  }

  lemma Utf8Two(n: nat)
    requires 0x80 <= n < 0x800
    ensures var bytes := [0xC0 + n / 0x40, 0x80 + n % 0x40];
            && (forall k :: 0 <= k < 2 ==> bytes[k] < 256)
            && Utf8Length(bytes[0]) == 2 && Utf8Value(bytes) == n
  {
  }

  lemma Utf8Three(n: nat)
    requires 0x800 <= n < 0x10000
    ensures var bytes := [0xE0 + n / 0x1000, 0x80 + (n / 0x40) % 0x40, 0x80 + n % 0x40];
            && (forall k :: 0 <= k < 3 ==> bytes[k] < 256)
            && Utf8Length(bytes[0]) == 3 && Utf8Value(bytes) == n
  {
    assert n / 0x40 == (n / 0x1000) * 0x40 + (n / 0x40) % 0x40;
  }

  lemma Utf8Four(n: nat)
    requires 0x10000 <= n < 0x11_0000
    ensures var bytes := [0xF0 + n / 0x40000, 0x80 + (n / 0x1000) % 0x40, 0x80 + (n / 0x40) % 0x40, 0x80 + n % 0x40];
            && (forall k :: 0 <= k < 4 ==> bytes[k] < 256)
            && Utf8Length(bytes[0]) == 4 && Utf8Value(bytes) == n
  {
    var a, b, c, d := n / 0x40000, (n / 0x1000) % 0x40, (n / 0x40) % 0x40, n % 0x40;
    assert n / 0x1000 == a * 0x40 + b;
    assert n / 0x40 == (n / 0x1000) * 0x40 + c;
    assert n == (n / 0x40) * 0x40 + d;
    assert n == a * 0x40000 + b * 0x1000 + c * 0x40 + d;
  }

  /** Each byte as `%` and two upper-case digits. */
  function PercentBytes(bytes: seq<nat>): (r: string)
    requires forall k :: 0 <= k < |bytes| ==> bytes[k] < 256
    ensures |r| == 3 * |bytes|
    ensures forall k :: 0 <= k < |r| ==> r[k] == '%' || ('0' <= r[k] <= '9') || ('A' <= r[k] <= 'F')
  {
    if bytes == [] then []
    else ['%', HexUpper(bytes[0] / 16), HexUpper(bytes[0] % 16)] + PercentBytes(bytes[1..])
  }

  /** The bytes a run of `%XY` triples denotes. */
  function PercentDecode(r: string): (bytes: Option<seq<nat>>)
    ensures bytes.Some? ==> 3 * |bytes.value| == |r|
    decreases |r|
  {
    if r == [] then Some([])
    else if |r| < 3 || r[0] != '%' then None
    else
      match (HexPair(r[1], r[2]), PercentDecode(r[3..]))
      case (Some(b), Some(rest)) => Some([b] + rest)
      case _ => None
  }

  /** The triples decode back to the bytes. */
  lemma {:induction false} PercentRoundTrip(bytes: seq<nat>)
    requires forall k :: 0 <= k < |bytes| ==> bytes[k] < 256
    ensures PercentDecode(PercentBytes(bytes)) == Some(bytes)
  {
    if bytes != [] {
      var b := bytes[0];
      var r := PercentBytes(bytes);
      HexUpperRoundTrip(b / 16, ' ');
      HexUpperRoundTrip(b % 16, ' ');
      assert HexPair(r[1], r[2]) == Some(b);
      assert r[3..] == PercentBytes(bytes[1..]);
      PercentRoundTrip(bytes[1..]);
      assert [b] + bytes[1..] == bytes;
    }
  }

  predicate ScalarValue(v: int) {
    (0 <= v < 0xD800) || (0xE000 <= v < 0x11_0000)
  }

  /** `decodeURIComponent`, for text made of unreserved characters and complete `%`-escaped UTF-8 sequences. */
  function DecodeURIComponent(r: string): (s: Option<string>)
    decreases |r|
  {
    if r == [] then Some([])
    else if r[0] != '%' then
      match DecodeURIComponent(r[1..])
      case Some(rest) => Some([r[0]] + rest)
      case None => None
    else if |r| < 3 || HexPair(r[1], r[2]).None? then None
    else
      var n := Utf8Length(HexPair(r[1], r[2]).value);
      if |r| < 3 * n then None
      else
        match (PercentDecode(r[..3 * n]), DecodeURIComponent(r[3 * n..]))
        case (Some(bytes), Some(rest)) =>
          var v := Utf8Value(bytes);
          if ScalarValue(v) then Some([v as char] + rest) else None
        case _ => None
  }

  /** `encodeURIComponent(s)` (characters are scalar values, so no lone surrogate can occur). */
  function EncodeURIComponent(s: string): (r: string)
    ensures |r| >= |s|
    ensures forall k :: 0 <= k < |r| ==> Unreserved(r[k]) || r[k] == '%'
  {
    if s == [] then []
    else
      var head := if Unreserved(s[0]) then [s[0]] else PercentBytes(Utf8(s[0]));
      head + EncodeURIComponent(s[1..])
  }

  /** Decoding undoes encoding, character by character. */
  lemma {:induction false} DecodeEncodeURI(s: string)
    ensures DecodeURIComponent(EncodeURIComponent(s)) == Some(s)
  {
    if s != [] {
      DecodeEncodeURI(s[1..]);
      if Unreserved(s[0]) {
        DecodeUnreserved(s[0], EncodeURIComponent(s[1..]), s[1..]);
      } else {
        DecodeEscaped(s[0], EncodeURIComponent(s[1..]), s[1..]);
      }
      assert [s[0]] + s[1..] == s;
    }
  }

  lemma DecodeUnreserved(c: char, rest: string, t: string)
    requires Unreserved(c) && DecodeURIComponent(rest) == Some(t)
    ensures DecodeURIComponent([c] + rest) == Some([c] + t)
  {
    assert ([c] + rest)[1..] == rest;
  }

  /** The escapes of one character decode to it, whatever follows. */
  lemma DecodeEscaped(c: char, rest: string, t: string)
    requires DecodeURIComponent(rest) == Some(t)
    ensures DecodeURIComponent(PercentBytes(Utf8(c)) + rest) == Some([c] + t)
  {
    var bytes := Utf8(c);
    var head := PercentBytes(bytes);
    var r := head + rest;
    var n := |bytes|;
    assert r[0] == '%' && r[1] == head[1] && r[2] == head[2];
    HexUpperRoundTrip(bytes[0] / 16, ' ');
    HexUpperRoundTrip(bytes[0] % 16, ' ');
    assert HexPair(r[1], r[2]) == Some(bytes[0]);
    assert r[..3 * n] == head && r[3 * n..] == rest;
    PercentRoundTrip(bytes);
    assert Utf8Value(bytes) == c as int;
  }

  /** Distinct texts encode differently, so distinct file URLs give distinct upload queries. */
  lemma EncodeInjective(a: string, b: string)
    requires EncodeURIComponent(a) == EncodeURIComponent(b)
    ensures a == b
  {
    DecodeEncodeURI(a);
    DecodeEncodeURI(b);
  }

  /** Text made of unreserved characters passes through unchanged. */
  lemma {:induction false} EncodeUnreservedIdentity(s: string)
    requires forall k :: 0 <= k < |s| ==> Unreserved(s[k])
    ensures EncodeURIComponent(s) == s
  {
    if s != [] {
      EncodeUnreservedIdentity(s[1..]);
      assert [s[0]] + s[1..] == s;
    }
  }

  // ---------------------------------------------------------------------
  // The named wrappers
  // ---------------------------------------------------------------------

  datatype Endpoint =
    | Signup(body: Json)
    | Login(body: Json)
    | AcceptInvite(body: Json)
    | LandlordDashboard
    | TenantDashboard
    | ListBuildings
    | GetBuilding(id: string)
    | CreateBuilding(body: Json)
    | UpdateBuilding(id: string, body: Json)
    | ListUnits(buildingId: string)
    | CreateUnit(body: Json)
    | InitializePayment(body: Json)
    | ListPayments(params: string)
    | SendInvite(body: Json)
    | ListInvitations
    | VerifyInvite(token: string)
    | CreateMaintenance(body: Json)
    | ListMaintenance
    | UpdateMaintenanceStatus(id: string, body: Json)
    | UploadDocument(body: Json, fileUrl: string)
    | ListDocuments

  /** The `api.request` call each wrapper makes. */
  function CallOf(e: Endpoint): (c: Call)
    ensures c.verb == GET ==> c.body == JNull
    ensures StartsWith(c.path, "/")
  {
    match e
    case Signup(body) => Call(POST, "/auth/signup", body, false)
    case Login(body) => Call(POST, "/auth/login", body, false)
    case AcceptInvite(body) => Call(POST, "/auth/accept-invite", body, false)
    case LandlordDashboard => Call(GET, "/dashboard/landlord", JNull, true)
    case TenantDashboard => Call(GET, "/dashboard/tenant", JNull, true)
    case ListBuildings => Call(GET, "/buildings", JNull, true)
    case GetBuilding(id) => Call(GET, "/buildings/" + id, JNull, true)
    case CreateBuilding(body) => Call(POST, "/buildings", body, true)
    case UpdateBuilding(id, body) => Call(PUT, "/buildings/" + id, body, true)
    case ListUnits(buildingId) => Call(GET, "/buildings/" + buildingId + "/units", JNull, true)
    case CreateUnit(body) => Call(POST, "/units", body, true)
    case InitializePayment(body) => Call(POST, "/payments/initialize", body, true)
    case ListPayments(params) => Call(GET, "/payments" + (if params != "" then "?" + params else ""), JNull, true)
    case SendInvite(body) => Call(POST, "/invitations", body, true)
    case ListInvitations => Call(GET, "/invitations", JNull, true)
    case VerifyInvite(token) => Call(GET, "/invitations/verify?token=" + token, JNull, false)
    case CreateMaintenance(body) => Call(POST, "/maintenance", body, true)
    case ListMaintenance => Call(GET, "/maintenance", JNull, true)
    case UpdateMaintenanceStatus(id, body) => Call(PUT, "/maintenance/" + id + "/status", body, true)
    case UploadDocument(body, fileUrl) => Call(POST, "/documents?file_url=" + EncodeURIComponent(fileUrl), body, true)
    case ListDocuments => Call(GET, "/documents", JNull, true)
  }

  /** Exactly the sign-up, login, accept-invite and verify-invite wrappers go out without a token. */
  lemma PublicEndpoints(e: Endpoint)
    ensures !CallOf(e).requiresAuth <==> e.Signup? || e.Login? || e.AcceptInvite? || e.VerifyInvite?
  {
  }

  /** Without a token only the public wrappers reach `fetch`; the others stop at the gate. */
  lemma GateStopsPrivateCalls(e: Endpoint, token: Option<string>, origin: string)
    ensures Prepare(CallOf(e), token, origin).None? <==>
              !Auth.Authenticated(token) && !(e.Signup? || e.Login? || e.AcceptInvite? || e.VerifyInvite?)
  {
    PublicEndpoints(e);
  }

  /** A GET never carries a body. */
  lemma GetsCarryNoBody(e: Endpoint, token: Option<string>, origin: string)
    requires CallOf(e).verb == GET && Prepare(CallOf(e), token, origin).Some?
    ensures Prepare(CallOf(e), token, origin).value.body.None?
  {
  }

  /** `listPayments('')` asks for `/payments`; any other argument is appended after one `?`. */
  lemma ListPaymentsPath(params: string)
    ensures params == "" ==> CallOf(ListPayments(params)).path == "/payments"
    ensures params != "" ==> CallOf(ListPayments(params)).path == "/payments?" + params
  {
  }

  /** The upload URL's query is the single key `file_url` carrying the encoded location. */
  lemma UploadQuery(body: Json, fileUrl: string)
    ensures var (before, query) := SplitFirst(CallOf(UploadDocument(body, fileUrl)).path, '?');
            before == "/documents" && query.Some? &&
            ParseQuery(query.value) == map["file_url" := EncodeURIComponent(fileUrl)]
  {
    var enc := EncodeURIComponent(fileUrl);
    assert CallOf(UploadDocument(body, fileUrl)).path == "/documents" + "?" + ("file_url=" + enc);
    SplitFirstAt("/documents", "file_url=" + enc, '?');
    SingleParam(enc);
  }

  /** `file_url=` followed by encoded text is one parameter holding that text. */
  lemma SingleParam(enc: string)
    requires forall k :: 0 <= k < |enc| ==> Unreserved(enc[k]) || enc[k] == '%'
    ensures ParseQuery("file_url=" + enc) == map["file_url" := enc]
  {
    var piece := "file_url=" + enc;
    assert '&' !in piece by {
      assert forall k :: 0 <= k < |piece| ==> piece[k] != '&';
    }
    SplitNoSep(piece, '&');
    assert QueryPieces(piece) == [piece];
    assert piece == "file_url" + "=" + enc;
    SplitFirstAt("file_url", enc, '=');
    assert EntryOf(piece) == ("file_url", enc);
    assert Entries([piece]) == [EntryOf(piece)] + Entries([]);
    assert FromEntries([("file_url", enc)]) == FromEntries([])["file_url" := enc];
  }

  /** Splitting at the first separator finds it right after a separator-free prefix. */
  lemma {:induction false} SplitFirstAt(before: string, after: string, sep: char)
    requires sep !in before
    ensures SplitFirst(before + [sep] + after, sep) == (before, Some(after))
    decreases |before|
  {
    if before == [] {
      assert before + [sep] + after == [sep] + after;
    } else {
      assert (before + [sep] + after)[1..] == before[1..] + [sep] + after;
      assert before[0] in before;
      assert forall c :: c in before[1..] ==> c in before;
      SplitFirstAt(before[1..], after, sep);
      assert [before[0]] + before[1..] == before;
    }
  }
}
