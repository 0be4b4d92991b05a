/**
 * `InvitationsHandler`: a landlord invites a tenant to a unit, the public
 * acceptance page looks an invitation up by token, and a landlord lists the
 * invitations they sent.
 *
 * The 16 random bytes of a token come from `crypto/rand` and are a parameter.
 */
module Invitations {
  import opened Common
  import opened Tables
  import AuthHandlers

  type Byte = x: int | 0 <= x < 256

  /** A lower-case hexadecimal digit, as `hex.EncodeToString` writes them. */
  predicate IsHexDigit(c: char) {
    '0' <= c <= '9' || 'a' <= c <= 'f'
  }

  datatype SendInviteRequest = SendInviteRequest(unitId: string, email: string, phone: string)

  /** The digit written for a nibble. */
  function HexDigit(n: int): (c: char)
    requires 0 <= n < 16
    ensures IsHexDigit(c)
  {
    if n < 10 then (48 + n) as char else (87 + n) as char
  }

  /** The nibble a lower-case hexadecimal digit stands for. */
  function HexValue(c: char): (r: Option<int>)
    ensures r.Some? <==> IsHexDigit(c)
    ensures r.Some? ==> 0 <= r.value < 16 && HexDigit(r.value) == c
  {
    if '0' <= c <= '9' then Some(c as int - '0' as int)
    else if 'a' <= c <= 'f' then Some(c as int - 'a' as int + 10)
    else None
  }

  /** Reading back a written digit gives its nibble. */
  lemma DigitRoundTrip(n: int)
    requires 0 <= n < 16
    ensures HexValue(HexDigit(n)) == Some(n)
  {
  }

  /** `hex.EncodeToString`: two lower-case digits per byte, high nibble first. */
  function HexEncode(bytes: seq<Byte>): (s: string)
    ensures |s| == 2 * |bytes|
    ensures forall k :: 0 <= k < |s| ==> IsHexDigit(s[k])
  {
    if bytes == [] then ""
    else [HexDigit(bytes[0] / 16), HexDigit(bytes[0] % 16)] + HexEncode(bytes[1..])
  }

  /** The inverse of `HexEncode`: `None` for an odd length or a character that is not a lower-case digit. */
  function HexDecode(s: string): (r: Option<seq<Byte>>)
    ensures r.Some? ==> 2 * |r.value| == |s|
    decreases |s|
  {
    if s == [] then Some([])
    else if |s| == 1 then None
    else
      match (HexValue(s[0]), HexValue(s[1]), HexDecode(s[2..]))
      case (Some(hi), Some(lo), Some(rest)) => Some([hi * 16 + lo] + rest)
      case _ => None
  }

  /** Decoding an encoded token gives back its bytes. */
  lemma {:induction false} DecodeEncode(bytes: seq<Byte>)
    ensures HexDecode(HexEncode(bytes)) == Some(bytes)
  {
    if bytes != [] {
      var s := HexEncode(bytes);
      var b := bytes[0];
      var hi, lo := b / 16, b % 16;
      assert s == [HexDigit(hi), HexDigit(lo)] + HexEncode(bytes[1..]);
      assert s[0] == HexDigit(hi) && s[1] == HexDigit(lo);
      assert s[2..] == HexEncode(bytes[1..]);
      DigitRoundTrip(hi);
      DigitRoundTrip(lo);
      DecodeEncode(bytes[1..]);
      assert hi * 16 + lo == b;
      assert [b] + bytes[1..] == bytes;
    }
  }

  /** Distinct random bytes give distinct tokens. */
  lemma EncodeInjective(a: seq<Byte>, b: seq<Byte>)
    requires HexEncode(a) == HexEncode(b)
    ensures a == b
  {
    DecodeEncode(a);
    DecodeEncode(b);
  }

  /** `generateToken`: 16 random bytes as 32 lower-case hexadecimal digits. */
  function GenerateToken(random: seq<Byte>): (token: string)
    requires |random| == 16
    ensures |token| == 32
    ensures forall k :: 0 <= k < |token| ==> IsHexDigit(token[k])
    ensures HexDecode(token) == Some(random)
  {
    DecodeEncode(random);
    HexEncode(random)
  }

  /** The landlord of a building id, through the `buildings!inner` join. */
  function OwnerOf(buildings: seq<Building>, buildingId: string): (r: Option<string>)
    ensures r.Some? <==> exists b :: b in buildings && b.id == buildingId
    ensures r.Some? ==> exists b :: b in buildings && b.id == buildingId && b.landlordId == r.value
  {
    match FirstWhere(buildings, (b: Building) => b.id == buildingId)
    case None => None
    case Some(b) => Some(b.landlordId)
  }

  /** The first unit row with that id that has a building (the inner join drops the others). */
  function JoinedUnit(units: seq<Unit>, buildings: seq<Building>, unitId: string): (r: Option<Unit>)
    ensures r.Some? ==> r.value in units && r.value.id == unitId && OwnerOf(buildings, r.value.buildingId).Some?
    ensures r.None? <==> forall u :: u in units && u.id == unitId ==> OwnerOf(buildings, u.buildingId).None?
  {
    FirstWhere(units, (u: Unit) => u.id == unitId && OwnerOf(buildings, u.buildingId).Some?)
  }

  /** The refusal `SendInvite` gives for that unit, if any (database call 0 answered). */
  function UnitRefusal(units: seq<Unit>, buildings: seq<Building>, caller: string, unitId: string): (e: Option<(int, string)>)
    ensures e.Some? ==> e.value in {(403, "Unit not found or not in your building"), (400, "Unit is already occupied")}
  {
    var u := JoinedUnit(units, buildings, unitId);
    if u.None? || OwnerOf(buildings, u.value.buildingId) != Some(caller) then Some((403, "Unit not found or not in your building"))
    else if u.value.status == "occupied" then Some((400, "Unit is already occupied"))
    else None
  }

  /**
   * An invitation is refused exactly when no unit with that id has a building,
   * the first one's building belongs to someone else, or it is occupied.
   */
  lemma RefusalMeans(units: seq<Unit>, buildings: seq<Building>, caller: string, unitId: string)
    ensures UnitRefusal(units, buildings, caller, unitId).None? <==>
              var u := JoinedUnit(units, buildings, unitId);
              u.Some? && OwnerOf(buildings, u.value.buildingId) == Some(caller) && u.value.status != "occupied"
    ensures (forall u :: u in units && u.id == unitId ==> OwnerOf(buildings, u.buildingId).None?) ==>
              UnitRefusal(units, buildings, caller, unitId) == Some((403, "Unit not found or not in your building"))
  {
  }

  /** `SendInvite`: database calls 0 (the unit lookup) and 1 (the insert). */
  method SendInvite(store: Store, caller: string, req: Option<SendInviteRequest>, random: seq<Byte>, newId: string, faults: Faults)
    returns (r: Reply<Invitation>)
    requires |random| == 16
    requires store.Valid()
    modifies store`invitations, store`now
    ensures store.Valid()
    ensures req.None? ==> r == Fail(400, "Invalid request body")
    ensures req.Some? && (req.value.unitId == "" || (req.value.email == "" && req.value.phone == "")) ==>
              r == Fail(400, "Unit ID and at least email or phone are required")
    ensures req.Some? && req.value.unitId != "" && (req.value.email != "" || req.value.phone != "") && 0 in faults ==>
              r == Fail(500, "Failed to verify unit")
    ensures req.Some? && req.value.unitId != "" && (req.value.email != "" || req.value.phone != "") && 0 !in faults &&
            UnitRefusal(store.units, store.buildings, caller, req.value.unitId).None? && 1 in faults ==>
              r == Fail(500, "Failed to create invitation: " + faults[1])
    ensures r.Fail? ==> unchanged(store`invitations, store`now)
    ensures r.Ok? <==>
              && req.Some? && req.value.unitId != "" && (req.value.email != "" || req.value.phone != "") && 0 !in faults
              && UnitRefusal(store.units, store.buildings, caller, req.value.unitId).None? && 1 !in faults
    ensures req.Some? && req.value.unitId != "" && (req.value.email != "" || req.value.phone != "") && 0 !in faults &&
            UnitRefusal(store.units, store.buildings, caller, req.value.unitId).Some? ==>
              var e := UnitRefusal(store.units, store.buildings, caller, req.value.unitId).value;
              r == Fail(e.0, e.1)
    ensures r.Ok? ==>
              var q := req.value;
              && r == Ok(201, Invitation(newId, q.unitId, caller, q.email, q.phone, GenerateToken(random), "pending", old(store.now)))
              && store.invitations == old(store.invitations) + [r.data]
              && store.now == old(store.now) + 1
  {
    if req.None? {
      return Fail(400, "Invalid request body");
    }
    var q := req.value;
    if q.unitId == "" || (q.email == "" && q.phone == "") {
      return Fail(400, "Unit ID and at least email or phone are required");
    }
    if 0 in faults {
      return Fail(500, "Failed to verify unit");
    }
    var refusal := UnitRefusal(store.units, store.buildings, caller, q.unitId);
    if refusal.Some? {
      return Fail(refusal.value.0, refusal.value.1);
    }
    var token := GenerateToken(random);
    if 1 in faults {
      return Fail(500, "Failed to create invitation: " + faults[1]);
    }
    var invite := Invitation(newId, q.unitId, caller, q.email, q.phone, token, "pending", store.now);
    store.AddInvitation(invite);
    r := Ok(201, invite);
  }

  /** `GetInviteByToken`: the query is database call 0. */
  function GetInviteByToken(invitations: seq<Invitation>, token: string, faults: Faults): (r: Reply<Invitation>)
    ensures token == "" ==> r == Fail(400, "Token is required")
    ensures token != "" && 0 in faults ==> r == Fail(500, "Failed to fetch invitation")
    ensures token != "" && 0 !in faults ==>
              (r == Fail(404, "Invalid or expired invitation") <==>
               forall i :: i in invitations ==> i.token != token || i.status != "pending")
    ensures r.Ok? ==> r.status == 200 && r.data in invitations && r.data.token == token && r.data.status == "pending"
  {
    if token == "" then Fail(400, "Token is required")
    else if 0 in faults then Fail(500, "Failed to fetch invitation")
    else
      match AuthHandlers.PendingInvite(invitations, token)
      case None => Fail(404, "Invalid or expired invitation")
      case Some(i) => Ok(200, i)
  }

  /** The acceptance page shows exactly the invitation that accepting the same token consumes. */
  lemma PageShowsAcceptedInvite(invitations: seq<Invitation>, token: string)
    requires token != ""
    ensures var r := GetInviteByToken(invitations, token, map[]);
            var p := AuthHandlers.PendingInvite(invitations, token);
            (r.Ok? <==> p.Some?) && (r.Ok? ==> r.data == p.value)
  {
  }

  /** A freshly sent invitation is what its token shows, when no other pending invitation shares the token. */
  lemma SentInviteIsShown(invitations: seq<Invitation>, sent: Invitation)
    requires sent.status == "pending" && sent.token != ""
    requires forall i :: i in invitations ==> i.token != sent.token || i.status != "pending"
    ensures GetInviteByToken(invitations + [sent], sent.token, map[]) == Ok(200, sent)
  {
    var all := invitations + [sent];
    var p := AuthHandlers.PendingInvite(all, sent.token);
    assert sent in all;
    assert p.Some?;
    assert p.value in all;
    if p.value in invitations {
      assert false;
    }
  }

  /** `ListInvitations`: the caller's invitations, newest first; the query is database call 0. */
  function ListInvitations(invitations: seq<Invitation>, caller: string, faults: Faults): (r: Reply<seq<Invitation>>)
    ensures r.Fail? <==> 0 in faults
    ensures r.Fail? ==> r == Fail(500, "Failed to fetch invitations")
    ensures r.Ok? ==> r.status == 200
    ensures r.Ok? ==> forall i :: i in r.data <==> i in invitations && i.landlordId == caller
    ensures r.Ok? ==> forall j, k :: 0 <= j < k < |r.data| ==> r.data[j].createdAt >= r.data[k].createdAt
    ensures r.Ok? ==> forall i :: multiset(r.data)[i] == if i.landlordId == caller then multiset(invitations)[i] else 0
  {
    if 0 in faults then Fail(500, "Failed to fetch invitations")
    else
      var rows := NewestFirst(Filter(invitations, (i: Invitation) => i.landlordId == caller), (i: Invitation) => i.createdAt);
      assert forall i :: i in rows <==> i in multiset(rows);
      FilterCount(invitations, (i: Invitation) => i.landlordId == caller);
      Ok(200, rows)
  }
}
