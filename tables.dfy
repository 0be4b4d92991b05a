/**
 * The server's view of the database: one record type per Supabase table,
 * the reply every handler writes, PostgREST's ordering, and the store the
 * handlers read and change.
 *
 * A table is a sequence of rows. `.Eq(col, v)` is a filter, `.In(col, vs)` a
 * membership filter, `.Order(col, ...)` a sort, `.Limit(n)` a prefix, and
 * `Insert` appends a row whose id the database chooses and whose
 * `created_at` is the store's clock. `.Update(patch).Eq(...)` rewrites every
 * row the filters select and no other.
 */
module Tables {
  import opened Common

  datatype Profile = Profile(id: string, role: string, fullName: string, email: string, phone: string)

  datatype Building = Building(
    id: string, landlordId: string, name: string, address: string,
    totalUnits: int, photoUrl: string, createdAt: nat)

  datatype Unit = Unit(
    id: string, buildingId: string, tenantId: Option<string>, unitNumber: string,
    rentAmount: int, leaseStart: string, leaseEnd: string, status: string, createdAt: nat)

  datatype Invitation = Invitation(
    id: string, unitId: string, landlordId: string, email: string, phone: string,
    token: string, status: string, createdAt: nat)

  datatype MaintenanceRequest = MaintenanceRequest(
    id: string, tenantId: string, unitId: string, buildingId: string, title: string,
    description: string, priority: string, status: string, createdAt: nat)

  datatype Payment = Payment(
    id: string, tenantId: string, unitId: string, buildingId: string, amount: int,
    currency: string, status: string, period: string, createdAt: nat)

  datatype Document = Document(
    id: string, uploadedBy: string, buildingId: string, unitId: string, name: string,
    kind: string, fileUrl: string, createdAt: nat)

  /** What `respondError` / `respondJSON` write: a status and either an error message or the data. */
  datatype Reply<T> = Fail(status: int, error: string) | Ok(status: int, data: T)

  const BadRequest := 400
  const Unauthorized := 401
  const Forbidden := 403
  const NotFound := 404
  const ServerError := 500
  const Created := 201
  const Success := 200

  /**
   * The database errors of one request: the k-th database call the handler
   * makes (counting from 0, in the order it makes them) fails with
   * `faults[k]`. A failed read whose error the handler ignores yields no rows.
   */
  type Faults = map<nat, string>

  // ---------------------------------------------------------------------
  // Ordering
  // ---------------------------------------------------------------------

  /** `le` orders every pair and is transitive. */
  ghost predicate TotalPreorder<T(!new)>(le: (T, T) -> bool) {
    && (forall a, b :: le(a, b) || le(b, a))
    && (forall a, b, c :: le(a, b) && le(b, c) ==> le(a, c))
  }

  predicate SortedBy<T>(s: seq<T>, le: (T, T) -> bool) {
    forall i, j :: 0 <= i < j < |s| ==> le(s[i], s[j])
  }

  /** `x` put in front of the first element it does not come after. */
  function InsertBy<T(!new)>(x: T, s: seq<T>, le: (T, T) -> bool): (r: seq<T>)
    requires TotalPreorder(le) && SortedBy(s, le)
    ensures multiset(r) == multiset(s) + multiset{x}
    ensures SortedBy(r, le)
  {
    if s == [] then [x]
    else if le(x, s[0]) then
      ConsSorted(x, s, le);
      [x] + s
    else
      var rest := InsertBy(x, s[1..], le);
      assert s == [s[0]] + s[1..];
      HeadBelowInserted(x, s, rest, le);
      ConsSorted(s[0], rest, le);
      [s[0]] + rest
  }

  /** A first element below the head of a sorted sequence keeps it sorted. */
  lemma ConsSorted<T(!new)>(y: T, s: seq<T>, le: (T, T) -> bool)
    requires TotalPreorder(le) && SortedBy(s, le)
    requires s == [] || le(y, s[0])
    ensures SortedBy([y] + s, le)
  {
    forall i, j | 0 <= i < j < |[y] + s| ensures le(([y] + s)[i], ([y] + s)[j]) {
      if i == 0 && j > 1 {
        assert le(y, s[0]) && le(s[0], s[j - 1]);
      }
    }
  }

  /** The head of a sorted sequence, not above `x`, is below everything `x` is inserted into the tail with. */
  lemma HeadBelowInserted<T(!new)>(x: T, s: seq<T>, rest: seq<T>, le: (T, T) -> bool)
    requires TotalPreorder(le) && SortedBy(s, le) && s != [] && !le(x, s[0])
    requires multiset(rest) == multiset(s[1..]) + multiset{x}
    ensures rest == [] || le(s[0], rest[0])
    ensures forall k :: 0 <= k < |rest| ==> le(s[0], rest[k])
  {
    forall k | 0 <= k < |rest| ensures le(s[0], rest[k]) {
      assert rest[k] in multiset(rest);
      if rest[k] != x {
        assert rest[k] in multiset(s[1..]);
        var m :| 0 <= m < |s[1..]| && s[1..][m] == rest[k];
        assert s[m + 1] == rest[k];
      }
    }
  }

  /** The rows sorted by `le` (what `.Order(...)` returns). */
  function SortBy<T(!new)>(s: seq<T>, le: (T, T) -> bool): (r: seq<T>)
    requires TotalPreorder(le)
    ensures multiset(r) == multiset(s)
    ensures SortedBy(r, le)
  {
    if s == [] then []
    else
      assert s == [s[0]] + s[1..];
      InsertBy(s[0], SortBy(s[1..], le), le)
  }

  /** `.Order("created_at", {Ascending: false})`: newest first. */
  function NewestFirst<T(!new)>(rows: seq<T>, at: T -> nat): (r: seq<T>)
    ensures multiset(r) == multiset(rows)
    ensures forall i, j :: 0 <= i < j < |r| ==> at(r[i]) >= at(r[j])
  {
    var le := (a: T, b: T) => at(a) >= at(b);
    SortBy(rows, le)
  }

  /** `.Order(created_at desc).Limit(n)`: n rows or all of them, newest first, and a row left out is no newer than any kept. */
  lemma NewestTake<T(!new)>(rows: seq<T>, at: T -> nat, n: nat)
    ensures var r := Take(NewestFirst(rows, at), n);
            && |r| == Min(n, |rows|)
            && (forall x :: x in r ==> x in rows)
            && (forall i, j :: 0 <= i < j < |r| ==> at(r[i]) >= at(r[j]))
            && (forall x :: x in rows && x !in r ==> |r| == n && forall q :: q in r ==> at(q) >= at(x))
  {
    var all := NewestFirst(rows, at);
    assert |all| == |multiset(all)| == |multiset(rows)| == |rows|;
    assert forall x :: x in all <==> x in multiset(all);
    assert forall x :: x in rows <==> x in multiset(rows);
    forall x | x in rows && x !in Take(all, n)
      ensures |Take(all, n)| == n && forall q :: q in Take(all, n) ==> at(q) >= at(x)
    {
      NewestKept(all, at, n, x);
    }
  }

  /** `.Limit(n)` after newest-first: a row left out means the page is full and every kept row is at least as new. */
  lemma NewestKept<T>(s: seq<T>, at: T -> nat, n: nat, p: T)
    requires forall i, j :: 0 <= i < j < |s| ==> at(s[i]) >= at(s[j])
    requires p in s && p !in Take(s, n)
    ensures |Take(s, n)| == n
    ensures forall q :: q in Take(s, n) ==> at(q) >= at(p)
  {
    var k :| 0 <= k < |s| && s[k] == p;
    assert forall i :: 0 <= i < Min(n, |s|) ==> s[i] == Take(s, n)[i];
    assert n <= k;
    forall q | q in Take(s, n) ensures at(q) >= at(p) {
      var i :| 0 <= i < n && Take(s, n)[i] == q;
      assert s[i] == q;
    }
  }

  /** Character-code order on strings (`.Order("unit_number", {Ascending: true})`). */
  predicate LexLe(a: string, b: string)
    decreases |a|
  {
    a == [] || (b != [] && (a[0] < b[0] || (a[0] == b[0] && LexLe(a[1..], b[1..]))))
  }

  lemma {:induction false} LexTotal(a: string, b: string)
    ensures LexLe(a, b) || LexLe(b, a)
    decreases |a|
  {
    if a != [] && b != [] && a[0] == b[0] {
      LexTotal(a[1..], b[1..]);
    }
  }

  lemma {:induction false} LexTransitive(a: string, b: string, c: string)
    requires LexLe(a, b) && LexLe(b, c)
    ensures LexLe(a, c)
    decreases |a|
  {
    if a != [] && b != [] && c != [] && a[0] == b[0] && b[0] == c[0] {
      LexTransitive(a[1..], b[1..], c[1..]);
    }
  }

  /** Units by unit number, ascending. */
  function ByUnitNumber(units: seq<Unit>): (r: seq<Unit>)
    ensures multiset(r) == multiset(units)
    ensures forall i, j :: 0 <= i < j < |r| ==> LexLe(r[i].unitNumber, r[j].unitNumber)
  {
    var le := (a: Unit, b: Unit) => LexLe(a.unitNumber, b.unitNumber);
    forall a: Unit, b: Unit ensures le(a, b) || le(b, a) {
      LexTotal(a.unitNumber, b.unitNumber);
    }
    forall a: Unit, b: Unit, c: Unit | le(a, b) && le(b, c) ensures le(a, c) {
      LexTransitive(a.unitNumber, b.unitNumber, c.unitNumber);
    }
    SortBy(units, le)
  }

  // ---------------------------------------------------------------------
  // The store
  // ---------------------------------------------------------------------

  /** The Supabase tables and the clock that stamps `created_at`. */
  class Store {
    var profiles: seq<Profile>
    var buildings: seq<Building>
    var units: seq<Unit>
    var invitations: seq<Invitation>
    var requests: seq<MaintenanceRequest>
    var payments: seq<Payment>
    var documents: seq<Document>
    /** The `created_at` the next inserted row receives. */
    var now: nat

    /** Every row was created before the clock's current value. */
    predicate Valid()
      reads this
    {
      && (forall b :: b in buildings ==> b.createdAt < now)
      && (forall u :: u in units ==> u.createdAt < now)
      && (forall i :: i in invitations ==> i.createdAt < now)
      && (forall m :: m in requests ==> m.createdAt < now)
      && (forall p :: p in payments ==> p.createdAt < now)
      && (forall d :: d in documents ==> d.createdAt < now)
    }

    constructor ()
      ensures Valid()
      ensures profiles == [] && buildings == [] && units == [] && invitations == []
      ensures requests == [] && payments == [] && documents == [] && now == 0
    {
      profiles, buildings, units, invitations := [], [], [], [];
      requests, payments, documents, now := [], [], [], 0;
    }

    /** Inserts a building stamped with the clock, which then advances. */
    method AddBuilding(row: Building)
      requires Valid() && row.createdAt == now
      modifies this`buildings, this`now
      ensures Valid()
      ensures buildings == old(buildings) + [row] && now == old(now) + 1
    {
      buildings := buildings + [row];
      now := now + 1;
    }

    /** Inserts a unit stamped with the clock, which then advances. */
    method AddUnit(row: Unit)
      requires Valid() && row.createdAt == now
      modifies this`units, this`now
      ensures Valid()
      ensures units == old(units) + [row] && now == old(now) + 1
    {
      units := units + [row];
      now := now + 1;
    }

    /** Inserts a maintenance request stamped with the clock, which then advances. */
    method AddRequest(row: MaintenanceRequest)
      requires Valid() && row.createdAt == now
      modifies this`requests, this`now
      ensures Valid()
      ensures requests == old(requests) + [row] && now == old(now) + 1
    {
      requests := requests + [row];
      now := now + 1;
    }

    /** Inserts a payment stamped with the clock, which then advances. */
    method AddPayment(row: Payment)
      requires Valid() && row.createdAt == now
      modifies this`payments, this`now
      ensures Valid()
      ensures payments == old(payments) + [row] && now == old(now) + 1
    {
      payments := payments + [row];
      now := now + 1;
    }

    /** Inserts a document stamped with the clock, which then advances. */
    method AddDocument(row: Document)
      requires Valid() && row.createdAt == now
      modifies this`documents, this`now
      ensures Valid()
      ensures documents == old(documents) + [row] && now == old(now) + 1
    {
      documents := documents + [row];
      now := now + 1;
    }

    /** Inserts an invitation stamped with the clock, which then advances. */
    method AddInvitation(row: Invitation)
      requires Valid() && row.createdAt == now
      modifies this`invitations, this`now
      ensures Valid()
      ensures invitations == old(invitations) + [row] && now == old(now) + 1
    {
      invitations := invitations + [row];
      now := now + 1;
    }
  }

  /** The first row, in table order, that the filters select (`rows[0]` of the query). */
  function FirstWhere<T(!new)>(rows: seq<T>, p: T -> bool): (r: Option<T>)
    ensures r.Some? <==> exists x :: x in rows && p(x)
    ensures r.Some? ==> r.value in rows && p(r.value)
  {
    var selected := Filter(rows, p);
    if selected == [] then None
    else
      assert selected[0] in selected;
      Some(selected[0])
  }

  /** `.Update(patch)` under filters `sel`: every selected row is patched, every other row is kept. */
  function UpdateWhere<T>(rows: seq<T>, sel: T -> bool, patch: T -> T): (r: seq<T>)
    ensures |r| == |rows|
    ensures forall i :: 0 <= i < |rows| && sel(rows[i]) ==> r[i] == patch(rows[i])
    ensures forall i :: 0 <= i < |rows| && !sel(rows[i]) ==> r[i] == rows[i]
  {
    seq(|rows|, i requires 0 <= i < |rows| => if sel(rows[i]) then patch(rows[i]) else rows[i])
  }

  /** An update whose filters select no row leaves the table as it was. */
  lemma UpdateNothing<T(!new)>(rows: seq<T>, sel: T -> bool, patch: T -> T)
    requires FirstWhere(rows, sel).None?
    ensures UpdateWhere(rows, sel, patch) == rows
  {
    assert forall i :: 0 <= i < |rows| ==> !sel(rows[i]) by {
      forall i | 0 <= i < |rows| ensures !sel(rows[i]) {
        assert rows[i] in rows;
      }
    }
  }

  /** The ids of the given buildings, in order. */
  function BuildingIds(bs: seq<Building>): (ids: seq<string>)
    ensures |ids| == |bs|
    ensures forall i :: 0 <= i < |bs| ==> ids[i] == bs[i].id
  {
    if bs == [] then [] else [bs[0].id] + BuildingIds(bs[1..])
  }

  /** The buildings `.Eq("landlord_id", caller)` selects. */
  function OwnedBy(bs: seq<Building>, caller: string): (r: seq<Building>)
    ensures forall b :: b in r <==> b in bs && b.landlordId == caller
  {
    Filter(bs, (b: Building) => b.landlordId == caller)
  }

  /**
   * `ids := make([]string, len(bIDs)); for i, b := range bIDs { ids[i] = b.ID }`:
   * the building ids, collected in a buffer.
   */
  method CollectBuildingIds(bs: seq<Building>) returns (ids: seq<string>)
    ensures ids == BuildingIds(bs)
  {
    var buffer := new string[|bs|];
    for i := 0 to |bs|
      invariant buffer[..i] == BuildingIds(bs[..i])
    {
      BuildingIdsSnoc(bs[..i], bs[i]);
      assert bs[..i + 1] == bs[..i] + [bs[i]];
      buffer[i] := bs[i].id;
    }
    assert bs[..|bs|] == bs;
    ids := buffer[..];
  }

  lemma BuildingIdsSnoc(bs: seq<Building>, b: Building)
    ensures BuildingIds(bs + [b]) == BuildingIds(bs) + [b.id]
  {
    var l := BuildingIds(bs + [b]);
    var r := BuildingIds(bs) + [b.id];
    assert forall i :: 0 <= i < |l| ==> l[i] == r[i] by {
      forall i | 0 <= i < |l| ensures l[i] == r[i] {
        assert (bs + [b])[i] == if i < |bs| then bs[i] else b;
      }
    }
  }

  /** Every id collected is the id of one of the buildings, and every building's id is collected. */
  lemma BuildingIdsMembership(bs: seq<Building>, id: string)
    ensures id in BuildingIds(bs) <==> exists b :: b in bs && b.id == id
  {
    var ids := BuildingIds(bs);
    if id in ids {
      var k :| 0 <= k < |ids| && ids[k] == id;
      assert bs[k] in bs;
    }
    if exists b :: b in bs && b.id == id {
      var b :| b in bs && b.id == id;
      var k :| 0 <= k < |bs| && bs[k] == b;
      assert ids[k] == id;
    }
  }

  /** A row ordered first by `NewestFirst` is one with the greatest `created_at`. */
  lemma NewestIsFirst<T(!new)>(rows: seq<T>, at: T -> nat, x: T)
    requires x in rows && forall y :: y in rows && y != x ==> at(y) < at(x)
    ensures NewestFirst(rows, at) != [] && NewestFirst(rows, at)[0] == x
  {
    var r := NewestFirst(rows, at);
    assert x in multiset(rows);
    assert x in multiset(r);
    var k :| 0 <= k < |r| && r[k] == x;
    assert r[0] in multiset(r);
    assert r[0] in rows;
  }

  // ---------------------------------------------------------------------
  // Role-scoped listings (`ListRequests`, `ListPayments`)
  // ---------------------------------------------------------------------

  /** The ids of the caller's buildings are exactly the ids of buildings they own. */
  lemma OwnedIds(buildings: seq<Building>, caller: string)
    ensures forall id :: id in BuildingIds(OwnedBy(buildings, caller)) <==>
                         exists b :: b in buildings && b.landlordId == caller && b.id == id
  {
    forall id ensures id in BuildingIds(OwnedBy(buildings, caller)) <==>
                      exists b :: b in buildings && b.landlordId == caller && b.id == id {
      BuildingIdsMembership(OwnedBy(buildings, caller), id);
    }
  }

  /** The database call that runs a role-scoped listing query: 0 for a tenant, 1 after the building read otherwise. */
  function QueryCall(role: string): (k: nat)
    ensures k == 0 <==> role == "tenant"
  {
    if role == "tenant" then 0 else 1
  }

  /**
   * The building ids a non-tenant listing collects: the read is database
   * call 0 and its error is ignored, which leaves no ids.
   */
  function LandlordBuildingIds(buildings: seq<Building>, caller: string, faults: Faults): (ids: seq<string>)
    ensures 0 in faults ==> ids == []
    ensures 0 !in faults ==> forall id :: id in ids <==> exists b :: b in buildings && b.landlordId == caller && b.id == id
  {
    if 0 in faults then []
    else
      OwnedIds(buildings, caller);
      BuildingIds(OwnedBy(buildings, caller))
  }

  /**
   * Whether a role-scoped listing shows a row with that tenant and building,
   * as written: a tenant sees their own rows; any other caller sees the rows
   * of the collected buildings, and every row when none were collected,
   * because the `In` filter is only added for a non-empty id list.
   */
  predicate Listed(role: string, caller: string, ids: seq<string>, tenantId: string, buildingId: string) {
    if role == "tenant" then tenantId == caller else |ids| == 0 || buildingId in ids
  }

  /** The scope the comments state: a non-tenant sees only rows of the collected buildings, so none when there are none. */
  predicate ScopedListed(role: string, caller: string, ids: seq<string>, tenantId: string, buildingId: string) {
    if role == "tenant" then tenantId == caller else buildingId in ids
  }
}
