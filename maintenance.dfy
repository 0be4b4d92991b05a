/**
 * `MaintenanceHandler`: a tenant files a request against their unit, callers
 * list requests scoped by role, and a landlord changes a request's status.
 */
module Maintenance {
  import opened Common
  import opened Tables

  datatype CreateRequest = CreateRequest(title: string, description: string, priority: string)
  datatype StatusUpdate = StatusUpdate(status: string)

  /** The priority stored for a request: the one given, or `"medium"`. */
  function PriorityOf(given: string): (p: string)
    ensures p != ""
    ensures given != "" ==> p == given
  {
    if given == "" then "medium" else given
  }

  /** The unit `CreateRequest` files against: the first one whose tenant is the caller. */
  function TenantUnit(units: seq<Unit>, caller: string): (r: Option<Unit>)
    ensures r.Some? ==> r.value in units && r.value.tenantId == Some(caller)
    ensures r.None? <==> forall u :: u in units ==> u.tenantId != Some(caller)
  {
    FirstWhere(units, (u: Unit) => u.tenantId == Some(caller))
  }

  /** `CreateRequest`: database calls 0 (the caller's unit) and 1 (the insert). */
  method FileRequest(store: Store, caller: string, req: Option<CreateRequest>, newId: string, faults: Faults)
    returns (r: Reply<MaintenanceRequest>)
    requires store.Valid()
    modifies store`requests, store`now
    ensures store.Valid()
    ensures req.None? ==> r == Fail(400, "Invalid request body")
    ensures req.Some? && (req.value.title == "" || req.value.description == "") ==> r == Fail(400, "Title and description are required")
    ensures req.Some? && req.value.title != "" && req.value.description != "" && 0 in faults ==>
              r == Fail(500, "Failed to find your unit")
    ensures req.Some? && req.value.title != "" && req.value.description != "" && 0 !in faults && TenantUnit(store.units, caller).None? ==>
              r == Fail(404, "No unit assigned to your account")
    ensures req.Some? && req.value.title != "" && req.value.description != "" && 0 !in faults &&
            TenantUnit(store.units, caller).Some? && 1 in faults ==>
              r == Fail(500, "Failed to create request: " + faults[1])
    ensures r.Fail? ==> unchanged(store`requests, store`now)
    ensures r.Ok? <==>
              req.Some? && req.value.title != "" && req.value.description != "" && 0 !in faults &&
              TenantUnit(store.units, caller).Some? && 1 !in faults
    ensures r.Ok? ==>
              var q := req.value;
              var u := TenantUnit(store.units, caller).value;
              && r == Ok(201, MaintenanceRequest(newId, caller, u.id, u.buildingId, q.title, q.description,
                                                 PriorityOf(q.priority), "open", old(store.now)))
              && store.requests == old(store.requests) + [r.data]
              && store.now == old(store.now) + 1
  {
    if req.None? {
      return Fail(400, "Invalid request body");
    }
    var q := req.value;
    if q.title == "" || q.description == "" {
      return Fail(400, "Title and description are required");
    }
    if 0 in faults {
      return Fail(500, "Failed to find your unit");
    }
    var unit := TenantUnit(store.units, caller);
    if unit.None? {
      return Fail(404, "No unit assigned to your account");
    }
    var priority := q.priority;
    if priority == "" {
      priority := "medium";
    }
    if 1 in faults {
      return Fail(500, "Failed to create request: " + faults[1]);
    }
    var m := MaintenanceRequest(newId, caller, unit.value.id, unit.value.buildingId, q.title, q.description, priority, "open", store.now);
    store.AddRequest(m);
    r := Ok(201, m);
  }

  /** What `ListRequests` answers, as written. */
  function RequestsListing(requests: seq<MaintenanceRequest>, buildings: seq<Building>, caller: string, role: string, faults: Faults)
    : (r: Reply<seq<MaintenanceRequest>>)
    ensures r.Fail? <==> QueryCall(role) in faults
    ensures r.Fail? ==> r == Fail(500, "Failed to fetch requests")
    ensures r.Ok? ==> r.status == 200
    ensures r.Ok? ==> forall m :: m in r.data <==>
              m in requests && Listed(role, caller, LandlordBuildingIds(buildings, caller, faults), m.tenantId, m.buildingId)
    ensures r.Ok? ==> forall i, j :: 0 <= i < j < |r.data| ==> r.data[i].createdAt >= r.data[j].createdAt
    ensures r.Ok? ==> forall m :: multiset(r.data)[m] ==
                                (if Listed(role, caller, LandlordBuildingIds(buildings, caller, faults), m.tenantId, m.buildingId)
                                 then multiset(requests)[m] else 0)
  {
    if QueryCall(role) in faults then Fail(500, "Failed to fetch requests")
    else
      var ids := LandlordBuildingIds(buildings, caller, faults);
      var rows := NewestFirst(Filter(requests, (m: MaintenanceRequest) => Listed(role, caller, ids, m.tenantId, m.buildingId)),
                              (m: MaintenanceRequest) => m.createdAt);
      assert forall m :: m in rows <==> m in multiset(rows);
      FilterCount(requests, (m: MaintenanceRequest) => Listed(role, caller, ids, m.tenantId, m.buildingId));
      Ok(200, rows)
  }

  /** `ListRequests`: builds the building-id list with a loop, then runs the scoped query. */
  method ListRequests(store: Store, caller: string, role: string, faults: Faults) returns (r: Reply<seq<MaintenanceRequest>>)
    ensures r == RequestsListing(store.requests, store.buildings, caller, role, faults)
  {
    var ids: seq<string> := [];
    if role != "tenant" && 0 !in faults {
      ids := CollectBuildingIds(OwnedBy(store.buildings, caller));
    }
    if QueryCall(role) in faults {
      return Fail(500, "Failed to fetch requests");
    }
    ghost var expected := LandlordBuildingIds(store.buildings, caller, faults);
    assert role != "tenant" ==> ids == expected;
    var rows := NewestFirst(Filter(store.requests, (m: MaintenanceRequest) => Listed(role, caller, ids, m.tenantId, m.buildingId)),
                            (m: MaintenanceRequest) => m.createdAt);
    FilterCongruent(store.requests, (m: MaintenanceRequest) => Listed(role, caller, ids, m.tenantId, m.buildingId),
                    (m: MaintenanceRequest) => Listed(role, caller, expected, m.tenantId, m.buildingId));
    r := Ok(200, rows);
  }

  /** A tenant sees exactly their own requests. */
  lemma TenantSeesOwnRequests(requests: seq<MaintenanceRequest>, buildings: seq<Building>, caller: string, faults: Faults)
    requires 0 !in faults
    ensures var r := RequestsListing(requests, buildings, caller, "tenant", faults);
            r.Ok? && forall m :: m in r.data <==> m in requests && m.tenantId == caller
  {
  }

  /** A landlord who owns a building sees exactly the requests of their buildings. */
  lemma LandlordSeesOwnBuildings(requests: seq<MaintenanceRequest>, buildings: seq<Building>, caller: string, role: string)
    requires role != "tenant"
    requires exists b :: b in buildings && b.landlordId == caller
    ensures var r := RequestsListing(requests, buildings, caller, role, map[]);
            r.Ok? && forall m :: m in r.data <==>
              m in requests && exists b :: b in buildings && b.landlordId == caller && b.id == m.buildingId
  {
    var b :| b in buildings && b.landlordId == caller;
    assert b.id in LandlordBuildingIds(buildings, caller, map[]);
  }

  /**
   * As written, a landlord who owns no building (or whose building read
   * fails) is given every request in the system.
   */
  lemma NoBuildingsSeesAll(requests: seq<MaintenanceRequest>, buildings: seq<Building>, caller: string, role: string, faults: Faults)
    requires role != "tenant" && 1 !in faults
    requires 0 in faults || forall b :: b in buildings ==> b.landlordId != caller
    ensures var r := RequestsListing(requests, buildings, caller, role, faults);
            r.Ok? && forall m :: m in r.data <==> m in requests
  {
  }

  /** A concrete case: Bob owns nothing and is shown the request filed in Alice's building. */
  lemma NoBuildingsLeakExample(alices: Building, request: MaintenanceRequest)
    requires alices == Building("b1", "alice", "Palm Court", "1 Marina", 4, "", 0)
    requires request == MaintenanceRequest("m1", "t1", "u1", "b1", "Leak", "Kitchen sink", "high", "open", 1)
    ensures var r := RequestsListing([request], [alices], "bob", "landlord", map[]);
            r.Ok? && request in r.data
  {
    assert forall b :: b in [alices] ==> b.landlordId != "bob" by {
      assert "alice"[0] != "bob"[0];
    }
    assert "landlord" != "tenant" by {
      assert |"landlord"| != |"tenant"|;
    }
    NoBuildingsSeesAll([request], [alices], "bob", "landlord", map[]);
    assert request in [request];
  }

  /** `ListRequests` with the scope the comments state: a landlord without buildings sees no request. */
  function ScopedRequestsListing(requests: seq<MaintenanceRequest>, buildings: seq<Building>, caller: string, role: string, faults: Faults)
    : (r: Reply<seq<MaintenanceRequest>>)
    ensures r.Fail? <==> QueryCall(role) in faults
    ensures r.Ok? ==> forall m :: m in r.data <==>
              m in requests && ScopedListed(role, caller, LandlordBuildingIds(buildings, caller, faults), m.tenantId, m.buildingId)
  {
    if QueryCall(role) in faults then Fail(500, "Failed to fetch requests")
    else
      var ids := LandlordBuildingIds(buildings, caller, faults);
      var rows := NewestFirst(Filter(requests, (m: MaintenanceRequest) => ScopedListed(role, caller, ids, m.tenantId, m.buildingId)),
                              (m: MaintenanceRequest) => m.createdAt);
      assert forall m :: m in rows <==> m in multiset(rows);
      Ok(200, rows)
  }

  /** With the stated scope, a non-tenant only ever sees requests of buildings they own, whatever fails. */
  lemma ScopedSeesOnlyOwn(requests: seq<MaintenanceRequest>, buildings: seq<Building>, caller: string, role: string, faults: Faults)
    requires role != "tenant"
    ensures var r := ScopedRequestsListing(requests, buildings, caller, role, faults);
            r.Ok? ==> forall m :: m in r.data ==> exists b :: b in buildings && b.landlordId == caller && b.id == m.buildingId
  {
  }

  /** Where the landlord owns a building and its read succeeds, the two scopes agree. */
  lemma ScopesAgree(requests: seq<MaintenanceRequest>, buildings: seq<Building>, caller: string, role: string, faults: Faults)
    requires 0 !in faults && exists b :: b in buildings && b.landlordId == caller
    ensures ScopedRequestsListing(requests, buildings, caller, role, faults) == RequestsListing(requests, buildings, caller, role, faults)
  {
    var b :| b in buildings && b.landlordId == caller;
    var ids := LandlordBuildingIds(buildings, caller, faults);
    assert b.id in ids;
    FilterCongruent(requests, (m: MaintenanceRequest) => ScopedListed(role, caller, ids, m.tenantId, m.buildingId),
                    (m: MaintenanceRequest) => Listed(role, caller, ids, m.tenantId, m.buildingId));
  }

  /** A request just filed comes first in its tenant's list. */
  lemma FiledRequestListedFirst(requests: seq<MaintenanceRequest>, buildings: seq<Building>, m: MaintenanceRequest)
    requires forall x :: x in requests ==> x.createdAt < m.createdAt
    ensures var r := RequestsListing(requests + [m], buildings, m.tenantId, "tenant", map[]);
            r.Ok? && r.data != [] && r.data[0] == m
  {
    var all := requests + [m];
    var mine := Filter(all, (x: MaintenanceRequest) => Listed("tenant", m.tenantId, LandlordBuildingIds(buildings, m.tenantId, map[]), x.tenantId, x.buildingId));
    assert m in all;
    NewestIsFirst(mine, (x: MaintenanceRequest) => x.createdAt, m);
  }

  /** The request `UpdateRequestStatus` changes, when its building check passes. */
  function Owned(buildings: seq<Building>, caller: string, buildingId: string): (r: bool)
    ensures r <==> exists b :: b in buildings && b.id == buildingId && b.landlordId == caller
  {
    FirstWhere(buildings, (b: Building) => b.id == buildingId && b.landlordId == caller).Some?
  }

  /** The `.Eq("id", id)` filter on maintenance requests. */
  function RequestWithId(id: string): MaintenanceRequest -> bool {
    (m: MaintenanceRequest) => m.id == id
  }

  /**
   * `UpdateRequestStatus`: database calls 0 (the request's building) and 1
   * (the ownership check), whose errors are ignored and read as no rows, and
   * 2 (the update). The new status is written as given.
   */
  method UpdateRequestStatus(store: Store, caller: string, id: string, req: Option<StatusUpdate>, faults: Faults)
    returns (r: Reply<MaintenanceRequest>)
    modifies store`requests
    ensures req.None? ==> r == Fail(400, "Invalid request body")
    ensures req.Some? && (0 in faults || FirstWhere(old(store.requests), RequestWithId(id)).None?) ==>
              r == Fail(404, "Request not found")
    ensures req.Some? && 0 !in faults && FirstWhere(old(store.requests), RequestWithId(id)).Some? &&
            (1 in faults || !Owned(store.buildings, caller, FirstWhere(old(store.requests), RequestWithId(id)).value.buildingId)) ==>
              r == Fail(403, "Not your building")
    ensures req.Some? && 0 !in faults && 1 !in faults && 2 in faults && FirstWhere(old(store.requests), RequestWithId(id)).Some? &&
            Owned(store.buildings, caller, FirstWhere(old(store.requests), RequestWithId(id)).value.buildingId) ==>
              r == Fail(500, "Failed to update request")
    ensures r.Fail? ==> unchanged(store`requests)
    ensures r.Ok? <==>
              && req.Some? && 0 !in faults && 1 !in faults && 2 !in faults
              && var found := FirstWhere(old(store.requests), RequestWithId(id));
                 found.Some? && Owned(store.buildings, caller, found.value.buildingId)
    ensures r.Ok? ==>
              var found := FirstWhere(old(store.requests), RequestWithId(id)).value;
              && r == Ok(200, found.(status := req.value.status))
              && store.requests == UpdateWhere(old(store.requests), RequestWithId(id),
                                               (m: MaintenanceRequest) => m.(status := req.value.status))
  {
    if req.None? {
      return Fail(400, "Invalid request body");
    }
    var found := if 0 in faults then None else FirstWhere(store.requests, RequestWithId(id));
    if found.None? {
      return Fail(404, "Request not found");
    }
    var owned := if 1 in faults then false else Owned(store.buildings, caller, found.value.buildingId);
    if !owned {
      return Fail(403, "Not your building");
    }
    if 2 in faults {
      return Fail(500, "Failed to update request");
    }
    var status := req.value.status;
    store.requests := UpdateWhere(store.requests, RequestWithId(id), (m: MaintenanceRequest) => m.(status := status));
    r := Ok(200, found.value.(status := status));
  }

  /**
   * A status update changes the status of the requests with that id and
   * nothing else; only the landlord of the request's building can make it.
   */
  lemma StatusUpdateEffect(requests: seq<MaintenanceRequest>, buildings: seq<Building>, caller: string, id: string, status: string)
    requires FirstWhere(requests, (m: MaintenanceRequest) => m.id == id).Some?
    requires Owned(buildings, caller, FirstWhere(requests, (m: MaintenanceRequest) => m.id == id).value.buildingId)
    ensures var after := UpdateWhere(requests, (m: MaintenanceRequest) => m.id == id, (m: MaintenanceRequest) => m.(status := status));
            && |after| == |requests|
            && (forall k :: 0 <= k < |requests| ==> after[k].(status := requests[k].status) == requests[k])
            && (forall k :: 0 <= k < |requests| && requests[k].id == id ==> after[k].status == status)
            && (forall k :: 0 <= k < |requests| && requests[k].id != id ==> after[k] == requests[k])
            && exists b :: b in buildings && b.landlordId == caller &&
                 b.id == FirstWhere(requests, (m: MaintenanceRequest) => m.id == id).value.buildingId
  {
    var after := UpdateWhere(requests, (m: MaintenanceRequest) => m.id == id, (m: MaintenanceRequest) => m.(status := status));
    forall k | 0 <= k < |requests| ensures after[k].(status := requests[k].status) == requests[k] {
      if requests[k].id == id {
        assert after[k] == requests[k].(status := status);
      }
    }
  }
}
