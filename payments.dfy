/**
 * `PaymentsHandler`: a tenant starts a rent payment, Paystack's webhook is
 * acknowledged, and callers list payments scoped by role with optional
 * `status` and `building_id` filters.
 */
module Payments {
  import opened Common
  import opened Tables

  datatype InitializeRequest = InitializeRequest(unitId: string, period: string)

  /** The JSON object `InitializePayment` answers with, less the `amount_naira` float. */
  datatype Initialized = Initialized(payment: Payment, authorizationUrl: string, reference: string)

  /** The unit `InitializePayment` charges for: that id, assigned to the caller. */
  function AssignedUnit(units: seq<Unit>, caller: string, unitId: string): (r: Option<Unit>)
    ensures r.Some? ==> r.value in units && r.value.id == unitId && r.value.tenantId == Some(caller)
    ensures r.None? <==> forall u :: u in units ==> u.id != unitId || u.tenantId != Some(caller)
  {
    FirstWhere(units, (u: Unit) => u.id == unitId && u.tenantId == Some(caller))
  }

  /** `InitializePayment`: database calls 0 (the unit) and 1 (the insert). */
  method InitializePayment(store: Store, caller: string, req: Option<InitializeRequest>, newId: string, faults: Faults)
    returns (r: Reply<Initialized>)
    requires store.Valid()
    modifies store`payments, store`now
    ensures store.Valid()
    ensures req.None? ==> r == Fail(400, "Invalid request body")
    ensures req.Some? && (req.value.unitId == "" || req.value.period == "") ==> r == Fail(400, "Unit ID and period are required")
    ensures req.Some? && req.value.unitId != "" && req.value.period != "" && 0 in faults ==> r == Fail(500, "Failed to fetch unit")
    ensures req.Some? && req.value.unitId != "" && req.value.period != "" && 0 !in faults &&
            AssignedUnit(store.units, caller, req.value.unitId).None? ==>
              r == Fail(404, "Unit not found or not assigned to you")
    ensures req.Some? && req.value.unitId != "" && req.value.period != "" && 0 !in faults &&
            AssignedUnit(store.units, caller, req.value.unitId).Some? && 1 in faults ==>
              r == Fail(500, "Failed to create payment record")
    ensures r.Fail? ==> unchanged(store`payments, store`now)
    ensures r.Ok? <==>
              req.Some? && req.value.unitId != "" && req.value.period != "" && 0 !in faults &&
              AssignedUnit(store.units, caller, req.value.unitId).Some? && 1 !in faults
    ensures r.Ok? ==>
              var q := req.value;
              var u := AssignedUnit(store.units, caller, q.unitId).value;
              && r.status == 201
              && r.data.payment == Payment(newId, caller, q.unitId, u.buildingId, u.rentAmount, "NGN", "pending", q.period, old(store.now))
              && r.data.authorizationUrl == "" && r.data.reference == newId
              && store.payments == old(store.payments) + [r.data.payment]
              && store.now == old(store.now) + 1
  {
    if req.None? {
      return Fail(400, "Invalid request body");
    }
    var q := req.value;
    if q.unitId == "" || q.period == "" {
      return Fail(400, "Unit ID and period are required");
    }
    if 0 in faults {
      return Fail(500, "Failed to fetch unit");
    }
    var unit := AssignedUnit(store.units, caller, q.unitId);
    if unit.None? {
      return Fail(404, "Unit not found or not assigned to you");
    }
    if 1 in faults {
      return Fail(500, "Failed to create payment record");
    }
    var p := Payment(newId, caller, q.unitId, unit.value.buildingId, unit.value.rentAmount, "NGN", "pending", q.period, store.now);
    store.AddPayment(p);
    r := Ok(201, Initialized(p, "", p.id));
  }

  /** `PaystackWebhook`: any body that decodes into a JSON object (or `null`) is acknowledged; nothing is stored. */
  function PaystackWebhook(body: Option<Json>): (status: int)
    ensures status == 200 <==> body.Some? && (body.value.JObj? || body.value.JNull?)
    ensures status != 200 ==> status == 400
  {
    if body.Some? && (body.value.JObj? || body.value.JNull?) then 200 else 400
  }

  /** The optional query-string filters of `ListPayments`; `""` is absent. */
  datatype PaymentFilters = PaymentFilters(status: string, buildingId: string)

  /** Whether a payment passes the optional filters. */
  predicate PassesFilters(p: Payment, f: PaymentFilters) {
    (f.status == "" || p.status == f.status) && (f.buildingId == "" || p.buildingId == f.buildingId)
  }

  /** What `ListPayments` answers, as written. */
  function PaymentsListing(payments: seq<Payment>, buildings: seq<Building>, caller: string, role: string, f: PaymentFilters, faults: Faults)
    : (r: Reply<seq<Payment>>)
    ensures r.Fail? <==> QueryCall(role) in faults
    ensures r.Fail? ==> r == Fail(500, "Failed to fetch payments")
    ensures r.Ok? ==> r.status == 200
    ensures r.Ok? ==> forall p :: p in r.data <==>
              p in payments && Listed(role, caller, LandlordBuildingIds(buildings, caller, faults), p.tenantId, p.buildingId)
              && PassesFilters(p, f)
    ensures r.Ok? ==> forall i, j :: 0 <= i < j < |r.data| ==> r.data[i].createdAt >= r.data[j].createdAt
    ensures r.Ok? ==> forall p :: multiset(r.data)[p] ==
                                (if Listed(role, caller, LandlordBuildingIds(buildings, caller, faults), p.tenantId, p.buildingId) && PassesFilters(p, f)
                                 then multiset(payments)[p] else 0)
  {
    if QueryCall(role) in faults then Fail(500, "Failed to fetch payments")
    else
      var ids := LandlordBuildingIds(buildings, caller, faults);
      var rows := NewestFirst(Filter(payments, (p: Payment) => Listed(role, caller, ids, p.tenantId, p.buildingId) && PassesFilters(p, f)),
                              (p: Payment) => p.createdAt);
      assert forall p :: p in rows <==> p in multiset(rows);
      FilterCount(payments, (p: Payment) => Listed(role, caller, ids, p.tenantId, p.buildingId) && PassesFilters(p, f));
      Ok(200, rows)
  }

  /** `ListPayments`: builds the building-id list with a loop, then runs the scoped, filtered query. */
  method ListPayments(store: Store, caller: string, role: string, f: PaymentFilters, faults: Faults) returns (r: Reply<seq<Payment>>)
    ensures r == PaymentsListing(store.payments, store.buildings, caller, role, f, faults)
  {
    var ids: seq<string> := [];
    if role != "tenant" && 0 !in faults {
      ids := CollectBuildingIds(OwnedBy(store.buildings, caller));
    }
    if QueryCall(role) in faults {
      return Fail(500, "Failed to fetch payments");
    }
    ghost var expected := LandlordBuildingIds(store.buildings, caller, faults);
    assert role != "tenant" ==> ids == expected;
    var rows := NewestFirst(Filter(store.payments, (p: Payment) => Listed(role, caller, ids, p.tenantId, p.buildingId) && PassesFilters(p, f)),
                            (p: Payment) => p.createdAt);
    FilterCongruent(store.payments, (p: Payment) => Listed(role, caller, ids, p.tenantId, p.buildingId) && PassesFilters(p, f),
                    (p: Payment) => Listed(role, caller, expected, p.tenantId, p.buildingId) && PassesFilters(p, f));
    r := Ok(200, rows);
  }

  /** The filters only narrow: a filtered listing is the unfiltered one with the filters applied. */
  lemma FiltersNarrow(payments: seq<Payment>, buildings: seq<Building>, caller: string, role: string, f: PaymentFilters, faults: Faults)
    requires QueryCall(role) !in faults
    ensures var all := PaymentsListing(payments, buildings, caller, role, PaymentFilters("", ""), faults);
            var some := PaymentsListing(payments, buildings, caller, role, f, faults);
            forall p :: p in some.data <==> p in all.data && PassesFilters(p, f)
  {
  }

  /** A tenant sees only their own payments, whatever filters they pass. */
  lemma TenantSeesOwnPayments(payments: seq<Payment>, buildings: seq<Building>, caller: string, f: PaymentFilters, faults: Faults)
    requires 0 !in faults
    ensures var r := PaymentsListing(payments, buildings, caller, "tenant", f, faults);
            r.Ok? && forall p :: p in r.data <==> p in payments && p.tenantId == caller && PassesFilters(p, f)
  {
  }

  /**
   * As written, a landlord who owns no building (or whose building read
   * fails) can list every payment, and with `building_id` the payments of
   * any building.
   */
  lemma NoBuildingsSeesAllPayments(payments: seq<Payment>, buildings: seq<Building>, caller: string, role: string,
                                   f: PaymentFilters, faults: Faults)
    requires role != "tenant" && 1 !in faults
    requires 0 in faults || forall b :: b in buildings ==> b.landlordId != caller
    ensures var r := PaymentsListing(payments, buildings, caller, role, f, faults);
            r.Ok? && forall p :: p in r.data <==> p in payments && PassesFilters(p, f)
  {
  }

  /** `ListPayments` with the scope the comments state: a landlord without buildings sees no payment. */
  function ScopedPaymentsListing(payments: seq<Payment>, buildings: seq<Building>, caller: string, role: string,
                                 f: PaymentFilters, faults: Faults): (r: Reply<seq<Payment>>)
    ensures r.Fail? <==> QueryCall(role) in faults
    ensures r.Ok? ==> forall p :: p in r.data <==>
              p in payments && ScopedListed(role, caller, LandlordBuildingIds(buildings, caller, faults), p.tenantId, p.buildingId)
              && PassesFilters(p, f)
  {
    if QueryCall(role) in faults then Fail(500, "Failed to fetch payments")
    else
      var ids := LandlordBuildingIds(buildings, caller, faults);
      var rows := NewestFirst(Filter(payments, (p: Payment) => ScopedListed(role, caller, ids, p.tenantId, p.buildingId) && PassesFilters(p, f)),
                              (p: Payment) => p.createdAt);
      assert forall p :: p in rows <==> p in multiset(rows);
      Ok(200, rows)
  }

  /** With the stated scope, a non-tenant only ever sees payments of buildings they own, whatever fails or is filtered. */
  lemma ScopedSeesOnlyOwnPayments(payments: seq<Payment>, buildings: seq<Building>, caller: string, role: string,
                                  f: PaymentFilters, faults: Faults)
    requires role != "tenant"
    ensures var r := ScopedPaymentsListing(payments, buildings, caller, role, f, faults);
            r.Ok? ==> forall p :: p in r.data ==> exists b :: b in buildings && b.landlordId == caller && b.id == p.buildingId
  {
  }

  /** Where the landlord owns a building and its read succeeds, the two scopes agree. */
  lemma PaymentScopesAgree(payments: seq<Payment>, buildings: seq<Building>, caller: string, role: string,
                           f: PaymentFilters, faults: Faults)
    requires 0 !in faults && exists b :: b in buildings && b.landlordId == caller
    ensures ScopedPaymentsListing(payments, buildings, caller, role, f, faults) == PaymentsListing(payments, buildings, caller, role, f, faults)
  {
    var b :| b in buildings && b.landlordId == caller;
    var ids := LandlordBuildingIds(buildings, caller, faults);
    assert b.id in ids;
    FilterCongruent(payments, (p: Payment) => ScopedListed(role, caller, ids, p.tenantId, p.buildingId) && PassesFilters(p, f),
                    (p: Payment) => Listed(role, caller, ids, p.tenantId, p.buildingId) && PassesFilters(p, f));
  }

  /** A payment just started is listed first for its tenant under the `pending` filter. */
  lemma StartedPaymentListedFirst(payments: seq<Payment>, buildings: seq<Building>, p: Payment)
    requires p.status == "pending"
    requires forall x :: x in payments ==> x.createdAt < p.createdAt
    ensures var r := PaymentsListing(payments + [p], buildings, p.tenantId, "tenant", PaymentFilters("pending", ""), map[]);
            r.Ok? && r.data != [] && r.data[0] == p
  {
    var all := payments + [p];
    var ids := LandlordBuildingIds(buildings, p.tenantId, map[]);
    var f := PaymentFilters("pending", "");
    var mine := Filter(all, (x: Payment) => Listed("tenant", p.tenantId, ids, x.tenantId, x.buildingId) && PassesFilters(x, f));
    assert p in all;
    NewestIsFirst(mine, (x: Payment) => x.createdAt, p);
  }
}
