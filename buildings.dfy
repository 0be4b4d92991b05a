/**
 * `BuildingsHandler`: a landlord's buildings and their units.
 *
 * Every handler scopes its queries to the caller (`landlord_id = caller`).
 * The id of an inserted row is chosen by the database and is a parameter.
 */
module Buildings {
  import opened Common
  import opened Tables

  datatype CreateBuildingRequest = CreateBuildingRequest(name: string, address: string, totalUnits: int, photoUrl: string)
  datatype UpdateBuildingRequest = UpdateBuildingRequest(
    name: Option<string>, address: Option<string>, totalUnits: Option<int>, photoUrl: Option<string>)
  datatype CreateUnitRequest = CreateUnitRequest(
    buildingId: string, unitNumber: string, rentAmount: int, leaseStart: string, leaseEnd: string)

  /** A value in an update patch. */
  datatype Value = Text(text: string) | Number(number: int)

  /** The status a unit row gets when the insert does not name one (the table's default). */
  const DefaultUnitStatus := "vacant"

  /** The caller's buildings, newest first; the query is database call 0. */
  function ListBuildings(buildings: seq<Building>, caller: string, faults: Faults): (r: Reply<seq<Building>>)
    ensures r.Fail? <==> 0 in faults
    ensures r.Fail? ==> r == Fail(500, "Failed to fetch buildings")
    ensures r.Ok? ==> r.status == 200 && multiset(r.data) == multiset(OwnedBy(buildings, caller))
    ensures r.Ok? ==> forall b :: b in r.data <==> b in buildings && b.landlordId == caller
    ensures r.Ok? ==> forall i, j :: 0 <= i < j < |r.data| ==> r.data[i].createdAt >= r.data[j].createdAt
  {
    if 0 in faults then Fail(500, "Failed to fetch buildings")
    else
      var rows := NewestFirst(OwnedBy(buildings, caller), (b: Building) => b.createdAt);
      assert forall b :: b in rows <==> b in multiset(rows);
      Ok(200, rows)
  }

  /** The caller's building with that id; the query is database call 0. */
  function GetBuilding(buildings: seq<Building>, caller: string, id: string, faults: Faults): (r: Reply<Building>)
    ensures 0 in faults ==> r == Fail(500, "Failed to fetch building")
    ensures 0 !in faults ==>
              (r == Fail(404, "Building not found") <==> forall b :: b in buildings ==> b.id != id || b.landlordId != caller)
    ensures 0 !in faults && FirstWhere(buildings, Selects(caller, id)).Some? ==>
              r == Ok(200, FirstWhere(buildings, Selects(caller, id)).value)
    ensures r.Ok? ==> r.status == 200 && r.data in buildings && r.data.id == id && r.data.landlordId == caller
  {
    if 0 in faults then Fail(500, "Failed to fetch building")
    else
      match FirstWhere(buildings, Selects(caller, id))
      case None => Fail(404, "Building not found")
      case Some(b) => Ok(200, b)
  }

  /** `CreateBuilding`: the insert is database call 0. */
  method CreateBuilding(store: Store, caller: string, req: Option<CreateBuildingRequest>, newId: string, faults: Faults)
    returns (r: Reply<Building>)
    requires store.Valid()
    modifies store`buildings, store`now
    ensures store.Valid()
    ensures req.None? ==> r == Fail(400, "Invalid request body")
    ensures req.Some? && (req.value.name == "" || req.value.address == "") ==> r == Fail(400, "Name and address are required")
    ensures req.Some? && req.value.name != "" && req.value.address != "" && 0 in faults ==>
              r == Fail(500, "Failed to create building: " + faults[0])
    ensures r.Fail? ==> unchanged(store`buildings, store`now)
    ensures r.Ok? <==> req.Some? && req.value.name != "" && req.value.address != "" && 0 !in faults
    ensures r.Ok? ==>
              var q := req.value;
              && r == Ok(201, Building(newId, caller, q.name, q.address, q.totalUnits, q.photoUrl, old(store.now)))
              && store.buildings == old(store.buildings) + [r.data]
              && store.now == old(store.now) + 1
  {
    if req.None? {
      return Fail(400, "Invalid request body");
    }
    var q := req.value;
    if q.name == "" || q.address == "" {
      return Fail(400, "Name and address are required");
    }
    if 0 in faults {
      return Fail(500, "Failed to create building: " + faults[0]);
    }
    var b := Building(newId, caller, q.name, q.address, q.totalUnits, q.photoUrl, store.now);
    store.AddBuilding(b);
    r := Ok(201, b);
  }

  /** A building just created comes first in its landlord's list. */
  lemma CreatedListedFirst(buildings: seq<Building>, b: Building)
    requires forall x :: x in buildings ==> x.createdAt < b.createdAt
    ensures var r := ListBuildings(buildings + [b], b.landlordId, map[]);
            r.Ok? && r.data != [] && r.data[0] == b
  {
    var all := buildings + [b];
    var mine := OwnedBy(all, b.landlordId);
    assert b in all;
    NewestIsFirst(mine, (x: Building) => x.createdAt, b);
  }

  /** The patch `UpdateBuilding` builds: exactly the fields the request carries. */
  function PatchOf(req: UpdateBuildingRequest): (patch: map<string, Value>)
    ensures patch.Keys <= {"name", "address", "total_units", "photo_url"}
    ensures "name" in patch <==> req.name.Some?
    ensures "address" in patch <==> req.address.Some?
    ensures "total_units" in patch <==> req.totalUnits.Some?
    ensures "photo_url" in patch <==> req.photoUrl.Some?
    ensures "name" in patch ==> patch["name"] == Text(req.name.value)
    ensures "address" in patch ==> patch["address"] == Text(req.address.value)
    ensures "total_units" in patch ==> patch["total_units"] == Number(req.totalUnits.value)
    ensures "photo_url" in patch ==> patch["photo_url"] == Text(req.photoUrl.value)
  {
    var p := map[];
    var p := if req.name.Some? then p["name" := Text(req.name.value)] else p;
    var p := if req.address.Some? then p["address" := Text(req.address.value)] else p;
    var p := if req.totalUnits.Some? then p["total_units" := Number(req.totalUnits.value)] else p;
    if req.photoUrl.Some? then p["photo_url" := Text(req.photoUrl.value)] else p
  }

  /** `update := map{}; if req.X != nil { update["x"] = *req.X } ...`, one field at a time. */
  method BuildPatch(req: UpdateBuildingRequest) returns (update: map<string, Value>)
    ensures update == PatchOf(req)
  {
    update := map[];
    if req.name.Some? {
      update := update["name" := Text(req.name.value)];
    }
    if req.address.Some? {
      update := update["address" := Text(req.address.value)];
    }
    if req.totalUnits.Some? {
      update := update["total_units" := Number(req.totalUnits.value)];
    }
    if req.photoUrl.Some? {
      update := update["photo_url" := Text(req.photoUrl.value)];
    }
  }

  /** The patch is empty iff the request names no field. */
  lemma EmptyPatch(req: UpdateBuildingRequest)
    ensures |PatchOf(req)| == 0 <==> req.name.None? && req.address.None? && req.totalUnits.None? && req.photoUrl.None?
  {
    var p := PatchOf(req);
    if req.name.Some? { assert "name" in p; }
    if req.address.Some? { assert "address" in p; }
    if req.totalUnits.Some? { assert "total_units" in p; }
    if req.photoUrl.Some? { assert "photo_url" in p; }
  }

  /** A row with a patch applied by the database. */
  function Patched(b: Building, patch: map<string, Value>): (v: Building)
    ensures v.id == b.id && v.landlordId == b.landlordId && v.createdAt == b.createdAt
  {
    b.(name := if "name" in patch && patch["name"].Text? then patch["name"].text else b.name,
       address := if "address" in patch && patch["address"].Text? then patch["address"].text else b.address,
       totalUnits := if "total_units" in patch && patch["total_units"].Number? then patch["total_units"].number else b.totalUnits,
       photoUrl := if "photo_url" in patch && patch["photo_url"].Text? then patch["photo_url"].text else b.photoUrl)
  }

  /** The request's fields replace the row's, absent fields keep their value, and id, owner and creation time never change. */
  lemma PatchSemantics(b: Building, req: UpdateBuildingRequest)
    ensures var v := Patched(b, PatchOf(req));
            && v.name == req.name.GetOr(b.name)
            && v.address == req.address.GetOr(b.address)
            && v.totalUnits == req.totalUnits.GetOr(b.totalUnits)
            && v.photoUrl == req.photoUrl.GetOr(b.photoUrl)
            && v.id == b.id && v.landlordId == b.landlordId && v.createdAt == b.createdAt
  {
  }

  function Selects(caller: string, id: string): Building -> bool {
    (b: Building) => b.id == id && b.landlordId == caller
  }

  /** `UpdateBuilding`: the update is database call 0. */
  method UpdateBuilding(store: Store, caller: string, id: string, req: Option<UpdateBuildingRequest>, faults: Faults)
    returns (r: Reply<Building>)
    modifies store`buildings
    ensures req.None? ==> r == Fail(400, "Invalid request body")
    ensures req.Some? && |PatchOf(req.value)| == 0 ==> r == Fail(400, "No fields to update")
    ensures req.Some? && |PatchOf(req.value)| != 0 && 0 in faults ==> r == Fail(500, "Failed to update building")
    ensures req.Some? && |PatchOf(req.value)| != 0 && 0 !in faults ==>
              && store.buildings == UpdateWhere(old(store.buildings), Selects(caller, id), (b: Building) => Patched(b, PatchOf(req.value)))
              && (r == Fail(404, "Building not found") <==> FirstWhere(old(store.buildings), Selects(caller, id)).None?)
              && (FirstWhere(old(store.buildings), Selects(caller, id)).Some? ==>
                    r == Ok(200, Patched(FirstWhere(old(store.buildings), Selects(caller, id)).value, PatchOf(req.value))))
    ensures r.Fail? ==> unchanged(store`buildings)
  {
    if req.None? {
      return Fail(400, "Invalid request body");
    }
    var update := BuildPatch(req.value);
    if |update| == 0 {
      return Fail(400, "No fields to update");
    }
    if 0 in faults {
      return Fail(500, "Failed to update building");
    }
    var sel := Selects(caller, id);
    var first := FirstWhere(store.buildings, sel);
    if first.None? {
      UpdateNothing(store.buildings, sel, (b: Building) => Patched(b, update));
      return Fail(404, "Building not found");
    }
    store.buildings := UpdateWhere(store.buildings, sel, (b: Building) => Patched(b, update));
    r := Ok(200, Patched(first.value, update));
  }

  /** The units of the caller's building, by unit number; database calls 0 (ownership) and 1 (units). */
  function ListUnits(buildings: seq<Building>, units: seq<Unit>, caller: string, id: string, faults: Faults): (r: Reply<seq<Unit>>)
    ensures 0 in faults ==> r == Fail(500, "Failed to verify building")
    ensures 0 !in faults ==>
              (r == Fail(404, "Building not found") <==> forall b :: b in buildings ==> b.id != id || b.landlordId != caller)
    ensures 0 !in faults && FirstWhere(buildings, Selects(caller, id)).Some? && 1 in faults ==>
              r == Fail(500, "Failed to fetch units")
    ensures r.Ok? <==> 0 !in faults && 1 !in faults && exists b :: b in buildings && b.id == id && b.landlordId == caller
    ensures r.Ok? ==> r.status == 200 && multiset(r.data) == multiset(Filter(units, (u: Unit) => u.buildingId == id))
    ensures r.Ok? ==> forall i, j :: 0 <= i < j < |r.data| ==> LexLe(r.data[i].unitNumber, r.data[j].unitNumber)
  {
    if 0 in faults then Fail(500, "Failed to verify building")
    else if FirstWhere(buildings, Selects(caller, id)).None? then Fail(404, "Building not found")
    else if 1 in faults then Fail(500, "Failed to fetch units")
    else Ok(200, ByUnitNumber(Filter(units, (u: Unit) => u.buildingId == id)))
  }

  /** `CreateUnit`: database calls 0 (ownership, error ignored) and 1 (insert). */
  method CreateUnit(store: Store, caller: string, req: Option<CreateUnitRequest>, newId: string, faults: Faults)
    returns (r: Reply<Unit>)
    requires store.Valid()
    modifies store`units, store`now
    ensures store.Valid()
    ensures req.None? ==> r == Fail(400, "Invalid request body")
    ensures req.Some? && (req.value.buildingId == "" || req.value.unitNumber == "") ==>
              r == Fail(400, "Building ID and unit number are required")
    ensures req.Some? && req.value.buildingId != "" && req.value.unitNumber != "" &&
            (0 in faults || FirstWhere(store.buildings, Selects(caller, req.value.buildingId)).None?) ==>
              r == Fail(403, "Building not found or not yours")
    ensures r.Fail? ==> unchanged(store`units, store`now)
    ensures req.Some? && req.value.buildingId != "" && req.value.unitNumber != "" && 0 !in faults &&
            FirstWhere(store.buildings, Selects(caller, req.value.buildingId)).Some? && 1 in faults ==>
              r == Fail(500, "Failed to create unit: " + faults[1])
    ensures r.Ok? <==>
              && req.Some? && req.value.buildingId != "" && req.value.unitNumber != "" && 0 !in faults && 1 !in faults
              && FirstWhere(store.buildings, Selects(caller, req.value.buildingId)).Some?
    ensures r.Ok? ==>
              var q := req.value;
              && r == Ok(201, Unit(newId, q.buildingId, None, q.unitNumber, q.rentAmount, q.leaseStart, q.leaseEnd,
                                   DefaultUnitStatus, old(store.now)))
              && store.units == old(store.units) + [r.data]
              && store.now == old(store.now) + 1
  {
    if req.None? {
      return Fail(400, "Invalid request body");
    }
    var q := req.value;
    if q.buildingId == "" || q.unitNumber == "" {
      return Fail(400, "Building ID and unit number are required");
    }
    var owned := if 0 in faults then None else FirstWhere(store.buildings, Selects(caller, q.buildingId));
    if owned.None? {
      return Fail(403, "Building not found or not yours");
    }
    if 1 in faults {
      return Fail(500, "Failed to create unit: " + faults[1]);
    }
    var u := Unit(newId, q.buildingId, None, q.unitNumber, q.rentAmount, q.leaseStart, q.leaseEnd, DefaultUnitStatus, store.now);
    store.AddUnit(u);
    r := Ok(201, u);
  }
}
