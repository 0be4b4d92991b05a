/**
 * `DocumentsHandler`: recording a document whose file was put in storage
 * separately, and listing documents scoped by role.
 */
module Documents {
  import opened Common
  import opened Tables
  import Maintenance

  /** The decoded body of an upload; `""` stands for an absent building or unit id. */
  datatype UploadDocumentRequest = UploadDocumentRequest(buildingId: string, unitId: string, name: string, kind: string)

  /**
   * `UploadDocument`: `fileUrl` is the `file_url` query parameter; the insert
   * is database call 0.
   */
  method UploadDocument(store: Store, caller: string, req: Option<UploadDocumentRequest>, fileUrl: string, newId: string, faults: Faults)
    returns (r: Reply<Document>)
    requires store.Valid()
    modifies store`documents, store`now
    ensures store.Valid()
    ensures req.None? ==> r == Fail(400, "Invalid request body")
    ensures req.Some? && (req.value.name == "" || req.value.kind == "") ==> r == Fail(400, "Name and type are required")
    ensures req.Some? && req.value.name != "" && req.value.kind != "" && fileUrl == "" ==> r == Fail(400, "file_url is required")
    ensures req.Some? && req.value.name != "" && req.value.kind != "" && fileUrl != "" && 0 in faults ==>
              r == Fail(500, "Failed to save document: " + faults[0])
    ensures r.Fail? ==> unchanged(store`documents, store`now)
    ensures r.Ok? <==> req.Some? && req.value.name != "" && req.value.kind != "" && fileUrl != "" && 0 !in faults
    ensures r.Ok? ==>
              var q := req.value;
              && r == Ok(201, Document(newId, caller, q.buildingId, q.unitId, q.name, q.kind, fileUrl, old(store.now)))
              && store.documents == old(store.documents) + [r.data]
              && store.now == old(store.now) + 1
  {
    if req.None? {
      return Fail(400, "Invalid request body");
    }
    var q := req.value;
    if q.name == "" || q.kind == "" {
      return Fail(400, "Name and type are required");
    }
    if fileUrl == "" {
      return Fail(400, "file_url is required");
    }
    if 0 in faults {
      return Fail(500, "Failed to save document: " + faults[0]);
    }
    var doc := Document(newId, caller, q.buildingId, q.unitId, q.name, q.kind, fileUrl, store.now);
    store.AddDocument(doc);
    r := Ok(201, doc);
  }

  function UploadedAt(d: Document): nat { d.createdAt }

  /**
   * The unit whose documents a tenant lists: the first unit assigned to them,
   * read by the unchecked database call 0 (a failed read gives no unit).
   */
  function ListedUnit(units: seq<Unit>, caller: string, faults: Faults): (u: Option<Unit>)
    ensures 0 in faults ==> u.None?
    ensures 0 !in faults ==> u == Maintenance.TenantUnit(units, caller)
  {
    if 0 in faults then None else Maintenance.TenantUnit(units, caller)
  }

  /** Whether a document is in a caller's listing: the tenant's unit, or what the caller uploaded. */
  predicate Shows(role: string, caller: string, unit: Option<Unit>, d: Document) {
    if role == "tenant" then unit.Some? && d.unitId == unit.value.id else d.uploadedBy == caller
  }

  /**
   * `ListDocuments`: a tenant without a unit gets an empty list without the
   * query running; otherwise the query is call 1 for a tenant and call 0 for
   * anyone else.
   */
  function ListDocuments(documents: seq<Document>, units: seq<Unit>, caller: string, role: string, faults: Faults)
    : (r: Reply<seq<Document>>)
    ensures role == "tenant" && ListedUnit(units, caller, faults).None? ==> r == Ok(200, [])
    ensures role == "tenant" && ListedUnit(units, caller, faults).Some? ==> (r.Fail? <==> 1 in faults)
    ensures role != "tenant" ==> (r.Fail? <==> 0 in faults)
    ensures r.Fail? ==> r == Fail(500, "Failed to fetch documents")
    ensures r.Ok? ==> r.status == 200
    ensures r.Ok? ==> forall d :: d in r.data <==> d in documents && Shows(role, caller, ListedUnit(units, caller, faults), d)
    ensures r.Ok? ==> forall i, j :: 0 <= i < j < |r.data| ==> r.data[i].createdAt >= r.data[j].createdAt
  {
    var unit := ListedUnit(units, caller, faults);
    if role == "tenant" && unit.None? then Ok(200, [])
    else if (if role == "tenant" then 1 else 0) in faults then Fail(500, "Failed to fetch documents")
    else Ok(200, DocumentRows(documents, role, caller, unit))
  }

  /** The rows the listing query returns, newest first. */
  function DocumentRows(documents: seq<Document>, role: string, caller: string, unit: Option<Unit>): (rows: seq<Document>)
    ensures forall d :: d in rows <==> d in documents && Shows(role, caller, unit, d)
    ensures forall i, j :: 0 <= i < j < |rows| ==> rows[i].createdAt >= rows[j].createdAt
    ensures forall d :: multiset(rows)[d] == if Shows(role, caller, unit, d) then multiset(documents)[d] else 0
  {
    var rows := NewestFirst(Filter(documents, (d: Document) => Shows(role, caller, unit, d)), UploadedAt);
    assert forall d :: d in rows <==> d in multiset(rows);
    FilterCount(documents, (d: Document) => Shows(role, caller, unit, d));
    rows
  }

  /** A tenant sees every document of their unit, whoever uploaded it, and nothing else. */
  lemma TenantSeesUnitDocuments(documents: seq<Document>, units: seq<Unit>, caller: string, u: Unit)
    requires Maintenance.TenantUnit(units, caller) == Some(u)
    ensures var r := ListDocuments(documents, units, caller, "tenant", map[]);
            r.Ok? && forall d :: d in r.data <==> d in documents && d.unitId == u.id
  {
  }

  /** A landlord sees exactly what they uploaded, whichever building or unit it names. */
  lemma UploaderSeesOwnDocuments(documents: seq<Document>, units: seq<Unit>, caller: string, role: string)
    requires role != "tenant"
    ensures var r := ListDocuments(documents, units, caller, role, map[]);
            r.Ok? && forall d :: d in r.data <==> d in documents && d.uploadedBy == caller
  {
  }

  /** A document just recorded heads its uploader's listing. */
  lemma UploadedListedFirst(documents: seq<Document>, units: seq<Unit>, doc: Document, role: string)
    requires role != "tenant"
    requires forall d :: d in documents ==> d.createdAt < doc.createdAt
    ensures var r := ListDocuments(documents + [doc], units, doc.uploadedBy, role, map[]);
            r.Ok? && r.data != [] && r.data[0] == doc
  {
    var all := documents + [doc];
    var unit := ListedUnit(units, doc.uploadedBy, map[]);
    var mine := Filter(all, (d: Document) => Shows(role, doc.uploadedBy, unit, d));
    assert doc in all;
    NewestIsFirst(mine, UploadedAt, doc);
  }

  /** A document recorded against a tenant's unit is in that tenant's listing. */
  lemma UploadReachesTenant(documents: seq<Document>, units: seq<Unit>, doc: Document, tenant: string)
    requires Maintenance.TenantUnit(units, tenant).Some? && doc.unitId == Maintenance.TenantUnit(units, tenant).value.id
    ensures var r := ListDocuments(documents + [doc], units, tenant, "tenant", map[]);
            r.Ok? && doc in r.data
  {
    assert doc in documents + [doc];
  }
}
