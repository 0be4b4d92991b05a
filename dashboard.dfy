/**
 * `DashboardHandler`: a landlord's aggregated figures and a tenant's unit
 * and payment summary.
 *
 * No database error is checked here: a failed read decodes to no rows. The
 * landlord dashboard's calls are numbered 0 (the buildings), 1 .. n (the
 * units of building k at call 1 + k), n + 1 .. 2n (its payments at call
 * 1 + n + k) and 2n + 1 (the recent payments), n being the buildings read.
 */
module Dashboard {
  import opened Common
  import opened Tables
  import Maintenance

  // ---------------------------------------------------------------------
  // Weighted totals
  // ---------------------------------------------------------------------

  /** The sum of `w` over `s`. */
  function Total<T>(s: seq<T>, w: T -> int): int {
    if s == [] then 0 else w(s[0]) + Total(s[1..], w)
  }

  lemma {:induction false} TotalAppend<T>(a: seq<T>, b: seq<T>, w: T -> int)
    ensures Total(a + b, w) == Total(a, w) + Total(b, w)
  {
    if a == [] {
      assert a + b == b;
    } else {
      assert (a + b)[1..] == a[1..] + b;
      TotalAppend(a[1..], b, w);
    }
  }

  lemma TotalSnoc<T>(s: seq<T>, x: T, w: T -> int)
    ensures Total(s + [x], w) == Total(s, w) + w(x)
  {
    TotalAppend(s, [x], w);
  }

  /** A total does not depend on the order of the rows. */
  lemma {:induction false} TotalPermutation<T>(s: seq<T>, t: seq<T>, w: T -> int)
    requires multiset(s) == multiset(t)
    ensures Total(s, w) == Total(t, w)
  {
    if s == [] {
      assert |t| == |multiset(t)| == 0;
    } else {
      var x := s[0];
      assert x in multiset(t);
      var k :| 0 <= k < |t| && t[k] == x;
      var rest := t[..k] + t[k + 1..];
      assert t == t[..k] + [x] + t[k + 1..];
      assert multiset(t) == multiset(t[..k]) + multiset{x} + multiset(t[k + 1..]);
      assert s == [x] + s[1..];
      assert multiset(s) == multiset{x} + multiset(s[1..]);
      assert multiset(rest) == multiset(t[..k]) + multiset(t[k + 1..]);
      assert multiset(t) == multiset{x} + multiset(rest);
      forall y ensures multiset(s[1..])[y] == multiset(rest)[y] {
        assert multiset(s)[y] == multiset{x}[y] + multiset(s[1..])[y];
        assert multiset(t)[y] == multiset{x}[y] + multiset(rest)[y];
      }
      assert multiset(s[1..]) == multiset(rest);
      TotalPermutation(s[1..], rest, w);
      TotalAppend(t[..k] + [x], t[k + 1..], w);
      TotalAppend(t[..k], [x], w);
      TotalAppend(t[..k], t[k + 1..], w);
    }
  }

  lemma {:induction false} TotalMonotone<T(!new)>(s: seq<T>, w1: T -> int, w2: T -> int)
    requires forall x :: x in s ==> w1(x) <= w2(x)
    ensures Total(s, w1) <= Total(s, w2)
  {
    if s != [] {
      assert s[0] in s;
      assert forall x :: x in s[1..] ==> x in s;
      TotalMonotone(s[1..], w1, w2);
    }
  }

  lemma {:induction false} TotalLinear<T(!new)>(s: seq<T>, w: T -> int, w1: T -> int, w2: T -> int)
    requires forall x :: x in s ==> w(x) == w1(x) + w2(x)
    ensures Total(s, w) == Total(s, w1) + Total(s, w2)
  {
    if s != [] {
      assert s[0] in s;
      assert forall x :: x in s[1..] ==> x in s;
      TotalLinear(s[1..], w, w1, w2);
    }
  }

  lemma {:induction false} TotalZero<T(!new)>(s: seq<T>, w: T -> int)
    requires forall x :: x in s ==> w(x) == 0
    ensures Total(s, w) == 0
  {
    if s != [] {
      assert s[0] in s;
      assert forall x :: x in s[1..] ==> x in s;
      TotalZero(s[1..], w);
    }
  }

  /** Summing over the selected rows is summing a weight that is zero on the others. */
  lemma {:induction false} TotalFilter<T(!new)>(s: seq<T>, p: T -> bool, w: T -> int, pw: T -> int)
    requires forall x :: pw(x) == if p(x) then w(x) else 0
    ensures Total(Filter(s, p), w) == Total(s, pw)
  {
    if s != [] {
      TotalFilter(s[1..], p, w, pw);
      var head := if p(s[0]) then [s[0]] else [];
      assert Filter(s, p) == head + Filter(s[1..], p);
      TotalAppend(head, Filter(s[1..], p), w);
    }
  }

  // ---------------------------------------------------------------------
  // Weights
  // ---------------------------------------------------------------------

  function UnitBuilding(u: Unit): string { u.buildingId }
  function PaymentBuilding(p: Payment): string { p.buildingId }
  function CountAll(u: Unit): int { 1 }
  function CountNone(u: Unit): int { 0 }
  function CountOccupied(u: Unit): int { if u.status == "occupied" then 1 else 0 }
  function CollectedAmount(p: Payment): int { if p.status == "successful" then p.amount else 0 }
  function PendingAmount(p: Payment): int { if p.status == "pending" then p.amount else 0 }

  lemma {:induction false} CountAllIsLength(s: seq<Unit>)
    ensures Total(s, CountAll) == |s|
  {
    if s != [] {
      CountAllIsLength(s[1..]);
    }
  }

  // ---------------------------------------------------------------------
  // Landlord dashboard
  // ---------------------------------------------------------------------

  /** The rows of one building that a per-building read returns: none when that call fails. */
  function ReadFor<T(!new)>(rows: seq<T>, key: T -> string, b: Building, failed: bool): seq<T> {
    if failed then [] else Filter(rows, (x: T) => key(x) == b.id)
  }

  /** The per-building reads of `bs`, the read of `bs[k]` being database call `first + k`. */
  function Reads<T(!new)>(rows: seq<T>, bs: seq<Building>, key: T -> string, faults: Faults, first: nat): (chunks: seq<seq<T>>)
    ensures |chunks| == |bs|
    decreases |bs|
  {
    if bs == [] then []
    else
      var n := |bs| - 1;
      Reads(rows, bs[..n], key, faults, first) + [ReadFor(rows, key, bs[n], first + n in faults)]
  }

  /** Reading one more building appends its read. */
  lemma ReadsPrefix<T(!new)>(rows: seq<T>, bs: seq<Building>, k: nat, key: T -> string, faults: Faults, first: nat)
    requires k < |bs|
    ensures Reads(rows, bs[..k + 1], key, faults, first)
            == Reads(rows, bs[..k], key, faults, first) + [ReadFor(rows, key, bs[k], first + k in faults)]
  {
    assert bs[..k + 1][..k] == bs[..k];
  }

  /** The sum of `w` over every read. */
  function SumTotals<T>(chunks: seq<seq<T>>, w: T -> int): int {
    if chunks == [] then 0 else SumTotals(chunks[..|chunks| - 1], w) + Total(chunks[|chunks| - 1], w)
  }

  lemma SumTotalsSnoc<T>(chunks: seq<seq<T>>, c: seq<T>, w: T -> int)
    ensures SumTotals(chunks + [c], w) == SumTotals(chunks, w) + Total(c, w)
  {
    assert (chunks + [c])[..|chunks|] == chunks;
  }

  lemma {:induction false} SumTotalsMonotone<T(!new)>(chunks: seq<seq<T>>, w1: T -> int, w2: T -> int)
    requires forall x :: w1(x) <= w2(x)
    ensures SumTotals(chunks, w1) <= SumTotals(chunks, w2)
  {
    if chunks != [] {
      SumTotalsMonotone(chunks[..|chunks| - 1], w1, w2);
      TotalMonotone(chunks[|chunks| - 1], w1, w2);
    }
  }

  lemma {:induction false} SumTotalsZero<T(!new)>(chunks: seq<seq<T>>, w: T -> int)
    requires forall x :: w(x) == 0
    ensures SumTotals(chunks, w) == 0
  {
    if chunks != [] {
      SumTotalsZero(chunks[..|chunks| - 1], w);
      TotalZero(chunks[|chunks| - 1], w);
    }
  }

  /** Building ids are distinct (they are the table's primary key). */
  predicate DistinctIds(bs: seq<Building>) {
    forall i, j :: 0 <= i < j < |bs| ==> bs[i].id != bs[j].id
  }

  /** The weight a row has when it belongs to one of `ids`. */
  function Within<T>(key: T -> string, w: T -> int, ids: seq<string>): T -> int {
    (x: T) => if key(x) in ids then w(x) else 0
  }

  /**
   * When no per-building read fails, summing building by building is summing
   * over every row that belongs to one of the buildings, each row once.
   */
  lemma {:induction false} ReadsAreTotal<T(!new)>(rows: seq<T>, bs: seq<Building>, key: T -> string, w: T -> int,
                                                  faults: Faults, first: nat)
    requires DistinctIds(bs)
    requires forall c :: first <= c < first + |bs| ==> c !in faults
    ensures SumTotals(Reads(rows, bs, key, faults, first), w) == Total(rows, Within(key, w, BuildingIds(bs)))
    decreases |bs|
  {
    if bs == [] {
      TotalZero(rows, Within(key, w, BuildingIds(bs)));
    } else {
      var n := |bs| - 1;
      var pre, b := bs[..n], bs[n];
      assert bs == pre + [b];
      assert first + n !in faults;
      ReadsAreTotal(rows, pre, key, w, faults, first);
      SumTotalsSnoc(Reads(rows, pre, key, faults, first), ReadFor(rows, key, b, false), w);
      BuildingIdsMembership(pre, b.id);
      WithinSnoc(rows, pre, b, key, w);
    }
  }

  /** Adding a building whose id is new adds the total of its own rows. */
  lemma WithinSnoc<T(!new)>(rows: seq<T>, pre: seq<Building>, b: Building, key: T -> string, w: T -> int)
    requires b.id !in BuildingIds(pre)
    ensures Total(rows, Within(key, w, BuildingIds(pre + [b])))
            == Total(rows, Within(key, w, BuildingIds(pre))) + Total(ReadFor(rows, key, b, false), w)
  {
    var wb := (x: T) => if key(x) == b.id then w(x) else 0;
    TotalFilter(rows, (x: T) => key(x) == b.id, w, wb);
    BuildingIdsSnoc(pre, b);
    TotalLinear(rows, Within(key, w, BuildingIds(pre + [b])), Within(key, w, BuildingIds(pre)), wb);
  }

  datatype LandlordStats = LandlordStats(
    totalBuildings: nat, totalUnits: int, occupiedUnits: int, totalCollected: int, totalPending: int,
    recentPayments: seq<Payment>, activeBuildings: seq<Building>)

  /** The buildings read (call 0): the caller's, in table order. */
  function BuildingsRead(buildings: seq<Building>, caller: string, faults: Faults): (bs: seq<Building>)
    ensures 0 in faults ==> bs == []
    ensures 0 !in faults ==> forall b :: b in bs <==> b in buildings && b.landlordId == caller
  {
    if 0 in faults then [] else OwnedBy(buildings, caller)
  }

  predicate Successful(p: Payment) { p.status == "successful" }
  function PaidAt(p: Payment): nat { p.createdAt }

  /** The recent-payments read: the five newest successful payments of any landlord. */
  function RecentPayments(payments: seq<Payment>, failed: bool): (r: seq<Payment>)
    ensures |r| <= 5
    ensures forall p :: p in r ==> p in payments && p.status == "successful"
    ensures forall i, j :: 0 <= i < j < |r| ==> r[i].createdAt >= r[j].createdAt
    ensures !failed ==> forall p :: p in payments && p.status == "successful" && p !in r ==>
              |r| == 5 && forall q :: q in r ==> q.createdAt >= p.createdAt
  {
    if failed then []
    else
      NewestTake(Filter(payments, Successful), PaidAt, 5);
      Take(NewestFirst(Filter(payments, Successful), PaidAt), 5)
  }

  /** The recent payments are the five newest successful ones, or all of them when there are fewer. */
  lemma RecentCount(payments: seq<Payment>)
    ensures |RecentPayments(payments, false)| == Min(5, |Filter(payments, Successful)|)
  {
    NewestTake(Filter(payments, Successful), PaidAt, 5);
  }

  /** The recent payments `LandlordDashboard` reads, by call 2n + 1 after n buildings. */
  function LandlordRecent(payments: seq<Payment>, bs: seq<Building>, faults: Faults): (r: seq<Payment>)
    ensures 1 + 2 * |bs| in faults ==> r == []
  {
    RecentPayments(payments, 1 + 2 * |bs| in faults)
  }

  /** What `LandlordDashboard` answers. */
  function LandlordView(buildings: seq<Building>, units: seq<Unit>, payments: seq<Payment>, caller: string, faults: Faults)
    : (v: LandlordStats)
    ensures v.totalBuildings == |v.activeBuildings|
    ensures v.activeBuildings == BuildingsRead(buildings, caller, faults)
    ensures 0 <= v.occupiedUnits <= v.totalUnits
  {
    var bs := BuildingsRead(buildings, caller, faults);
    var n := |bs|;
    var unitReads := Reads(units, bs, UnitBuilding, faults, 1);
    var paymentReads := Reads(payments, bs, PaymentBuilding, faults, 1 + n);
    SumTotalsZero(unitReads, CountNone);
    SumTotalsMonotone(unitReads, CountNone, CountOccupied);
    SumTotalsMonotone(unitReads, CountOccupied, CountAll);
    LandlordStats(
      n,
      SumTotals(unitReads, CountAll),
      SumTotals(unitReads, CountOccupied),
      SumTotals(paymentReads, CollectedAmount),
      SumTotals(paymentReads, PendingAmount),
      LandlordRecent(payments, bs, faults),
      bs)
  }

  /** The per-building unit loop: every unit counts, occupied ones count again. */
  method CountUnits(units: seq<Unit>) returns (all: int, occupied: int)
    ensures all == |units| == Total(units, CountAll)
    ensures occupied == Total(units, CountOccupied)
  {
    CountAllIsLength(units);
    all, occupied := |units|, 0;
    for j := 0 to |units|
      invariant occupied == Total(units[..j], CountOccupied)
    {
      TotalSnoc(units[..j], units[j], CountOccupied);
      assert units[..j + 1] == units[..j] + [units[j]];
      if units[j].status == "occupied" {
        occupied := occupied + 1;
      }
    }
    assert units[..|units|] == units;
  }

  /** The payment loop: successful amounts go to `collected`, pending ones to `pending`. */
  method SumPayments(payments: seq<Payment>) returns (collected: int, pending: int)
    ensures collected == Total(payments, CollectedAmount)
    ensures pending == Total(payments, PendingAmount)
  {
    collected, pending := 0, 0;
    for j := 0 to |payments|
      invariant collected == Total(payments[..j], CollectedAmount)
      invariant pending == Total(payments[..j], PendingAmount)
    {
      TotalSnoc(payments[..j], payments[j], CollectedAmount);
      TotalSnoc(payments[..j], payments[j], PendingAmount);
      assert payments[..j + 1] == payments[..j] + [payments[j]];
      if payments[j].status == "successful" {
        collected := collected + payments[j].amount;
      } else if payments[j].status == "pending" {
        pending := pending + payments[j].amount;
      }
    }
    assert payments[..|payments|] == payments;
  }

  /** The units loop of `LandlordDashboard`: building `bs[k]`'s units are read by call `1 + k`. */
  method SumUnitReads(units: seq<Unit>, bs: seq<Building>, faults: Faults) returns (totalUnits: int, occupiedUnits: int)
    ensures totalUnits == SumTotals(Reads(units, bs, UnitBuilding, faults, 1), CountAll)
    ensures occupiedUnits == SumTotals(Reads(units, bs, UnitBuilding, faults, 1), CountOccupied)
  {
    totalUnits, occupiedUnits := 0, 0;
    for k := 0 to |bs|
      invariant totalUnits == SumTotals(Reads(units, bs[..k], UnitBuilding, faults, 1), CountAll)
      invariant occupiedUnits == SumTotals(Reads(units, bs[..k], UnitBuilding, faults, 1), CountOccupied)
    {
      var read := ReadFor(units, UnitBuilding, bs[k], 1 + k in faults);
      ghost var done := Reads(units, bs[..k], UnitBuilding, faults, 1);
      ReadsPrefix(units, bs, k, UnitBuilding, faults, 1);
      SumTotalsSnoc(done, read, CountAll);
      SumTotalsSnoc(done, read, CountOccupied);
      var all, occupied := CountUnits(read);
      totalUnits, occupiedUnits := totalUnits + all, occupiedUnits + occupied;
    }
    assert bs[..|bs|] == bs;
  }

  /** The payments loop of `LandlordDashboard`: building `bs[k]`'s payments are read by call `first + k`. */
  method SumPaymentReads(payments: seq<Payment>, bs: seq<Building>, faults: Faults, first: nat) returns (collected: int, pending: int)
    ensures collected == SumTotals(Reads(payments, bs, PaymentBuilding, faults, first), CollectedAmount)
    ensures pending == SumTotals(Reads(payments, bs, PaymentBuilding, faults, first), PendingAmount)
  {
    collected, pending := 0, 0;
    for k := 0 to |bs|
      invariant collected == SumTotals(Reads(payments, bs[..k], PaymentBuilding, faults, first), CollectedAmount)
      invariant pending == SumTotals(Reads(payments, bs[..k], PaymentBuilding, faults, first), PendingAmount)
    {
      var read := ReadFor(payments, PaymentBuilding, bs[k], first + k in faults);
      ghost var done := Reads(payments, bs[..k], PaymentBuilding, faults, first);
      ReadsPrefix(payments, bs, k, PaymentBuilding, faults, first);
      SumTotalsSnoc(done, read, CollectedAmount);
      SumTotalsSnoc(done, read, PendingAmount);
      var c, p := SumPayments(read);
      collected, pending := collected + c, pending + p;
    }
    assert bs[..|bs|] == bs;
  }

  /** `LandlordDashboard`: the buildings read, the two per-building loops, then the recent payments. */
  method LandlordDashboard(store: Store, caller: string, faults: Faults) returns (r: LandlordStats)
    ensures r == LandlordView(store.buildings, store.units, store.payments, caller, faults)
  {
    var bs := BuildingsRead(store.buildings, caller, faults);
    var n := |bs|;
    var totalUnits, occupiedUnits := SumUnitReads(store.units, bs, faults);
    var collected, pending := SumPaymentReads(store.payments, bs, faults, 1 + n);
    var recent := LandlordRecent(store.payments, bs, faults);
    r := LandlordStats(n, totalUnits, occupiedUnits, collected, pending, recent, bs);
  }

  /**
   * When every read succeeds, the unit figures count each unit of the
   * landlord's buildings once, and the money figures sum each successful
   * (pending) payment of those buildings once.
   */
  lemma LandlordFigures(buildings: seq<Building>, units: seq<Unit>, payments: seq<Payment>, caller: string)
    requires DistinctIds(buildings)
    ensures var v := LandlordView(buildings, units, payments, caller, map[]);
            var ids := BuildingIds(OwnedBy(buildings, caller));
            && v.totalUnits == Total(units, Within(UnitBuilding, CountAll, ids))
            && v.occupiedUnits == Total(units, Within(UnitBuilding, CountOccupied, ids))
            && v.totalCollected == Total(payments, Within(PaymentBuilding, CollectedAmount, ids))
            && v.totalPending == Total(payments, Within(PaymentBuilding, PendingAmount, ids))
  {
    var bs := OwnedBy(buildings, caller);
    assert DistinctIds(bs) by {
      OwnedDistinct(buildings, caller);
    }
    var none: Faults := map[];
    ReadsAreTotal(units, bs, UnitBuilding, CountAll, none, 1);
    ReadsAreTotal(units, bs, UnitBuilding, CountOccupied, none, 1);
    ReadsAreTotal(payments, bs, PaymentBuilding, CollectedAmount, none, 1 + |bs|);
    ReadsAreTotal(payments, bs, PaymentBuilding, PendingAmount, none, 1 + |bs|);
  }

  lemma {:induction false} OwnedDistinct(buildings: seq<Building>, caller: string)
    requires DistinctIds(buildings)
    ensures DistinctIds(OwnedBy(buildings, caller))
  {
    var owned := OwnedBy(buildings, caller);
    if buildings != [] {
      var rest := buildings[1..];
      assert DistinctIds(rest);
      OwnedDistinct(rest, caller);
      var head := if buildings[0].landlordId == caller then [buildings[0]] else [];
      assert owned == head + OwnedBy(rest, caller);
      forall i, j | 0 <= i < j < |owned| ensures owned[i].id != owned[j].id {
        if head != [] && i == 0 {
          assert owned[j] in OwnedBy(rest, caller);
          var k :| 0 <= k < |rest| && rest[k] == owned[j];
          assert buildings[k + 1] == owned[j];
        }
      }
    }
  }

  /** As written, the recent payments are not restricted to the landlord's buildings: another landlord's payment shows. */
  lemma RecentIgnoresOwner(buildings: seq<Building>, units: seq<Unit>, p: Payment, caller: string)
    requires p.status == "successful"
    requires forall b :: b in buildings && b.id == p.buildingId ==> b.landlordId != caller
    ensures var v := LandlordView(buildings, units, [p], caller, map[]);
            v.recentPayments == [p] && forall b :: b in v.activeBuildings ==> b.id != p.buildingId
  {
    var all := NewestFirst(Filter([p], Successful), PaidAt);
    assert p in multiset(all);
    assert |all| == |multiset(all)| == 1;
  }

  /** The successful payments of the buildings `bs`, newest first. */
  function SuccessfulIn(payments: seq<Payment>, bs: seq<Building>): (all: seq<Payment>)
    ensures forall p :: p in all <==> p in payments && Successful(p) && p.buildingId in BuildingIds(bs)
    ensures forall i, j :: 0 <= i < j < |all| ==> all[i].createdAt >= all[j].createdAt
  {
    var ids := BuildingIds(bs);
    var all := NewestFirst(Filter(payments, (p: Payment) => Successful(p) && p.buildingId in ids), PaidAt);
    assert forall p :: p in all <==> p in multiset(all);
    all
  }

  /** The recent payments with the scope the rest of the dashboard has: only those of the landlord's buildings. */
  function ScopedRecentPayments(payments: seq<Payment>, bs: seq<Building>, failed: bool): (r: seq<Payment>)
    ensures |r| <= 5
    ensures forall p :: p in r ==> p in payments && p.status == "successful" && exists b :: b in bs && b.id == p.buildingId
    ensures forall i, j :: 0 <= i < j < |r| ==> r[i].createdAt >= r[j].createdAt
    ensures !failed ==> forall p :: p in payments && p.status == "successful" && (exists b :: b in bs && b.id == p.buildingId) && p !in r ==>
              |r| == 5 && forall q :: q in r ==> q.createdAt >= p.createdAt
  {
    if failed then []
    else
      var all := SuccessfulIn(payments, bs);
      forall p | p in all ensures exists b :: b in bs && b.id == p.buildingId {
        BuildingIdsMembership(bs, p.buildingId);
      }
      forall p | p in payments && p.status == "successful" && (exists b :: b in bs && b.id == p.buildingId) && p !in Take(all, 5)
        ensures |Take(all, 5)| == 5 && forall q :: q in Take(all, 5) ==> q.createdAt >= p.createdAt
      {
        BuildingIdsMembership(bs, p.buildingId);
        NewestKept(all, PaidAt, 5, p);
      }
      Take(all, 5)
  }

  // ---------------------------------------------------------------------
  // Tenant dashboard
  // ---------------------------------------------------------------------

  datatype TenantView =
    | NoUnit(profile: Profile)
    | Assigned(profile: Profile, unit: Unit, building: Building, totalPaid: int, lastPayment: Option<Payment>, nextAmount: int)

  /** The zero-valued building a missing embedded row decodes to. */
  const NoBuilding := Building("", "", "", "", 0, "", 0)

  /** The payments read (call 2): the caller's payments for that unit, newest first. */
  function UnitPayments(payments: seq<Payment>, caller: string, unitId: string, failed: bool): (r: seq<Payment>)
    ensures multiset(r) == if failed then multiset{} else multiset(Filter(payments, (p: Payment) => p.tenantId == caller && p.unitId == unitId))
    ensures forall i, j :: 0 <= i < j < |r| ==> r[i].createdAt >= r[j].createdAt
  {
    if failed then []
    else NewestFirst(Filter(payments, (p: Payment) => p.tenantId == caller && p.unitId == unitId), (p: Payment) => p.createdAt)
  }

  /** What a tenant has paid for a unit: the amounts of their successful payments for it. */
  function PaidBy(payments: seq<Payment>, caller: string, unitId: string): int {
    Total(payments, (p: Payment) => if p.tenantId == caller && p.unitId == unitId then CollectedAmount(p) else 0)
  }

  /**
   * `TenantDashboard`: database calls 0 (the profile), 1 (the unit with its
   * building) and 2 (the unit's payments); failed reads give no rows.
   */
  method TenantDashboard(store: Store, caller: string, faults: Faults) returns (r: Reply<TenantView>)
    ensures (0 in faults || FirstWhere(store.profiles, (p: Profile) => p.id == caller).None?) <==> r == Fail(404, "Profile not found")
    ensures r.Ok? ==> r.status == 200 && r.data.profile == FirstWhere(store.profiles, (p: Profile) => p.id == caller).value
    ensures r.Ok? ==> (r.data.NoUnit? <==> 1 in faults || Maintenance.TenantUnit(store.units, caller).None?)
    ensures r.Ok? && r.data.Assigned? ==>
              var u := Maintenance.TenantUnit(store.units, caller).value;
              var ps := UnitPayments(store.payments, caller, u.id, 2 in faults);
              && r.data.unit == u
              && r.data.building == FirstWhere(store.buildings, (b: Building) => b.id == u.buildingId).GetOr(NoBuilding)
              && r.data.totalPaid == Total(ps, CollectedAmount)
              && r.data.lastPayment == (if ps == [] then None else Some(ps[0]))
              && r.data.nextAmount == u.rentAmount
  {
    var profile := if 0 in faults then None else FirstWhere(store.profiles, (p: Profile) => p.id == caller);
    if profile.None? {
      return Fail(404, "Profile not found");
    }
    var unit := if 1 in faults then None else Maintenance.TenantUnit(store.units, caller);
    if unit.None? {
      return Ok(200, NoUnit(profile.value));
    }
    var u := unit.value;
    var building := FirstWhere(store.buildings, (b: Building) => b.id == u.buildingId).GetOr(NoBuilding);
    var payments := UnitPayments(store.payments, caller, u.id, 2 in faults);
    var totalPaid, _ := SumPayments(payments);
    var last := if |payments| > 0 then Some(payments[0]) else None;
    r := Ok(200, Assigned(profile.value, u, building, totalPaid, last, u.rentAmount));
  }

  /** The total shown is what the tenant paid for the unit: each successful payment of theirs for it, once. */
  lemma TotalPaidIsPaidBy(payments: seq<Payment>, caller: string, unitId: string)
    ensures Total(UnitPayments(payments, caller, unitId, false), CollectedAmount) == PaidBy(payments, caller, unitId)
  {
    var mine := Filter(payments, (p: Payment) => p.tenantId == caller && p.unitId == unitId);
    TotalPermutation(UnitPayments(payments, caller, unitId, false), mine, CollectedAmount);
    TotalFilter(payments, (p: Payment) => p.tenantId == caller && p.unitId == unitId, CollectedAmount,
                (p: Payment) => if p.tenantId == caller && p.unitId == unitId then CollectedAmount(p) else 0);
  }

  /** The last payment shown is one of the tenant's payments for the unit, and none of them is newer. */
  lemma LastPaymentIsNewest(payments: seq<Payment>, caller: string, unitId: string)
    requires UnitPayments(payments, caller, unitId, false) != []
    ensures var last := UnitPayments(payments, caller, unitId, false)[0];
            && last in payments && last.tenantId == caller && last.unitId == unitId
            && forall p :: p in payments && p.tenantId == caller && p.unitId == unitId ==> p.createdAt <= last.createdAt
  {
    var ps := UnitPayments(payments, caller, unitId, false);
    assert ps[0] in multiset(ps);
    forall p | p in payments && p.tenantId == caller && p.unitId == unitId ensures p.createdAt <= ps[0].createdAt {
      assert p in multiset(ps);
      var k :| 0 <= k < |ps| && ps[k] == p;
    }
  }

  /** Starting a payment records it as pending, which adds nothing to what the tenant has paid. */
  lemma StartedPaymentAddsNothing(payments: seq<Payment>, p: Payment, caller: string, unitId: string)
    requires p.status == "pending"
    ensures PaidBy(payments + [p], caller, unitId) == PaidBy(payments, caller, unitId)
  {
    TotalSnoc(payments, p, (x: Payment) => if x.tenantId == caller && x.unitId == unitId then CollectedAmount(x) else 0);
  }
}
