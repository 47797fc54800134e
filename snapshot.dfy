/**
 * Step 2 of the upgrade: the snapshot of the company's trains taken once
 * they all stand in depots.
 *
 * Trains are sorted by the first vehicle of their shared-orders chain, and
 * each run of trains with the same one becomes a `Route` holding that
 * chain's orders. Each train is recorded as its depot tile, the cargo of
 * each unit (`CT_INVALID` for an engine) and the index of its route. The
 * depot tiles are then sorted and made unique.
 */
module Snapshot {
  import opened Types

  /** One unit of a train as the snapshot reads it. */
  datatype Unit = Unit(isEngine: bool, cargoType: CargoID)

  /**
   * What the snapshot reads of one of the company's trains. Its orders are
   * those of its shared-orders chain, which the snapshot reads through a
   * function from the chain's first vehicle to the chain's order list.
   */
  datatype TrainView = TrainView(
    index: VehicleID,
    tile: TileIndex,
    firstShared: VehicleID,
    units: seq<Unit>)

  /** The order list of every shared-orders chain, by its first vehicle. */
  type ChainOrders = VehicleID -> seq<Order>

  /** `VehicleProperties`: where a train stood, what it was made of, and its route. */
  datatype VehicleProperties = VehicleProperties(depot: TileIndex, cargos: seq<CargoID>, routeIndex: nat)

  /**
   * `Route`: the orders of a group of trains that shared them, the first new
   * train per composition that can be cloned with shared orders, and the
   * first new train of the route (`INVALID_VEHICLE` until one is built).
   */
  datatype Route = Route(orders: seq<Order>, firstClonables: map<seq<CargoID>, VehicleID>, firstShared: VehicleID)

  /** A route as the snapshot creates it. */
  function NewRoute(orders: seq<Order>): (r: Route)
    ensures r.orders == orders && r.firstClonables == map[] && r.firstShared == INVALID_VEHICLE
  {
    Route(orders, map[], INVALID_VEHICLE)
  }

  // ---------------------------------------------------------------------
  // Sorting. `std::sort` is a library call; the model uses an insertion
  // sort as one admissible result. The grouping below is proved for every
  // sorted input, so the order it picks among equal keys does not matter.

  predicate SortedBy<T>(s: seq<T>, key: T -> int) {
    forall i, j :: 0 <= i < j < |s| ==> key(s[i]) <= key(s[j])
  }

  function InsertBy<T>(s: seq<T>, x: T, key: T -> int): (r: seq<T>)
    ensures multiset(r) == multiset(s) + multiset{x}
  {
    if s == [] then [x]
    else if key(x) <= key(s[0]) then [x] + s
    else
      assert s == [s[0]] + s[1..];
      [s[0]] + InsertBy(s[1..], x, key)
  }

  /** Inserting into a sorted list keeps it sorted. */
  lemma {:induction false} InsertBySorted<T>(s: seq<T>, x: T, key: T -> int)
    requires SortedBy(s, key)
    ensures SortedBy(InsertBy(s, x, key), key)
  {
    if s != [] && key(x) > key(s[0]) {
      InsertBySorted(s[1..], x, key);
      var t := InsertBy(s[1..], x, key);
      forall j | 0 <= j < |t| ensures key(s[0]) <= key(t[j]) {
        assert t[j] in multiset(t);
        if t[j] != x {
          assert t[j] in multiset(s[1..]);
          var k :| 0 <= k < |s[1..]| && s[1..][k] == t[j];
          assert s[k + 1] == t[j];
        }
      }
    }
  }

  function SortBy<T>(s: seq<T>, key: T -> int): (r: seq<T>)
    ensures multiset(r) == multiset(s)
  {
    if s == [] then []
    else
      assert s == s[..|s| - 1] + [s[|s| - 1]];
      InsertBy(SortBy(s[..|s| - 1], key), s[|s| - 1], key)
  }

  /** The stand-in for `std::sort` sorts. */
  lemma {:induction false} SortBySorted<T>(s: seq<T>, key: T -> int)
    ensures SortedBy(SortBy(s, key), key)
  {
    if s != [] {
      SortBySorted(s[..|s| - 1], key);
      InsertBySorted(SortBy(s[..|s| - 1], key), s[|s| - 1], key);
    }
  }

  function FirstSharedKey(t: TrainView): int {
    t.firstShared
  }

  function TileKey(t: TileIndex): int {
    t
  }

  // ---------------------------------------------------------------------
  // Runs of equal first-shared vehicles.

  /** The number of the run train `i` belongs to: how many times the key changed up to `i`. */
  function RunIndex(s: seq<TrainView>, i: nat): nat
    requires i < |s|
  {
    if i == 0 then 0
    else RunIndex(s, i - 1) + (if s[i].firstShared != s[i - 1].firstShared then 1 else 0)
  }

  /** The number of runs. */
  function RunCount(s: seq<TrainView>): nat {
    if |s| == 0 then 0 else RunIndex(s, |s| - 1) + 1
  }

  /** Between `i` and `j` the run index stays put exactly when the key never changes. */
  lemma {:induction false} RunIndexFlat(s: seq<TrainView>, i: nat, j: nat)
    requires i <= j < |s|
    ensures RunIndex(s, i) <= RunIndex(s, j)
    ensures RunIndex(s, i) == RunIndex(s, j) <==>
      forall k :: i < k <= j ==> s[k].firstShared == s[k - 1].firstShared
  {
    if i < j {
      RunIndexFlat(s, i, j - 1);
    }
  }

  /** In a sorted sequence, equal keys form one block. */
  lemma {:induction false} SortedBlock(s: seq<TrainView>, i: nat, j: nat)
    requires SortedBy(s, FirstSharedKey)
    requires i <= j < |s|
    ensures s[i].firstShared == s[j].firstShared <==>
      forall k :: i < k <= j ==> s[k].firstShared == s[k - 1].firstShared
  {
    if i < j {
      SortedBlock(s, i, j - 1);
      assert FirstSharedKey(s[i]) <= FirstSharedKey(s[j - 1]) <= FirstSharedKey(s[j]);
    }
  }

  /** Two trains of a sorted list get the same route exactly when they shared orders. */
  lemma SameRouteIffSharedOrders(s: seq<TrainView>, i: nat, j: nat)
    requires SortedBy(s, FirstSharedKey)
    requires i < |s| && j < |s|
    ensures RunIndex(s, i) == RunIndex(s, j) <==> s[i].firstShared == s[j].firstShared
  {
    if i <= j {
      RunIndexFlat(s, i, j);
      SortedBlock(s, i, j);
    } else {
      RunIndexFlat(s, j, i);
      SortedBlock(s, j, i);
    }
  }

  /** The cargo list of a train: `CT_INVALID` for an engine, the cargo type for a wagon. */
  function UnitCargo(u: Unit): CargoID {
    if u.isEngine then CT_INVALID else u.cargoType
  }

  /** The walk over the train's units in the order capture of `DoCoro`. */
  method CaptureCargos(units: seq<Unit>) returns (cargos: seq<CargoID>)
    ensures |cargos| == |units|
    ensures forall i :: 0 <= i < |units| ==> (cargos[i] == CT_INVALID <==> units[i].isEngine || units[i].cargoType == CT_INVALID)
    ensures forall i :: 0 <= i < |units| && !units[i].isEngine ==> cargos[i] == units[i].cargoType
  {
    cargos := [];
    var i := 0;
    while i < |units|
      invariant i <= |units|
      invariant |cargos| == i
      invariant forall k :: 0 <= k < i ==> cargos[k] == UnitCargo(units[k])
    {
      if units[i].isEngine {
        cargos := cargos + [CT_INVALID];
      } else {
        cargos := cargos + [units[i].cargoType];
      }
      i := i + 1;
    }
  }

  /** `std::find_if_not` from `begin` for a train of another chain. */
  method FindRunEnd(s: seq<TrainView>, begin: nat) returns (end: nat)
    requires begin < |s|
    ensures begin < end <= |s|
    ensures forall k :: begin <= k < end ==> s[k].firstShared == s[begin].firstShared
    ensures end < |s| ==> s[end].firstShared != s[begin].firstShared
  {
    end := begin + 1;
    while end < |s| && s[end].firstShared == s[begin].firstShared
      invariant begin < end <= |s|
      invariant forall k :: begin <= k < end ==> s[k].firstShared == s[begin].firstShared
    {
      end := end + 1;
    }
  }

  /** The record of train `i` of the sorted list: its depot, its cargo list, its run. */
  ghost predicate Recorded(s: seq<TrainView>, i: nat, p: VehicleProperties)
    requires i < |s|
  {
    && p.depot == s[i].tile
    && p.routeIndex == RunIndex(s, i)
    && |p.cargos| == |s[i].units|
    && forall k :: 0 <= k < |p.cargos| ==> p.cargos[k] == UnitCargo(s[i].units[k])
  }

  /** Within a run, the next train has the same run index as the one before. */
  lemma RunContinues(s: seq<TrainView>, i: nat)
    requires 0 < i < |s|
    requires s[i].firstShared == s[i - 1].firstShared
    ensures RunIndex(s, i) == RunIndex(s, i - 1)
  {
  }

  /** The records of the trains `begin..end` of one run, all on route `routeIndex`, as the order capture of `DoCoro` records them. */
  method RecordRun(s: seq<TrainView>, begin: nat, end: nat, routeIndex: nat)
    returns (props: seq<VehicleProperties>, depots: seq<TileIndex>)
    requires begin < end <= |s|
    requires RunIndex(s, begin) == routeIndex
    requires forall k :: begin <= k < end ==> s[k].firstShared == s[begin].firstShared
    ensures |props| == end - begin && |depots| == end - begin
    ensures forall k :: 0 <= k < end - begin ==>
      Recorded(s, begin + k, props[k]) && props[k].routeIndex == routeIndex && depots[k] == s[begin + k].tile
  {
    props, depots := [], [];
    var i := begin;
    while i < end
      invariant begin <= i <= end
      invariant |props| == i - begin && |depots| == i - begin
      invariant forall k :: 0 <= k < i - begin ==>
        Recorded(s, begin + k, props[k]) && props[k].routeIndex == routeIndex && depots[k] == s[begin + k].tile
      invariant i > begin ==> RunIndex(s, i - 1) == routeIndex
    {
      var cargos := CaptureCargos(s[i].units);
      if i > begin {
        RunContinues(s, i);
      }
      var p := VehicleProperties(s[i].tile, cargos, routeIndex);
      assert Recorded(s, i, p);
      props := props + [p];
      depots := depots + [s[i].tile];
      i := i + 1;
    }
  }

  /** Train `i` is recorded in `props`, on a fresh route holding its chain's orders. */
  ghost predicate Filed(orders: ChainOrders, s: seq<TrainView>, routes: seq<Route>, props: seq<VehicleProperties>, i: nat)
    requires i < |s| && i < |props|
  {
    && Recorded(s, i, props[i])
    && props[i].routeIndex < |routes|
    && routes[props[i].routeIndex] == NewRoute(orders(s[i].firstShared))
  }

  /** `Filed`, and the train's tile is entry `i` of `depots`. */
  ghost predicate Grouped(orders: ChainOrders, s: seq<TrainView>, routes: seq<Route>,
                          props: seq<VehicleProperties>, depots: seq<TileIndex>, i: nat)
    requires i < |s| && i < |props| && i < |depots|
  {
    Filed(orders, s, routes, props, i) && depots[i] == s[i].tile
  }

  /** Adding a route and the records of its run keeps the earlier trains grouped. */
  lemma GroupedExtend(orders: ChainOrders, s: seq<TrainView>, routes: seq<Route>, props: seq<VehicleProperties>,
                      depots: seq<TileIndex>, r: Route, more: seq<VehicleProperties>, moreDepots: seq<TileIndex>, i: nat)
    requires i < |s| && i < |props| && i < |depots|
    requires Grouped(orders, s, routes, props, depots, i)
    ensures Grouped(orders, s, routes + [r], props + more, depots + moreDepots, i)
  {
    assert (props + more)[i] == props[i];
    assert (depots + moreDepots)[i] == depots[i];
    assert (routes + [r])[props[i].routeIndex] == routes[props[i].routeIndex];
  }

  /** A train of the run just recorded is grouped on the route just added. */
  lemma GroupedNew(orders: ChainOrders, s: seq<TrainView>, routes: seq<Route>, props: seq<VehicleProperties>,
                   depots: seq<TileIndex>, route: Route, runProps: seq<VehicleProperties>, runDepots: seq<TileIndex>,
                   begin: nat, i: nat)
    requires |props| == begin == |depots| && begin <= i < |s| && i - begin < |runProps| && i - begin < |runDepots|
    requires Recorded(s, i, runProps[i - begin]) && runProps[i - begin].routeIndex == |routes|
    requires runDepots[i - begin] == s[i].tile
    requires s[i].firstShared == s[begin].firstShared
    requires route == NewRoute(orders(s[begin].firstShared))
    ensures Grouped(orders, s, routes + [route], props + runProps, depots + runDepots, i)
  {
    assert (props + runProps)[i] == runProps[i - begin];
    assert (depots + runDepots)[i] == runDepots[i - begin];
  }

  /**
   * The grouping in the order capture of `DoCoro` over the sorted trains: one route per run,
   * holding the orders of the run's chain, and one record and one depot tile
   * per train, in order.
   */
  method GroupRoutes(orders: ChainOrders, s: seq<TrainView>)
    returns (routes: seq<Route>, props: seq<VehicleProperties>, depots: seq<TileIndex>)
    ensures |routes| == RunCount(s)
    ensures |props| == |s| && |depots| == |s|
    ensures forall i :: 0 <= i < |s| ==> Grouped(orders, s, routes, props, depots, i)
  {
    routes, props, depots := [], [], [];
    var begin: nat := 0;
    while begin < |s|
      invariant begin <= |s|
      invariant begin == 0 || begin == |s| || s[begin].firstShared != s[begin - 1].firstShared
      invariant |routes| == if begin == 0 then 0 else RunIndex(s, begin - 1) + 1
      invariant |props| == begin && |depots| == begin
      invariant forall i :: 0 <= i < begin ==> Grouped(orders, s, routes, props, depots, i)
    {
      var end := FindRunEnd(s, begin);
      var routeIndex := |routes|;
      var route := NewRoute(orders(s[begin].firstShared));
      var runProps, runDepots := RecordRun(s, begin, end, routeIndex);
      forall i | 0 <= i < begin
        ensures Grouped(orders, s, routes + [route], props + runProps, depots + runDepots, i)
      {
        GroupedExtend(orders, s, routes, props, depots, route, runProps, runDepots, i);
      }
      forall i | begin <= i < end
        ensures Grouped(orders, s, routes + [route], props + runProps, depots + runDepots, i)
      {
        GroupedNew(orders, s, routes, props, depots, route, runProps, runDepots, begin, i);
      }
      routes, props, depots := routes + [route], props + runProps, depots + runDepots;
      if end > begin + 1 {
        RunIndexFlat(s, begin, end - 1);
      }
      begin := end;
    }
  }

  /** `std::unique` on a sorted list, followed by the erase of the tail. */
  method Unique(s: seq<TileIndex>) returns (r: seq<TileIndex>)
    requires SortedBy(s, TileKey)
    ensures forall i, j :: 0 <= i < j < |r| ==> r[i] < r[j]
    ensures forall x :: x in r <==> x in s
  {
    r := [];
    var i := 0;
    while i < |s|
      invariant i <= |s|
      invariant forall a, b :: 0 <= a < b < |r| ==> r[a] < r[b]
      invariant forall x :: x in r <==> x in s[..i]
      invariant i > 0 <==> r != []
      invariant i > 0 ==> r[|r| - 1] == s[i - 1]
    {
      assert s[..i + 1] == s[..i] + [s[i]];
      if r == [] || r[|r| - 1] != s[i] {
        if r != [] {
          assert TileKey(s[i - 1]) <= TileKey(s[i]);
        }
        r := r + [s[i]];
      }
      i := i + 1;
    }
    assert s[..|s|] == s;
  }

  /** A tile appears in the raw depot list exactly when some train stands on it. */
  lemma TilesPreserved(trains: seq<TrainView>, sorted: seq<TrainView>, raw: seq<TileIndex>, x: TileIndex)
    requires multiset(sorted) == multiset(trains)
    requires |raw| == |sorted|
    requires forall i :: 0 <= i < |sorted| ==> raw[i] == sorted[i].tile
    ensures x in raw <==> exists i :: 0 <= i < |trains| && trains[i].tile == x
  {
    if x in raw {
      var k :| 0 <= k < |raw| && raw[k] == x;
      assert sorted[k] in multiset(trains);
      var i :| 0 <= i < |trains| && trains[i] == sorted[k];
    }
    if exists i :: 0 <= i < |trains| && trains[i].tile == x {
      var i :| 0 <= i < |trains| && trains[i].tile == x;
      assert trains[i] in multiset(sorted);
      var k :| 0 <= k < |sorted| && sorted[k] == trains[i];
      assert raw[k] == x;
    }
  }

  /** Sorting and de-duplicating the raw depot list keeps exactly the tiles the trains stand on. */
  lemma DepotsOfTrains(trains: seq<TrainView>, sorted: seq<TrainView>, raw: seq<TileIndex>,
                       sortedDepots: seq<TileIndex>, depots: seq<TileIndex>)
    requires multiset(sorted) == multiset(trains)
    requires |raw| == |sorted|
    requires forall i :: 0 <= i < |sorted| ==> raw[i] == sorted[i].tile
    requires multiset(sortedDepots) == multiset(raw)
    requires forall x :: x in depots <==> x in sortedDepots
    ensures forall x :: x in depots <==> exists i :: 0 <= i < |trains| && trains[i].tile == x
  {
    forall x ensures x in depots <==> exists i :: 0 <= i < |trains| && trains[i].tile == x {
      TilesPreserved(trains, sorted, raw, x);
      assert x in raw <==> x in multiset(raw);
      assert x in sortedDepots <==> x in multiset(sortedDepots);
    }
  }

  /** The whole order capture of `DoCoro` (the source's "save all orders and info"). */
  method TakeSnapshot(orders: ChainOrders, trains: seq<TrainView>)
    returns (sorted: seq<TrainView>, routes: seq<Route>, props: seq<VehicleProperties>, depots: seq<TileIndex>)
    ensures multiset(sorted) == multiset(trains) && SortedBy(sorted, FirstSharedKey)
    ensures |routes| == RunCount(sorted) && |props| == |sorted|
    ensures forall i :: 0 <= i < |sorted| ==> Filed(orders, sorted, routes, props, i)
    ensures forall i, j :: 0 <= i < j < |depots| ==> depots[i] < depots[j]
    ensures forall x :: x in depots <==> exists i :: 0 <= i < |trains| && trains[i].tile == x
  {
    sorted := SortBy(trains, FirstSharedKey);
    SortBySorted(trains, FirstSharedKey);
    var raw;
    routes, props, raw := GroupRoutes(orders, sorted);
    forall i | 0 <= i < |sorted| ensures Filed(orders, sorted, routes, props, i) && raw[i] == sorted[i].tile {
      assert Grouped(orders, sorted, routes, props, raw, i);
    }
    var sortedDepots := SortBy(raw, TileKey);
    SortBySorted(raw, TileKey);
    depots := Unique(sortedDepots);
    DepotsOfTrains(trains, sorted, raw, sortedDepots, depots);
  }
}
