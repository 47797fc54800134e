/**
 * Choice of the replacement engine or wagon for one unit of a train
 * (`GetNewTrainUnit`).
 *
 * The catalog is scanned in order; a candidate must pass a filter, and it
 * replaces the current best only when it is strictly better on
 * (max speed, power, cost) for engines or (max speed, cost) for wagons.
 * The result is the FIRST candidate with the lexicographically largest key.
 */
module TrainUnits {
  import opened Types

  /**
   * A catalog entry as the selector sees it. `buildable` is
   * `IsEngineBuildable` for the company being upgraded and `refittable` is
   * the engine's refit mask restricted to standard cargos; both are world
   * data here.
   */
  datatype Engine = Engine(
    index: EngineID,
    railtype: RailType,
    buildable: bool,
    power: nat,
    maxSpeed: nat,
    cost: int,
    refittable: set<CargoID>)

  /** The build-vehicle parameters: which engine, refitted to which cargo. */
  datatype UnitChoice = UnitChoice(engine: EngineID, cargo: CargoID)

  const NO_UNIT := UnitChoice(INVALID_ENGINE, CT_INVALID)

  /**
   * Which candidates are admissible. `hasPowerOnRail` is the game's
   * compatibility relation between a wagon's rail type and the target one.
   */
  datatype Filter =
    | EngineFilter(railType: RailType)
    | WagonFilter(railType: RailType, cargo: CargoID, hasPowerOnRail: (RailType, RailType) -> bool)

  predicate Qualifies(e: Engine, f: Filter) {
    match f
    case EngineFilter(rt) => e.railtype == rt && e.buildable && e.power != 0
    case WagonFilter(rt, c, hasPowerOnRail) =>
      hasPowerOnRail(e.railtype, rt) && e.buildable && e.power == 0 && c in e.refittable
  }

  /** The ranking key; wagons that qualify all have power 0, so for them it is (speed, cost). */
  datatype Key = Key(speed: int, power: int, cost: int)

  function KeyOf(e: Engine): Key {
    Key(e.maxSpeed, e.power, e.cost)
  }

  /** Strict lexicographic order on keys. */
  predicate KeyLess(a: Key, b: Key) {
    a.speed < b.speed
    || (a.speed == b.speed && a.power < b.power)
    || (a.speed == b.speed && a.power == b.power && a.cost < b.cost)
  }

  /** `e` is strictly better than `b`. */
  predicate Outranks(e: Engine, b: Engine) {
    KeyLess(KeyOf(b), KeyOf(e))
  }

  /**
   * Index of the entry the selection loop holds after the first `n`
   * candidates: the specification of the scan, candidate by candidate.
   */
  function Best(es: seq<Engine>, n: nat, f: Filter): (b: Option<nat>)
    requires n <= |es|
    ensures b.Some? ==> b.value < n
  {
    if n == 0 then None
    else
      var b := Best(es, n - 1, f);
      if !Qualifies(es[n - 1], f) then b
      else if b.None? then Some(n - 1)
      else if Outranks(es[n - 1], es[b.value]) then Some(n - 1)
      else b
  }

  predicate NoneQualify(es: seq<Engine>, f: Filter) {
    forall j :: 0 <= j < |es| ==> !Qualifies(es[j], f)
  }

  /**
   * `k` is the first entry with the largest key among those that pass the
   * filter: it passes, no passing entry outranks it, and every passing entry
   * before it is strictly worse.
   */
  ghost predicate IsFirstBest(es: seq<Engine>, k: nat, f: Filter) {
    && k < |es|
    && Qualifies(es[k], f)
    && (forall j :: 0 <= j < |es| && Qualifies(es[j], f) ==> !Outranks(es[j], es[k]))
    && (forall j :: 0 <= j < k && Qualifies(es[j], f) ==> Outranks(es[k], es[j]))
  }

  /** The scan finds the first best entry of the prefix, and nothing exactly when nothing passes. */
  lemma {:induction false} BestIsFirstBest(es: seq<Engine>, n: nat, f: Filter)
    requires n <= |es|
    ensures Best(es, n, f).None? <==> NoneQualify(es[..n], f)
    ensures Best(es, n, f).Some? ==> IsFirstBest(es[..n], Best(es, n, f).value, f)
  {
    if n > 0 {
      BestIsFirstBest(es, n - 1, f);
      assert es[..n - 1] == es[..n][..n - 1];
      var b := Best(es, n - 1, f);
      if Qualifies(es[n - 1], f) && b.Some? {
        var k := b.value;
        if Outranks(es[n - 1], es[k]) {
          forall j | 0 <= j < n - 1 && Qualifies(es[j], f)
            ensures Outranks(es[n - 1], es[j])
          {
            assert es[..n - 1][j] == es[j];
          }
        }
      }
    }
  }

  /** There is only one first best entry: the choice is deterministic. */
  lemma FirstBestUnique(es: seq<Engine>, k1: nat, k2: nat, f: Filter)
    requires IsFirstBest(es, k1, f) && IsFirstBest(es, k2, f)
    ensures k1 == k2
  {
  }

  /** The refit an engine gets: the train's wagon cargo if the engine can carry it. */
  function EngineCargo(e: Engine, wagonCargo: CargoID): CargoID {
    if wagonCargo in e.refittable then wagonCargo else CT_INVALID
  }

  /** `cargo == CT_INVALID` asks for an engine, any other cargo for a wagon that carries it. */
  function UnitFilter(railType: RailType, cargo: CargoID, hasPowerOnRail: (RailType, RailType) -> bool): Filter {
    if cargo == CT_INVALID then EngineFilter(railType) else WagonFilter(railType, cargo, hasPowerOnRail)
  }

  /** The unit the selector returns: the best entry of the whole catalog, with its refit. */
  function NewTrainUnit(
    catalog: seq<Engine>, railType: RailType, cargo: CargoID, wagonCargo: CargoID,
    hasPowerOnRail: (RailType, RailType) -> bool): UnitChoice
  {
    var b := Best(catalog, |catalog|, UnitFilter(railType, cargo, hasPowerOnRail));
    if b.None? then NO_UNIT
    else if cargo == CT_INVALID then UnitChoice(catalog[b.value].index, EngineCargo(catalog[b.value], wagonCargo))
    else UnitChoice(catalog[b.value].index, cargo)
  }

  /**
   * The selected unit is the first best qualifying entry of the catalog,
   * an engine refitted to the wagon cargo when it can carry it and a wagon
   * refitted to the requested cargo, and `NO_UNIT` exactly when nothing
   * qualifies.
   */
  lemma NewTrainUnitIsFirstBest(
    catalog: seq<Engine>, railType: RailType, cargo: CargoID, wagonCargo: CargoID,
    hasPowerOnRail: (RailType, RailType) -> bool)
    ensures var r := NewTrainUnit(catalog, railType, cargo, wagonCargo, hasPowerOnRail);
      && (cargo == CT_INVALID && NoneQualify(catalog, EngineFilter(railType)) ==> r == NO_UNIT)
      && (cargo == CT_INVALID && !NoneQualify(catalog, EngineFilter(railType)) ==>
        exists k: nat :: IsFirstBest(catalog, k, EngineFilter(railType))
          && r == UnitChoice(catalog[k].index, EngineCargo(catalog[k], wagonCargo)))
      && (cargo != CT_INVALID && NoneQualify(catalog, WagonFilter(railType, cargo, hasPowerOnRail)) ==> r == NO_UNIT)
      && (cargo != CT_INVALID && !NoneQualify(catalog, WagonFilter(railType, cargo, hasPowerOnRail)) ==>
        exists k: nat :: IsFirstBest(catalog, k, WagonFilter(railType, cargo, hasPowerOnRail))
          && r == UnitChoice(catalog[k].index, cargo))
  {
    BestIsFirstBest(catalog, |catalog|, UnitFilter(railType, cargo, hasPowerOnRail));
    assert catalog[..|catalog|] == catalog;
  }

  /**
   * `GetNewTrainUnit(cargo, wagon_cargo)`: the catalog scan, proved to
   * return the unit `NewTrainUnit` specifies.
   */
  method GetNewTrainUnit(
    catalog: seq<Engine>, railType: RailType, cargo: CargoID, wagonCargo: CargoID,
    hasPowerOnRail: (RailType, RailType) -> bool)
    returns (r: UnitChoice)
    ensures r == NewTrainUnit(catalog, railType, cargo, wagonCargo, hasPowerOnRail)
  {
    var f := UnitFilter(railType, cargo, hasPowerOnRail);
    var best: Option<nat> := None;
    var i := 0;
    if cargo == CT_INVALID {
      // an engine to replace
      while i < |catalog|
        invariant i <= |catalog|
        invariant best == Best(catalog, i, f)
      {
        var e := catalog[i];
        if !(e.railtype == railType && e.buildable && e.power != 0) {
        } else if best.None? {
          best := Some(i);
        } else if catalog[best.value].maxSpeed != e.maxSpeed {
          if catalog[best.value].maxSpeed < e.maxSpeed {
            best := Some(i);
          }
        } else if catalog[best.value].power != e.power {
          if catalog[best.value].power < e.power {
            best := Some(i);
          }
        } else if catalog[best.value].cost < e.cost {
          // all else equal: the most expensive one is probably the best one
          best := Some(i);
        }
        i := i + 1;
      }
    } else {
      // a wagon
      while i < |catalog|
        invariant i <= |catalog|
        invariant best == Best(catalog, i, f)
        invariant best.Some? ==> catalog[best.value].power == 0
      {
        var e := catalog[i];
        if !(hasPowerOnRail(e.railtype, railType) && e.buildable && e.power == 0 && cargo in e.refittable) {
        } else if best.None? {
          best := Some(i);
        } else if catalog[best.value].maxSpeed != e.maxSpeed {
          if catalog[best.value].maxSpeed < e.maxSpeed {
            best := Some(i);
          }
        } else if catalog[best.value].cost < e.cost {
          best := Some(i);
        }
        i := i + 1;
      }
    }
    if best.None? {
      r := NO_UNIT;
    } else if cargo == CT_INVALID {
      var e := catalog[best.value];
      r := UnitChoice(e.index, if wagonCargo in e.refittable then wagonCargo else CT_INVALID);
    } else {
      r := UnitChoice(catalog[best.value].index, cargo);
    }
  }
}
