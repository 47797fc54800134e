/**
 * Steps 2 (selling), 3 (rail conversion), 4 (rebuilding) and 5 (starting)
 * of the upgrade, as a planner that records every command it submits and
 * every wait in an action log, reading the game's answers from a `World`.
 *
 * The planner owns the state the coroutine mutates while it rebuilds: the
 * routes of the snapshot (whose `firstShared` and `firstClonables` it
 * fills in) and the map of trains that can be copied per composition.
 */
module Rebuild {
  import opened Types
  import opened Commands
  import opened TrainUnits
  import opened Snapshot
  import opened Scripts
  import opened AutoUpgrade

  /** How the new train for a recorded train is obtained. */
  datatype Strategy =
    /** Clone a new train of the same route and composition, sharing its orders. */
    | CloneSharing(source: VehicleID)
    /** Clone a new train of the same composition from another route, copying its orders. */
    | CopyFrom(source: VehicleID)
    /** Build the train unit by unit. */
    | BuildUnits

  /** The choice at the start of each pass of the rebuild loop (step 4 of `DoCoro`): same route first, then any route, then a build. */
  function ChooseStrategy(route: Route, forCopying: map<seq<CargoID>, VehicleID>, cargos: seq<CargoID>): Strategy {
    if cargos in route.firstClonables then CloneSharing(route.firstClonables[cargos])
    else if cargos in forCopying then CopyFrom(forCopying[cargos])
    else BuildUnits
  }

  /**
   * A route lists trains to clone from only once it has its first shared
   * train, and it never records `INVALID_VEHICLE` as a train.
   */
  ghost predicate RouteValid(r: Route) {
    && (r.firstClonables != map[] ==> r.firstShared != INVALID_VEHICLE)
    && forall c :: c in r.firstClonables ==> r.firstClonables[c] != INVALID_VEHICLE
  }

  /** `after` still maps every key of `before` to the same value. */
  ghost predicate KeepsFirst<K, V>(before: map<K, V>, after: map<K, V>) {
    forall k :: k in before ==> k in after && after[k] == before[k]
  }

  lemma AppendAssoc<T>(a: seq<T>, b: seq<T>, c: seq<T>)
    ensures a + b + c == a + (b + c)
  {
  }

  predicate IsBuild(a: Action) {
    a.Submit? && a.cmd.BuildVehicle?
  }

  /** The command builds a unit or attaches one, in `depot`. */
  predicate IsAssembly(a: Action, depot: TileIndex) {
    a.Submit? ==>
      (a.cmd.BuildVehicle? && a.cmd.depot == depot && a.cmd.engine != INVALID_ENGINE)
      || (a.cmd.MoveRailVehicle? && a.cmd.depot == depot)
  }

  /** Every command in `built` builds a real unit or attaches one, in `depot`. */
  ghost predicate Assembled(built: seq<Action>, depot: TileIndex) {
    forall k :: 0 <= k < |built| ==> IsAssembly(built[k], depot)
  }

  /** Appending an assembly command and a tick keeps `Assembled`. */
  lemma AssembledStep(built: seq<Action>, c: Command, depot: TileIndex)
    requires Assembled(built, depot) && IsAssembly(Submit(c), depot)
    ensures Assembled(built + [Submit(c)], depot) && Assembled(built + [Submit(c), WaitTick], depot)
  {
  }

  /** An accepted command followed by a tick keeps every command of a log accepted. */
  lemma AcceptedTwo(w: World, pos: nat, a: seq<Action>, c: Command)
    requires AcceptedBefore(w, pos, a, |a|) && w.accepts(pos + |a|)
    ensures AcceptedBefore(w, pos, a + [Submit(c), WaitTick], |a| + 2)
  {
  }

  /** The build commands of an action list, in order. */
  function Builds(actions: seq<Action>): seq<Command> {
    if actions == [] then []
    else
      var last := actions[|actions| - 1];
      Builds(actions[..|actions| - 1]) + (if IsBuild(last) then [last.cmd] else [])
  }

  /** Appending a command and a tick adds the command to the builds exactly when it builds. */
  lemma BuildsStep(built: seq<Action>, c: Command)
    ensures Builds(built + [Submit(c)]) == Builds(built) + (if c.BuildVehicle? then [c] else [])
    ensures Builds(built + [Submit(c), WaitTick]) == Builds(built) + (if c.BuildVehicle? then [c] else [])
  {
    assert (built + [Submit(c)])[..|built|] == built;
    assert (built + [Submit(c), WaitTick])[..|built| + 1] == built + [Submit(c)];
  }

  /** The cargo the engines of a composition are refitted to: the first that is not `CT_INVALID`. */
  function WagonCargo(cargos: seq<CargoID>): CargoID {
    if cargos == [] then CT_INVALID
    else if cargos[0] != CT_INVALID then cargos[0]
    else WagonCargo(cargos[1..])
  }

  /** The unit the selector picks for slot `k` of a composition. */
  function UnitFor(w: World, railType: RailType, cargos: seq<CargoID>, k: nat): UnitChoice
    requires k < |cargos|
  {
    NewTrainUnit(w.catalog, railType, cargos[k], WagonCargo(cargos), w.hasPowerOnRail)
  }

  /** The build commands for the first `n` slots of a composition, one unit per slot. */
  function PlannedBuilds(w: World, railType: RailType, depot: TileIndex, cargos: seq<CargoID>, n: nat): (cs: seq<Command>)
    requires n <= |cargos|
    ensures |cs| == n
  {
    seq(n, k requires 0 <= k < n => BuildVehicle(depot, UnitFor(w, railType, cargos, k).engine, UnitFor(w, railType, cargos, k).cargo))
  }

  lemma PlannedStep(w: World, railType: RailType, depot: TileIndex, cargos: seq<CargoID>, n: nat)
    requires n < |cargos|
    ensures var u := UnitFor(w, railType, cargos, n);
      PlannedBuilds(w, railType, depot, cargos, n + 1) == PlannedBuilds(w, railType, depot, cargos, n) + [BuildVehicle(depot, u.engine, u.cargo)]
  {
  }

  /** Some slot of the composition has no unit the selector can pick. */
  ghost predicate Unbuildable(w: World, railType: RailType, cargos: seq<CargoID>) {
    exists k :: 0 <= k < |cargos| && UnitFor(w, railType, cargos, k).engine == INVALID_ENGINE
  }

  /**
   * What a unit-by-unit build bought: slot by slot the units the selector
   * picks, every slot when it succeeded, and nothing complete when a slot
   * has no unit.
   */
  ghost predicate BuildsPlanned(w: World, railType: RailType, depot: TileIndex, cargos: seq<CargoID>, built: seq<Action>, ok: bool) {
    && |Builds(built)| <= |cargos|
    && Builds(built) == PlannedBuilds(w, railType, depot, cargos, |Builds(built)|)
    && (ok ==> |Builds(built)| == |cargos|)
    && (Unbuildable(w, railType, cargos) ==> !ok)
  }

  /**
   * The unit-by-unit build from slot `k` on, as the game answers it: `out`
   * is what the build logged so far from log position `pos`, and `head`
   * its first unit (`INVALID_VEHICLE` before any). A slot's unit is built
   * and a tick waited; every unit after the first is then moved behind the
   * last vehicle of the head's chain, followed by a tick, unless the game
   * already put it in that chain. The build stops at a slot with no unit
   * or at the first refusal, and fails when it built nothing.
   */
  function BuildLoop(w: World, railType: RailType, depot: TileIndex, cargos: seq<CargoID>,
                     k: nat, pos: nat, head: VehicleID, out: seq<Action>): (r: Run)
    requires k <= |cargos|
    ensures out <= r.actions
    decreases |cargos| - k, 1
  {
    if k == |cargos| then Run(out, head != INVALID_VEHICLE)
    else BuildUnit(w, railType, depot, cargos, k, pos, head, out)
  }

  /** Slot `k` of the build, then the slots after it. */
  function BuildUnit(w: World, railType: RailType, depot: TileIndex, cargos: seq<CargoID>,
                     k: nat, pos: nat, head: VehicleID, out: seq<Action>): (r: Run)
    requires k < |cargos|
    ensures out <= r.actions
    decreases |cargos| - k, 0
  {
    var u := UnitFor(w, railType, cargos, k);
    var at := pos + |out|;
    var build := Submit(BuildVehicle(depot, u.engine, u.cargo));
    if u.engine == INVALID_ENGINE then Run(out, false)
    else if !w.accepts(at) then Run(out + [build], false)
    else if head == INVALID_VEHICLE then
      BuildLoop(w, railType, depot, cargos, k + 1, pos, w.created(at), out + [build, WaitTick])
    else if w.headOf(at + 2) == head then
      BuildLoop(w, railType, depot, cargos, k + 1, pos, head, out + [build, WaitTick])
    else
      var move := Submit(MoveRailVehicle(depot, w.created(at), w.lastOf(at + 2)));
      if !w.accepts(at + 2) then Run(out + [build, WaitTick, move], false)
      else BuildLoop(w, railType, depot, cargos, k + 1, pos, head, out + [build, WaitTick, move, WaitTick])
  }

  /** What the build has logged after `k` slots, from log position `pos`, with first unit `head`. */
  ghost predicate BuildInv(w: World, railType: RailType, depot: TileIndex, cargos: seq<CargoID>,
                           k: nat, pos: nat, head: VehicleID, out: seq<Action>)
  {
    && WorldValid(w) && k <= |cargos|
    && Assembled(out, depot) && AcceptedBefore(w, pos, out, |out|)
    && Builds(out) == PlannedBuilds(w, railType, depot, cargos, k)
    && (forall j :: 0 <= j < k ==> UnitFor(w, railType, cargos, j).engine != INVALID_ENGINE)
    && (k == 0 <==> head == INVALID_VEHICLE) && (k == 0 ==> out == [])
  }

  /**
   * What a finished build bought: every command builds a real unit or
   * attaches one in this depot, the builds are the selector's units slot by
   * slot, a composition with a slot the selector cannot fill or with no slot
   * at all fails, and a success had every command accepted.
   */
  ghost predicate BuildMeets(w: World, railType: RailType, depot: TileIndex, cargos: seq<CargoID>, pos: nat, r: Run) {
    && Assembled(r.actions, depot)
    && BuildsPlanned(w, railType, depot, cargos, r.actions, r.ok)
    && (r.ok ==> AcceptedBefore(w, pos, r.actions, |r.actions|))
    && (cargos == [] ==> !r.ok && r.actions == [])
  }

  /** A build that stops with what it logged so far meets the plan, and succeeds only after every slot. */
  lemma BuildStops(w: World, railType: RailType, depot: TileIndex, cargos: seq<CargoID>,
                   k: nat, pos: nat, head: VehicleID, out: seq<Action>, ok: bool)
    requires BuildInv(w, railType, depot, cargos, k, pos, head, out)
    requires ok ==> k == |cargos| && head != INVALID_VEHICLE
    ensures BuildMeets(w, railType, depot, cargos, pos, Run(out, ok))
  {
  }

  /** A refused build of slot `k` stops the build with that command logged. */
  lemma BuildRefused(w: World, railType: RailType, depot: TileIndex, cargos: seq<CargoID>,
                     k: nat, pos: nat, head: VehicleID, out: seq<Action>)
    requires BuildInv(w, railType, depot, cargos, k, pos, head, out) && k < |cargos|
    requires UnitFor(w, railType, cargos, k).engine != INVALID_ENGINE
    ensures var u := UnitFor(w, railType, cargos, k);
      BuildMeets(w, railType, depot, cargos, pos, Run(out + [Submit(BuildVehicle(depot, u.engine, u.cargo))], false))
  {
    var u := UnitFor(w, railType, cargos, k);
    var c := BuildVehicle(depot, u.engine, u.cargo);
    AssembledStep(out, c, depot);
    BuildsStep(out, c);
    PlannedStep(w, railType, depot, cargos, k);
  }

  /** An accepted build of slot `k` and its tick leave the build ready for slot `k + 1`. */
  lemma BuildAccepted(w: World, railType: RailType, depot: TileIndex, cargos: seq<CargoID>,
                      k: nat, pos: nat, head: VehicleID, out: seq<Action>, head': VehicleID)
    requires BuildInv(w, railType, depot, cargos, k, pos, head, out) && k < |cargos|
    requires UnitFor(w, railType, cargos, k).engine != INVALID_ENGINE && w.accepts(pos + |out|)
    requires head' == if head == INVALID_VEHICLE then w.created(pos + |out|) else head
    ensures var u := UnitFor(w, railType, cargos, k);
      BuildInv(w, railType, depot, cargos, k + 1, pos, head', out + [Submit(BuildVehicle(depot, u.engine, u.cargo)), WaitTick])
  {
    var u := UnitFor(w, railType, cargos, k);
    var c := BuildVehicle(depot, u.engine, u.cargo);
    AssembledStep(out, c, depot);
    BuildsStep(out, c);
    PlannedStep(w, railType, depot, cargos, k);
    AcceptedTwo(w, pos, out, c);
  }

  /** A refused attach stops the build with that command logged. */
  lemma MoveRefused(w: World, railType: RailType, depot: TileIndex, cargos: seq<CargoID>,
                    k: nat, pos: nat, head: VehicleID, out: seq<Action>, m: Command)
    requires BuildInv(w, railType, depot, cargos, k, pos, head, out) && k > 0
    requires m.MoveRailVehicle? && m.depot == depot
    ensures BuildMeets(w, railType, depot, cargos, pos, Run(out + [Submit(m)], false))
  {
    AssembledStep(out, m, depot);
    BuildsStep(out, m);
  }

  /** An accepted attach and its tick keep the build where it was. */
  lemma MoveAccepted(w: World, railType: RailType, depot: TileIndex, cargos: seq<CargoID>,
                     k: nat, pos: nat, head: VehicleID, out: seq<Action>, m: Command)
    requires BuildInv(w, railType, depot, cargos, k, pos, head, out) && k > 0
    requires m.MoveRailVehicle? && m.depot == depot && w.accepts(pos + |out|)
    ensures BuildInv(w, railType, depot, cargos, k, pos, head, out + [Submit(m), WaitTick])
  {
    AssembledStep(out, m, depot);
    BuildsStep(out, m);
    AcceptedTwo(w, pos, out, m);
  }

  /** One slot of the build, unfolded: which of the five ways it goes, and where it leaves the build. */
  lemma BuildLoopUnfold(w: World, railType: RailType, depot: TileIndex, cargos: seq<CargoID>,
                        k: nat, pos: nat, head: VehicleID, out: seq<Action>, u: UnitChoice, at: nat)
    requires k < |cargos| && u == UnitFor(w, railType, cargos, k) && at == pos + |out|
    ensures var r := BuildLoop(w, railType, depot, cargos, k, pos, head, out);
      var build := Submit(BuildVehicle(depot, u.engine, u.cargo));
      var move := Submit(MoveRailVehicle(depot, w.created(at), w.lastOf(at + 2)));
      && (u.engine == INVALID_ENGINE ==> r == Run(out, false))
      && (u.engine != INVALID_ENGINE && !w.accepts(at) ==> r == Run(out + [build], false))
      && (u.engine != INVALID_ENGINE && w.accepts(at) && head == INVALID_VEHICLE ==>
            r == BuildLoop(w, railType, depot, cargos, k + 1, pos, w.created(at), out + [build, WaitTick]))
      && (u.engine != INVALID_ENGINE && w.accepts(at) && head != INVALID_VEHICLE && w.headOf(at + 2) == head ==>
            r == BuildLoop(w, railType, depot, cargos, k + 1, pos, head, out + [build, WaitTick]))
      && (u.engine != INVALID_ENGINE && w.accepts(at) && head != INVALID_VEHICLE && w.headOf(at + 2) != head ==>
            r == if w.accepts(at + 2) then BuildLoop(w, railType, depot, cargos, k + 1, pos, head, out + [build, WaitTick, move, WaitTick])
                 else Run(out + [build, WaitTick, move], false))
  {
  }

  /** What the build buys, whatever the game answers. */
  lemma {:induction false} BuildLoopPlanned(w: World, railType: RailType, depot: TileIndex, cargos: seq<CargoID>,
                                            k: nat, pos: nat, head: VehicleID, out: seq<Action>)
    requires BuildInv(w, railType, depot, cargos, k, pos, head, out)
    ensures BuildMeets(w, railType, depot, cargos, pos, BuildLoop(w, railType, depot, cargos, k, pos, head, out))
    decreases |cargos| - k, 2
  {
    var r := BuildLoop(w, railType, depot, cargos, k, pos, head, out);
    if k == |cargos| {
      BuildStops(w, railType, depot, cargos, k, pos, head, out, head != INVALID_VEHICLE);
      return;
    }
    var u := UnitFor(w, railType, cargos, k);
    var at := pos + |out|;
    BuildLoopUnfold(w, railType, depot, cargos, k, pos, head, out, u, at);
    if u.engine == INVALID_ENGINE {
      BuildStops(w, railType, depot, cargos, k, pos, head, out, false);
      MeetsSame(w, railType, depot, cargos, pos, r, Run(out, false));
    } else if !w.accepts(at) {
      BuildRefused(w, railType, depot, cargos, k, pos, head, out);
      MeetsSame(w, railType, depot, cargos, pos, r, Run(out + [Submit(BuildVehicle(depot, u.engine, u.cargo))], false));
    } else {
      BuiltPlanned(w, railType, depot, cargos, k, pos, head, out);
    }
  }

  /** The build after an accepted build of slot `k`, attached or not. */
  lemma {:induction false} BuiltPlanned(w: World, railType: RailType, depot: TileIndex, cargos: seq<CargoID>,
                                        k: nat, pos: nat, head: VehicleID, out: seq<Action>)
    requires BuildInv(w, railType, depot, cargos, k, pos, head, out) && k < |cargos|
    requires UnitFor(w, railType, cargos, k).engine != INVALID_ENGINE && w.accepts(pos + |out|)
    ensures BuildMeets(w, railType, depot, cargos, pos, BuildLoop(w, railType, depot, cargos, k, pos, head, out))
    decreases |cargos| - k, 1
  {
    var u := UnitFor(w, railType, cargos, k);
    var at := pos + |out|;
    var h := if head == INVALID_VEHICLE then w.created(at) else head;
    var next := out + [Submit(BuildVehicle(depot, u.engine, u.cargo)), WaitTick];
    BuildAccepted(w, railType, depot, cargos, k, pos, head, out, h);
    if head == INVALID_VEHICLE || w.headOf(at + 2) == head {
      PlacedPlanned(w, railType, depot, cargos, k, pos, head, out, h, next);
    } else {
      MovePlanned(w, railType, depot, cargos, k, pos, head, out, next);
    }
  }

  /** The build after an accepted build of slot `k` that needs no attaching. */
  lemma {:induction false} PlacedPlanned(w: World, railType: RailType, depot: TileIndex, cargos: seq<CargoID>,
                                         k: nat, pos: nat, head: VehicleID, out: seq<Action>, h: VehicleID, next: seq<Action>)
    requires k < |cargos|
    requires UnitFor(w, railType, cargos, k).engine != INVALID_ENGINE && w.accepts(pos + |out|)
    requires head == INVALID_VEHICLE || w.headOf(pos + |out| + 2) == head
    requires h == if head == INVALID_VEHICLE then w.created(pos + |out|) else head
    requires var u := UnitFor(w, railType, cargos, k);
      next == out + [Submit(BuildVehicle(depot, u.engine, u.cargo)), WaitTick]
    requires BuildInv(w, railType, depot, cargos, k + 1, pos, h, next)
    ensures BuildMeets(w, railType, depot, cargos, pos, BuildLoop(w, railType, depot, cargos, k, pos, head, out))
    decreases |cargos| - k, 0
  {
    BuildLoopUnfold(w, railType, depot, cargos, k, pos, head, out, UnitFor(w, railType, cargos, k), pos + |out|);
    BuildLoopPlanned(w, railType, depot, cargos, k + 1, pos, h, next);
    MeetsSame(w, railType, depot, cargos, pos, BuildLoop(w, railType, depot, cargos, k, pos, head, out),
              BuildLoop(w, railType, depot, cargos, k + 1, pos, h, next));
  }

  /** The build after an accepted build of slot `k` that the game left outside the head's chain. */
  lemma {:induction false} MovePlanned(w: World, railType: RailType, depot: TileIndex, cargos: seq<CargoID>,
                                       k: nat, pos: nat, head: VehicleID, out: seq<Action>, next: seq<Action>)
    requires k < |cargos| && head != INVALID_VEHICLE
    requires UnitFor(w, railType, cargos, k).engine != INVALID_ENGINE && w.accepts(pos + |out|)
    requires w.headOf(pos + |out| + 2) != head
    requires var u := UnitFor(w, railType, cargos, k);
      next == out + [Submit(BuildVehicle(depot, u.engine, u.cargo)), WaitTick]
    requires BuildInv(w, railType, depot, cargos, k + 1, pos, head, next)
    ensures BuildMeets(w, railType, depot, cargos, pos, BuildLoop(w, railType, depot, cargos, k, pos, head, out))
    decreases |cargos| - k, 0
  {
    var r := BuildLoop(w, railType, depot, cargos, k, pos, head, out);
    var u := UnitFor(w, railType, cargos, k);
    var at := pos + |out|;
    var build := Submit(BuildVehicle(depot, u.engine, u.cargo));
    BuildLoopUnfold(w, railType, depot, cargos, k, pos, head, out, u, at);
    var move := Submit(MoveRailVehicle(depot, w.created(at), w.lastOf(at + 2)));
    assert |next| == |out| + 2;
    if !w.accepts(at + 2) {
      MoveRefused(w, railType, depot, cargos, k + 1, pos, head, next, move.cmd);
      assert next + [move] == out + [build, WaitTick, move];
      MeetsSame(w, railType, depot, cargos, pos, r, Run(next + [move], false));
    } else {
      var next' := next + [move, WaitTick];
      assert next' == out + [build, WaitTick, move, WaitTick];
      MoveAccepted(w, railType, depot, cargos, k + 1, pos, head, next, move.cmd);
      BuildLoopPlanned(w, railType, depot, cargos, k + 1, pos, head, next');
      MeetsSame(w, railType, depot, cargos, pos, r, BuildLoop(w, railType, depot, cargos, k + 1, pos, head, next'));
    }
  }

  lemma MeetsSame(w: World, railType: RailType, depot: TileIndex, cargos: seq<CargoID>, pos: nat, a: Run, b: Run)
    requires a == b && BuildMeets(w, railType, depot, cargos, pos, b)
    ensures BuildMeets(w, railType, depot, cargos, pos, a)
  {
  }

  /** The cargo the engines of a composition are refitted to: its first wagon's, as the build in step 4 of `DoCoro` picks it. */
  method FirstWagonCargo(cargos: seq<CargoID>) returns (c: CargoID)
    ensures c == CT_INVALID <==> forall i :: 0 <= i < |cargos| ==> cargos[i] == CT_INVALID
    ensures c != CT_INVALID ==>
      exists i :: 0 <= i < |cargos| && cargos[i] == c && (forall j :: 0 <= j < i ==> cargos[j] == CT_INVALID)
    ensures c == WagonCargo(cargos)
  {
    c := CT_INVALID;
    var i := 0;
    while i < |cargos|
      invariant i <= |cargos|
      invariant forall j :: 0 <= j < i ==> cargos[j] == CT_INVALID
      invariant WagonCargo(cargos[i..]) == WagonCargo(cargos)
    {
      assert cargos[i..][1..] == cargos[i + 1..];
      if cargos[i] != CT_INVALID {
        c := cargos[i];
        break;
      }
      i := i + 1;
    }
  }

  /** The order a new train has to skip to, if any, and the command that does it. */
  function SkipActions(w: World, pos: nat, depot: TileIndex, train: VehicleID): seq<Action> {
    var t := SkipTarget(w.trainOrders(pos), w.depotIndex(depot));
    if t.Some? && w.curRealOrder(pos) != t.value then [Submit(SkipToOrder(depot, train, t.value))] else []
  }

  /**
   * A route only gains: its orders stay, every composition it could clone
   * stays clonable from the same train, and its first new train, once set,
   * stays.
   */
  ghost predicate RouteGrows(before: Route, after: Route) {
    && after.orders == before.orders
    && KeepsFirst(before.firstClonables, after.firstClonables)
    && (before.firstShared != INVALID_VEHICLE ==> after.firstShared == before.firstShared)
  }

  ghost predicate Grows(before: seq<Route>, after: seq<Route>) {
    |after| == |before| && forall r :: 0 <= r < |before| ==> RouteGrows(before[r], after[r])
  }

  lemma GrowsTransitive(a: seq<Route>, b: seq<Route>, c: seq<Route>)
    requires Grows(a, b) && Grows(b, c)
    ensures Grows(a, c)
  {
    forall r | 0 <= r < |a|
      ensures RouteGrows(a[r], c[r])
    {
      assert RouteGrows(a[r], b[r]) && RouteGrows(b[r], c[r]);
    }
  }

  /** The recorded train's route has a first new train and can clone its composition. */
  ghost predicate Rebuilt(routes: seq<Route>, p: VehicleProperties) {
    && p.routeIndex < |routes|
    && p.cargos in routes[p.routeIndex].firstClonables
    && routes[p.routeIndex].firstShared != INVALID_VEHICLE
  }

  /** Once rebuilt, a recorded train stays rebuilt as the routes grow. */
  lemma RebuiltKept(before: seq<Route>, after: seq<Route>, p: VehicleProperties)
    requires Rebuilt(before, p) && Grows(before, after)
    ensures Rebuilt(after, p)
  {
    assert RouteGrows(before[p.routeIndex], after[p.routeIndex]);
  }

  /** The deletion of existing orders in step 4 of `DoCoro`: orders `n - 1` down to 0, stopping at a refusal. */
  method RunDeletes(w: World, pos: nat, depot: TileIndex, train: VehicleID, n: nat) returns (out: seq<Action>, ok: bool)
    ensures Execute(w, pos, DeleteRange(depot, train, n, 0)) == Run(out, ok)
  {
    ghost var full := DeleteRange(depot, train, n, 0);
    out := [];
    ok := true;
    var count: nat := n;
    while count > 0
      invariant count <= n
      invariant out == DeleteRange(depot, train, n, count)
      invariant Execute(w, pos, out) == Run(out, true)
    {
      DeleteRangeExtend(depot, train, n, count);
      DeleteRangePrefix(depot, train, n, count - 1, 0);
      var delete := DeleteOrder(depot, train, count - 1);
      if !w.accepts(pos + |out|) {
        ExecutePrefixRefused(w, pos, out, delete, full);
        out := out + [Submit(delete)];
        ok := false;
        return;
      }
      ExecuteExtend(w, pos, out, Submit(delete));
      out := out + [Submit(delete)];
      count := count - 1;
    }
  }

  /** The addition of the new orders in step 4 of `DoCoro`: every captured order in turn, a tick after each. */
  method RunInserts(w: World, pos: nat, depot: TileIndex, train: VehicleID, target: seq<Order>) returns (out: seq<Action>, ok: bool)
    ensures Execute(w, pos, InsertScript(depot, train, target, |target|)) == Run(out, ok)
  {
    ghost var full := InsertScript(depot, train, target, |target|);
    out := [];
    ok := true;
    var i := 0;
    while i < |target|
      invariant i <= |target|
      invariant out == InsertScript(depot, train, target, i)
      invariant Execute(w, pos, out) == Run(out, true)
    {
      var insert := InsertOrder(depot, train, i, target[i]);
      InsertScriptPrefix(depot, train, target, i + 1, |target|);
      if !w.accepts(pos + |out|) {
        ExecutePrefixRefused(w, pos, out, insert, full);
        out := out + [Submit(insert)];
        ok := false;
        return;
      }
      ExecuteExtend(w, pos, out, Submit(insert));
      ExecuteExtend(w, pos, out + [Submit(insert)], WaitTick);
      assert out + [Submit(insert)] + [WaitTick] == out + [Submit(insert), WaitTick];
      out := out + [Submit(insert), WaitTick];
      i := i + 1;
    }
  }

  /**
   * What obtaining the new train logs from position `pos`, by the strategy
   * `ChooseStrategy` picks: a same-route clone sharing orders waits a tick
   * once accepted, a copy from another route does not, and a build runs
   * `BuildLoop`. Either way the new train is the vehicle the first command
   * created.
   */
  function Acquire(w: World, railType: RailType, pos: nat, depot: TileIndex, route: Route,
                   forCopying: map<seq<CargoID>, VehicleID>, cargos: seq<CargoID>): Run {
    match ChooseStrategy(route, forCopying, cargos)
      case CloneSharing(source) =>
        var clone := Submit(CloneVehicle(depot, source, true));
        if w.accepts(pos) then Run([clone, WaitTick], true) else Run([clone], false)
      case CopyFrom(source) =>
        Run([Submit(CloneVehicle(depot, source, false))], w.accepts(pos))
      case BuildUnits => BuildLoop(w, railType, depot, cargos, 0, pos, INVALID_VEHICLE, [])
  }

  /** The trains remembered for copying once `Acquire` ended with `ok`: a successful build is remembered. */
  function CopiesAfter(w: World, pos: nat, route: Route, forCopying: map<seq<CargoID>, VehicleID>,
                       cargos: seq<CargoID>, ok: bool): map<seq<CargoID>, VehicleID> {
    if ok && ChooseStrategy(route, forCopying, cargos).BuildUnits? then forCopying[cargos := w.created(pos)]
    else forCopying
  }

  /**
   * A build obtains exactly the planned units, assembled in the depot, and
   * on success every command was accepted; by any strategy, a composition
   * already remembered for copying keeps its train.
   */
  lemma AcquirePlanned(w: World, railType: RailType, pos: nat, depot: TileIndex, route: Route,
                       forCopying: map<seq<CargoID>, VehicleID>, cargos: seq<CargoID>)
    requires WorldValid(w)
    ensures var r := Acquire(w, railType, pos, depot, route, forCopying, cargos);
      && KeepsFirst(forCopying, CopiesAfter(w, pos, route, forCopying, cargos, r.ok))
      && (ChooseStrategy(route, forCopying, cargos).BuildUnits? ==>
            && Assembled(r.actions, depot)
            && BuildsPlanned(w, railType, depot, cargos, r.actions, r.ok)
            && (r.ok ==> AcceptedBefore(w, pos, r.actions, |r.actions|))
            && (cargos == [] ==> !r.ok && r.actions == []))
  {
    if ChooseStrategy(route, forCopying, cargos).BuildUnits? {
      BuildLoopPlanned(w, railType, depot, cargos, 0, pos, INVALID_VEHICLE, []);
    }
  }

  /**
   * Giving a copied or built train its orders from log position `pos`:
   * share the orders of the route's first new train if it has one, else
   * replay the recorded orders.
   */
  function AssignActions(w: World, pos: nat, depot: TileIndex, train: VehicleID, route: Route): Run {
    if route.firstShared != INVALID_VEHICLE then
      var share := Submit(ShareOrders(depot, train, route.firstShared));
      if w.accepts(pos) then Run([share, WaitTick], true) else Run([share], false)
    else Execute(w, pos, ReplayScript(depot, train, w.numOrders(pos), route.orders))
  }

  /**
   * The route once `train` has its orders: its first new train if it had
   * none, and the train to clone for `cargos` if it had none.
   */
  function WithNewTrain(route: Route, cargos: seq<CargoID>, train: VehicleID): (r: Route)
    requires train != INVALID_VEHICLE
    ensures RouteValid(route) ==> RouteValid(r)
    ensures RouteGrows(route, r) && cargos in r.firstClonables && r.firstShared != INVALID_VEHICLE
  {
    var first := if route.firstShared == INVALID_VEHICLE then train else route.firstShared;
    route.(firstShared := first, firstClonables := TryEmplace(route.firstClonables, cargos, train))
  }

  /**
   * Where one pass of the rebuild loop, or a run of them, leaves the
   * planner: the commands and waits it logged, whether it succeeded, the
   * routes and the trains remembered for copying.
   */
  datatype Progress = Progress(actions: seq<Action>, ok: bool, routes: seq<Route>,
                               forCopying: map<seq<CargoID>, VehicleID>)

  /**
   * Placing the obtained `train` from log position `pos`: when the route
   * cannot clone the composition yet, give the train its orders and, once
   * they are accepted, record it in the route; then move it on past its
   * depot's order.
   */
  function Place(w: World, pos: nat, routes: seq<Route>, forCopying: map<seq<CargoID>, VehicleID>,
                 prop: VehicleProperties, train: VehicleID): (p: Progress)
    requires prop.routeIndex < |routes| && train != INVALID_VEHICLE
    ensures |p.routes| == |routes| && p.forCopying == forCopying
    ensures forall r :: 0 <= r < |routes| && r != prop.routeIndex ==> p.routes[r] == routes[r]
  {
    var route := routes[prop.routeIndex];
    if prop.cargos in route.firstClonables then
      var skip := SkipActions(w, pos, prop.depot, train);
      Progress(skip, skip == [] || w.accepts(pos), routes, forCopying)
    else
      var a := AssignActions(w, pos, prop.depot, train, route);
      if !a.ok then Progress(a.actions, false, routes, forCopying)
      else
        var skip := SkipActions(w, pos + |a.actions|, prop.depot, train);
        Progress(a.actions + skip, skip == [] || w.accepts(pos + |a.actions|),
                 routes[prop.routeIndex := WithNewTrain(route, prop.cargos, train)], forCopying)
  }

  /**
   * One pass of the rebuild loop from log position `pos`: nothing in an
   * unconverted depot; otherwise obtain the train and, once obtained,
   * `Place` it.
   */
  function Reconstruct(w: World, railType: RailType, pos: nat, routes: seq<Route>,
                       forCopying: map<seq<CargoID>, VehicleID>, prop: VehicleProperties): (p: Progress)
    requires WorldValid(w) && prop.routeIndex < |routes|
    ensures |p.routes| == |routes|
  {
    if w.depotRailType(prop.depot) != railType then Progress([], false, routes, forCopying)
    else
      var route := routes[prop.routeIndex];
      var acquired := Acquire(w, railType, pos, prop.depot, route, forCopying, prop.cargos);
      var copies := CopiesAfter(w, pos, route, forCopying, prop.cargos, acquired.ok);
      if !acquired.ok then Progress(acquired.actions, false, routes, copies)
      else
        var placed := Place(w, pos + |acquired.actions|, routes, copies, prop, w.created(pos));
        Progress(acquired.actions + placed.actions, placed.ok, placed.routes, placed.forCopying)
  }

  /**
   * Placing a train only lets the routes grow and keeps them valid, and a
   * successful placement leaves the recorded train's route rebuilt.
   */
  lemma PlaceKeeps(w: World, pos: nat, routes: seq<Route>, forCopying: map<seq<CargoID>, VehicleID>,
                   prop: VehicleProperties, train: VehicleID)
    requires prop.routeIndex < |routes| && train != INVALID_VEHICLE
    requires forall r :: 0 <= r < |routes| ==> RouteValid(routes[r])
    ensures var p := Place(w, pos, routes, forCopying, prop, train);
      && Grows(routes, p.routes)
      && (forall r :: 0 <= r < |routes| ==> RouteValid(p.routes[r]))
      && (p.ok ==> Rebuilt(p.routes, prop))
  {
    var p := Place(w, pos, routes, forCopying, prop, train);
    assert RouteValid(routes[prop.routeIndex]);
    forall r | 0 <= r < |routes|
      ensures RouteGrows(routes[r], p.routes[r]) && RouteValid(p.routes[r])
    {
    }
  }

  /**
   * A pass of the rebuild loop only lets the routes grow, keeps them valid
   * and keeps every remembered composition; a successful pass leaves its
   * recorded train's route rebuilt.
   */
  lemma ReconstructKeeps(w: World, railType: RailType, pos: nat, routes: seq<Route>,
                         forCopying: map<seq<CargoID>, VehicleID>, prop: VehicleProperties)
    requires WorldValid(w) && prop.routeIndex < |routes|
    requires forall r :: 0 <= r < |routes| ==> RouteValid(routes[r])
    ensures var p := Reconstruct(w, railType, pos, routes, forCopying, prop);
      && Grows(routes, p.routes)
      && (forall r :: 0 <= r < |routes| ==> RouteValid(p.routes[r]))
      && KeepsFirst(forCopying, p.forCopying)
      && (p.ok ==> Rebuilt(p.routes, prop))
  {
    var p := Reconstruct(w, railType, pos, routes, forCopying, prop);
    if w.depotRailType(prop.depot) != railType {
      forall r | 0 <= r < |routes|
        ensures RouteGrows(routes[r], p.routes[r])
      {
      }
      return;
    }
    var route := routes[prop.routeIndex];
    var acquired := Acquire(w, railType, pos, prop.depot, route, forCopying, prop.cargos);
    var copies := CopiesAfter(w, pos, route, forCopying, prop.cargos, acquired.ok);
    AcquirePlanned(w, railType, pos, prop.depot, route, forCopying, prop.cargos);
    if !acquired.ok {
      forall r | 0 <= r < |routes|
        ensures RouteGrows(routes[r], p.routes[r])
      {
      }
      return;
    }
    PlaceKeeps(w, pos + |acquired.actions|, routes, copies, prop, w.created(pos));
  }

  /** Everything a run of passes logged, in order. */
  function Flatten(passes: seq<Progress>): (a: seq<Action>)
    ensures passes == [] ==> a == []
  {
    if passes == [] then [] else Flatten(passes[..|passes| - 1]) + passes[|passes| - 1].actions
  }

  /** The routes a run of passes leaves: those of its last pass. */
  function RoutesAfter(routes: seq<Route>, passes: seq<Progress>): seq<Route> {
    if passes == [] then routes else passes[|passes| - 1].routes
  }

  /** The trains remembered for copying after a run of passes. */
  function CopiesLeft(forCopying: map<seq<CargoID>, VehicleID>, passes: seq<Progress>): map<seq<CargoID>, VehicleID> {
    if passes == [] then forCopying else passes[|passes| - 1].forCopying
  }

  /**
   * `passes` is how the rebuild loop went from log position `pos` over the
   * recorded trains `props`: every pass but the last succeeded, and each is
   * `Reconstruct` of its recorded train from where the passes before it
   * left the log, the routes and the trains remembered for copying.
   */
  ghost predicate Chained(w: World, railType: RailType, pos: nat, routes: seq<Route>,
                          forCopying: map<seq<CargoID>, VehicleID>, props: seq<VehicleProperties>,
                          passes: seq<Progress>)
    decreases |passes|, 2
  {
    && WorldValid(w) && |passes| <= |props|
    && (passes != [] ==> ChainLink(w, railType, pos, routes, forCopying, props, passes))
  }

  /** A chain ends in a pass that comes after successful passes only. */
  ghost predicate ChainLink(w: World, railType: RailType, pos: nat, routes: seq<Route>,
                            forCopying: map<seq<CargoID>, VehicleID>, props: seq<VehicleProperties>,
                            passes: seq<Progress>)
    requires passes != [] && |passes| <= |props|
    decreases |passes|, 1
  {
    && (|passes| > 1 ==> passes[|passes| - 2].ok)
    && LinkStep(w, railType, pos, routes, forCopying, props, passes)
  }

  /**
   * The last pass of a chain is `Reconstruct` of its recorded train from
   * where the chain before it, itself a chain, left off.
   */
  ghost predicate LinkStep(w: World, railType: RailType, pos: nat, routes: seq<Route>,
                           forCopying: map<seq<CargoID>, VehicleID>, props: seq<VehicleProperties>,
                           passes: seq<Progress>)
    requires passes != [] && |passes| <= |props|
    decreases |passes|, 0
  {
    var init := passes[..|passes| - 1];
    && Chained(w, railType, pos, routes, forCopying, props, init)
    && props[|init|].routeIndex < |RoutesAfter(routes, init)|
    && passes[|init|] == Reconstruct(w, railType, pos + |Flatten(init)|, RoutesAfter(routes, init),
                                     CopiesLeft(forCopying, init), props[|init|])
  }

  /** A chain grows by the next pass, from where it left off, when its last pass succeeded. */
  lemma ChainExtend(w: World, railType: RailType, pos: nat, routes: seq<Route>,
                    forCopying: map<seq<CargoID>, VehicleID>, props: seq<VehicleProperties>,
                    passes: seq<Progress>, at: nat, before: seq<Route>, copies: map<seq<CargoID>, VehicleID>, p: Progress)
    requires Chained(w, railType, pos, routes, forCopying, props, passes) && |passes| < |props|
    requires passes != [] ==> passes[|passes| - 1].ok
    requires at == pos + |Flatten(passes)| && before == RoutesAfter(routes, passes)
    requires copies == CopiesLeft(forCopying, passes)
    requires props[|passes|].routeIndex < |before|
    requires p == Reconstruct(w, railType, at, before, copies, props[|passes|])
    ensures Chained(w, railType, pos, routes, forCopying, props, passes + [p])
    ensures Flatten(passes + [p]) == Flatten(passes) + p.actions
    ensures RoutesAfter(routes, passes + [p]) == p.routes && CopiesLeft(forCopying, passes + [p]) == p.forCopying
  {
    assert (passes + [p])[..|passes|] == passes;
    assert LinkStep(w, railType, pos, routes, forCopying, props, passes + [p]);
    assert ChainLink(w, railType, pos, routes, forCopying, props, passes + [p]);
  }

  /** Every prefix of a chain is a chain. */
  lemma {:induction false} ChainedPrefix(w: World, railType: RailType, pos: nat, routes: seq<Route>,
                                         forCopying: map<seq<CargoID>, VehicleID>, props: seq<VehicleProperties>,
                                         passes: seq<Progress>, n: nat)
    requires Chained(w, railType, pos, routes, forCopying, props, passes) && n <= |passes|
    ensures Chained(w, railType, pos, routes, forCopying, props, passes[..n])
    decreases |passes|
  {
    if n == |passes| {
      assert passes[..n] == passes;
    } else {
      var init := passes[..|passes| - 1];
      assert ChainLink(w, railType, pos, routes, forCopying, props, passes);
      assert LinkStep(w, railType, pos, routes, forCopying, props, passes);
      assert passes[..n] == init[..n];
      ChainedPrefix(w, railType, pos, routes, forCopying, props, init, n);
    }
  }

  /**
   * In a chain, pass `k` is `Reconstruct` of `props[k]` from where the
   * passes before it left off, and it succeeded unless it is the last.
   */
  lemma ChainedAt(w: World, railType: RailType, pos: nat, routes: seq<Route>,
                  forCopying: map<seq<CargoID>, VehicleID>, props: seq<VehicleProperties>,
                  passes: seq<Progress>, k: nat)
    requires Chained(w, railType, pos, routes, forCopying, props, passes) && k < |passes|
    ensures k < |props| && props[k].routeIndex < |RoutesAfter(routes, passes[..k])|
    ensures passes[k] == Reconstruct(w, railType, pos + |Flatten(passes[..k])|, RoutesAfter(routes, passes[..k]),
                                     CopiesLeft(forCopying, passes[..k]), props[k])
    ensures k + 1 < |passes| ==> passes[k].ok
  {
    ChainedPrefix(w, railType, pos, routes, forCopying, props, passes, k + 1);
    var q := passes[..k + 1];
    assert ChainLink(w, railType, pos, routes, forCopying, props, q);
    assert LinkStep(w, railType, pos, routes, forCopying, props, q);
    assert q[..k] == passes[..k] && q[k] == passes[k];
    if k + 1 < |passes| {
      ChainedPrefix(w, railType, pos, routes, forCopying, props, passes, k + 2);
      var r := passes[..k + 2];
      assert ChainLink(w, railType, pos, routes, forCopying, props, r);
      assert r[k] == passes[k];
    }
  }

  class Planner {
    /** The routes of the snapshot. */
    var routes: seq<Route>
    /** `vehicles_for_copying`: the first new train built for each composition. */
    var vehiclesForCopying: map<seq<CargoID>, VehicleID>
    /** Every command submitted and every wait, in order. */
    var log: seq<Action>
    const world: World
    const railType: RailType

    ghost predicate Valid()
      reads this
    {
      WorldValid(world) && forall r :: 0 <= r < |routes| ==> RouteValid(routes[r])
    }

    constructor (routes: seq<Route>, world: World, railType: RailType)
      requires WorldValid(world)
      requires forall r :: 0 <= r < |routes| ==> routes[r].firstClonables == map[]
      ensures Valid()
      ensures this.routes == routes && this.world == world && this.railType == railType
      ensures vehiclesForCopying == map[] && log == []
    {
      this.routes := routes;
      this.world := world;
      this.railType := railType;
      vehiclesForCopying := map[];
      log := [];
    }

    /** Submit a command and wait for its answer. */
    method Send(c: Command) returns (ok: bool)
      modifies this`log
      ensures log == old(log) + [Submit(c)]
      ensures ok == world.accepts(|old(log)|)
    {
      ok := world.accepts(|log|);
      log := log + [Submit(c)];
    }

    /** The sale of step 2 of `DoCoro`: every depot in turn, bailing out at the first refusal. */
    method Liquidate(depots: seq<TileIndex>) returns (ok: bool)
      modifies this`log
      ensures var r := Execute(world, |old(log)|, SellScript(depots));
        log == old(log) + r.actions && ok == r.ok
    {
      var start := |log|;
      var out: seq<Action> := [];
      ok := true;
      var i := 0;
      while i < |depots|
        invariant i <= |depots|
        invariant log == old(log) && out == SellScript(depots[..i])
        invariant Execute(world, start, out) == Run(out, true)
      {
        SellScriptStep(depots, i);
        if !world.accepts(start + |out|) {
          SellRefused(world, start, depots, i);
          out := out + [Submit(SellAllInDepot(depots[i]))];
          ok := false;
          break;
        }
        SellAccepted(world, start, depots, i);
        out := out + [Submit(SellAllInDepot(depots[i])), SHORT_WAIT];
        i := i + 1;
      }
      if ok {
        assert depots[..i] == depots;
      }
      log := log + out;
    }

    /**
     * The whole-map conversion of step 3 of `DoCoro`, from the far corner to the
     * near one, which is (1, 1) when the map has freeform edges.
     */
    method Convert(mapMaxX: nat, mapMaxY: nat, freeformEdges: bool) returns (ok: bool)
      requires mapMaxX >= 1 && mapMaxY >= 1
      modifies this`log
      ensures var corner := if freeformEdges then 1 else 0;
        log == old(log) + [Submit(ConvertRail(mapMaxX - 1, mapMaxY - 1, corner, corner, railType))]
      ensures ok == world.accepts(|old(log)|)
    {
      var minCoord := if freeformEdges then 1 else 0;
      ok := Send(ConvertRail(mapMaxX - 1, mapMaxY - 1, minCoord, minCoord, railType));
    }

    /**
     * The order replay of step 4 of `DoCoro`: delete every order of the new train
     * from the last one down, then insert the captured orders in order.
     */
    method ReplayOrders(depot: TileIndex, train: VehicleID, target: seq<Order>) returns (ok: bool)
      modifies this`log
      ensures var r := Execute(world, |old(log)|, ReplayScript(depot, train, world.numOrders(|old(log)|), target));
        log == old(log) + r.actions && ok == r.ok
    {
      var start := |log|;
      var n := world.numOrders(start);
      var out, done := RunDeletes(world, start, depot, train, n);
      ok := done;
      if done {
        var inserted, ins := RunInserts(world, start + |out|, depot, train, target);
        out := out + inserted;
        ok := ins;
      }
      ReplayRun(world, start, depot, train, n, target);
      log := log + out;
    }

    /**
     * One slot of `BuildTrain`: buy the unit for `cargos[i]` and, past the
     * first slot, attach it behind the chain unless the game already did.
     * It stops at an unbuildable slot or a refused command.
     */
    method BuildSlot(depot: TileIndex, cargos: seq<CargoID>, wagonCargo: CargoID, i: nat, pos: nat,
                     head: VehicleID, out: seq<Action>)
      returns (stop: bool, head': VehicleID, out': seq<Action>)
      requires WorldValid(world) && i < |cargos| && wagonCargo == WagonCargo(cargos)
      requires i == 0 <==> head == INVALID_VEHICLE
      requires i == 0 ==> out == []
      ensures stop ==> BuildLoop(world, railType, depot, cargos, i, pos, head, out) == Run(out', false)
      ensures !stop ==> head' != INVALID_VEHICLE && (i > 0 ==> head' == head) && (i == 0 ==> head' == world.created(pos))
      ensures !stop ==> BuildLoop(world, railType, depot, cargos, i, pos, head, out)
                        == BuildLoop(world, railType, depot, cargos, i + 1, pos, head', out')
    {
      var choice := GetNewTrainUnit(world.catalog, railType, cargos[i], wagonCargo, world.hasPowerOnRail);
      var at := pos + |out|;
      BuildLoopUnfold(world, railType, depot, cargos, i, pos, head, out, choice, at);
      stop, head', out' := true, head, out;
      if choice.engine == INVALID_ENGINE {
        return;
      }
      var build := BuildVehicle(depot, choice.engine, choice.cargo);
      var newWagon := world.created(at);
      if !world.accepts(at) {
        out' := out + [Submit(build)];
        return;
      }
      if head == INVALID_VEHICLE {
        head' := newWagon;
        out' := out + [Submit(build), WaitTick];
      } else if world.headOf(at + 2) != head {
        var move := MoveRailVehicle(depot, newWagon, world.lastOf(at + 2));
        if !world.accepts(at + 2) {
          out' := out + [Submit(build), WaitTick, Submit(move)];
          return;
        }
        out' := out + [Submit(build), WaitTick, Submit(move), WaitTick];
      } else {
        out' := out + [Submit(build), WaitTick];
      }
      stop := false;
    }

    /**
     * The unit-by-unit build of step 4 of `DoCoro`: one unit per cargo slot, the
     * first becoming the head and every later one attached behind the
     * chain unless the game already attached it.
     */
    method BuildTrain(depot: TileIndex, cargos: seq<CargoID>) returns (ok: bool, head: VehicleID, ghost built: seq<Action>)
      requires WorldValid(world)
      modifies this`log
      ensures log == old(log) + built
      ensures Run(built, ok) == BuildLoop(world, railType, depot, cargos, 0, |old(log)|, INVALID_VEHICLE, [])
      ensures Assembled(built, depot)
      ensures cargos == [] ==> !ok && built == []
      ensures ok ==> head != INVALID_VEHICLE && head == world.created(|old(log)|)
      ensures BuildsPlanned(world, railType, depot, cargos, built, ok)
      ensures ok ==> AcceptedBefore(world, |old(log)|, built, |built|)
    {
      var pos := |log|;
      var out: seq<Action> := [];
      var wagonCargo := FirstWagonCargo(cargos);
      head := INVALID_VEHICLE;
      ok := true;
      var i := 0;
      while i < |cargos|
        invariant i <= |cargos| && log == old(log)
        invariant i == 0 <==> head == INVALID_VEHICLE
        invariant i == 0 ==> out == []
        invariant i > 0 ==> head == world.created(pos)
        invariant BuildLoop(world, railType, depot, cargos, 0, pos, INVALID_VEHICLE, [])
               == BuildLoop(world, railType, depot, cargos, i, pos, head, out)
      {
        var stop;
        stop, head, out := BuildSlot(depot, cargos, wagonCargo, i, pos, head, out);
        if stop {
          ok := false;
          break;
        }
        i := i + 1;
      }
      if head == INVALID_VEHICLE {
        ok := false;
      }
      log := log + out;
      built := out;
      BuildLoopPlanned(world, railType, depot, cargos, 0, pos, INVALID_VEHICLE, []);
    }

    /** The skip of step 4 of `DoCoro`: move the new train on to the order after its depot's. */
    method SkipToDepotOrder(depot: TileIndex, train: VehicleID) returns (ok: bool)
      modifies this`log
      ensures log == old(log) + SkipActions(world, |old(log)|, depot, train)
      ensures ok <==> SkipActions(world, |old(log)|, depot, train) == [] || world.accepts(|old(log)|)
    {
      var orders := world.trainOrders(|log|);
      var k := FindDepotOrder(orders, world.depotIndex(depot));
      if k < |orders| {
        var next := (k + 1) % |orders|;
        if world.curRealOrder(|log|) != next {
          ok := Send(SkipToOrder(depot, train, next));
          return;
        }
      }
      ok := true;
    }

    /**
     * How step 4 of `DoCoro` obtains the new train: a clone sharing the
     * orders of a new train of the same route and composition, else a copy
     * of a new train of the same composition, else a unit-by-unit build
     * that is remembered for copying.
     */
    method AcquireTrain(depot: TileIndex, route: Route, cargos: seq<CargoID>) returns (ok: bool, train: VehicleID)
      requires WorldValid(world)
      modifies this`log, this`vehiclesForCopying
      ensures var r := Acquire(world, railType, |old(log)|, depot, route, old(vehiclesForCopying), cargos);
        && log == old(log) + r.actions
        && ok == r.ok
        && vehiclesForCopying == CopiesAfter(world, |old(log)|, route, old(vehiclesForCopying), cargos, ok)
      ensures ok ==> train != INVALID_VEHICLE && train == world.created(|old(log)|)
    {
      if cargos in route.firstClonables {
        var clone := CloneVehicle(depot, route.firstClonables[cargos], true);
        train := world.created(|log|);
        ok := world.accepts(|log|);
        log := log + [Submit(clone)] + (if ok then [WaitTick] else []);
      } else if cargos in vehiclesForCopying {
        var copy := CloneVehicle(depot, vehiclesForCopying[cargos], false);
        train := world.created(|log|);
        ok := world.accepts(|log|);
        log := log + [Submit(copy)];
      } else {
        ghost var built;
        ok, train, built := BuildTrain(depot, cargos);
        if ok {
          vehiclesForCopying := TryEmplace(vehiclesForCopying, cargos, train);
        }
      }
    }

    /**
     * The orders of a copied or built train in step 4 of `DoCoro`: share them
     * with the route's first new train if it has one, otherwise replay the
     * recorded orders and make this train the route's first.
     */
    method AssignOrders(depot: TileIndex, train: VehicleID, route: Route) returns (ok: bool, updated: Route)
      modifies this`log
      ensures route.firstShared != INVALID_VEHICLE ==>
        && ok == world.accepts(|old(log)|)
        && log == old(log) + [Submit(ShareOrders(depot, train, route.firstShared))] + (if ok then [WaitTick] else [])
        && updated == route
      ensures route.firstShared == INVALID_VEHICLE ==>
        var r := Execute(world, |old(log)|, ReplayScript(depot, train, world.numOrders(|old(log)|), route.orders));
        && log == old(log) + r.actions
        && ok == r.ok
        && updated == if ok then route.(firstShared := train) else route
      ensures var r := AssignActions(world, |old(log)|, depot, train, route);
        log == old(log) + r.actions && ok == r.ok
    {
      updated := route;
      if route.firstShared != INVALID_VEHICLE {
        ok := Send(ShareOrders(depot, train, route.firstShared));
        if ok {
          log := log + [WaitTick];
        }
      } else {
        ok := ReplayOrders(depot, train, route.orders);
        if ok {
          updated := route.(firstShared := train);
        }
      }
    }

    /**
     * A copied or built train gets its orders and, once it has them, is
     * recorded in its route as the train to clone for its composition.
     */
    method AssignAndRecord(prop: VehicleProperties, train: VehicleID) returns (ok: bool)
      requires Valid() && prop.routeIndex < |routes| && train != INVALID_VEHICLE
      modifies this`log, this`routes
      ensures Valid()
      ensures var a := AssignActions(world, |old(log)|, prop.depot, train, old(routes[prop.routeIndex]));
        && log == old(log) + a.actions
        && ok == a.ok
        && routes == if ok then old(routes)[prop.routeIndex := WithNewTrain(old(routes[prop.routeIndex]), prop.cargos, train)]
                     else old(routes)
    {
      var route := routes[prop.routeIndex];
      var updated;
      ok, updated := AssignOrders(prop.depot, train, route);
      if ok {
        routes := routes[prop.routeIndex := updated.(firstClonables := TryEmplace(updated.firstClonables, prop.cargos, train))];
      }
    }

    /**
     * What follows once the new train exists: orders and the record in the
     * route unless the route already clones this composition, then the
     * skip past the depot's order.
     */
    method PlaceTrain(prop: VehicleProperties, train: VehicleID, ghost pos: nat, ghost before: seq<Route>,
                      ghost copies: map<seq<CargoID>, VehicleID>, ghost created: VehicleID) returns (ok: bool)
      requires Valid() && prop.routeIndex < |routes| && train != INVALID_VEHICLE
      requires pos == |log| && before == routes && copies == vehiclesForCopying && created == train
      modifies this`log, this`routes
      ensures Valid()
      ensures var p := Place(world, pos, before, copies, prop, created);
        log == old(log) + p.actions && ok == p.ok && routes == p.routes
    {
      PlaceKeeps(world, |log|, routes, vehiclesForCopying, prop, train);
      var route := routes[prop.routeIndex];
      if prop.cargos !in route.firstClonables {
        ok := AssignAndRecord(prop, train);
        if !ok {
          return;
        }
      } else {
        assert RouteValid(route);
      }
      ok := SkipToDepotOrder(prop.depot, train);
    }

    /**
     * One pass of the rebuild loop of step 4 of `DoCoro`: check the depot
     * was converted, obtain the new train, give it its orders, record it in
     * its route, and move it on past its depot's order.
     */
    method ReconstructVehicle(prop: VehicleProperties) returns (ok: bool, train: VehicleID)
      requires Valid() && prop.routeIndex < |routes|
      modifies this`log, this`vehiclesForCopying, this`routes
      ensures Valid()
      ensures var p := Reconstruct(world, railType, |old(log)|, old(routes), old(vehiclesForCopying), prop);
        && log == old(log) + p.actions
        && ok == p.ok
        && routes == p.routes
        && vehiclesForCopying == p.forCopying
      ensures ok ==> train == world.created(|old(log)|)
    {
      ReconstructKeeps(world, railType, |log|, routes, vehiclesForCopying, prop);
      if world.depotRailType(prop.depot) != railType {
        return false, INVALID_VEHICLE;
      }
      ghost var pos, route := |log|, routes[prop.routeIndex];
      ghost var acquired := Acquire(world, railType, pos, prop.depot, route, vehiclesForCopying, prop.cargos);
      ghost var copies := CopiesAfter(world, pos, route, vehiclesForCopying, prop.cargos, acquired.ok);
      ok, train := AcquireTrain(prop.depot, routes[prop.routeIndex], prop.cargos);
      if ok {
        ghost var before := routes;
        ok := PlaceTrain(prop, train, pos + |acquired.actions|, routes, copies, world.created(pos));
        ghost var placed := Place(world, pos + |acquired.actions|, before, copies, prop, world.created(pos));
        AppendAssoc(old(log), acquired.actions, placed.actions);
      }
    }

    /**
     * One pass of the rebuild loop, seen from the loop: the chain of passes
     * that started at log position `|log0|` grows by this pass.
     */
    method RebuildNext(props: seq<VehicleProperties>, done: nat, ghost log0: seq<Action>, ghost routes0: seq<Route>,
                       ghost copies0: map<seq<CargoID>, VehicleID>, ghost passes: seq<Progress>)
      returns (ok: bool, ghost p: Progress)
      requires Valid() && done == |passes| < |props| && props[done].routeIndex < |routes|
      requires Chained(world, railType, |log0|, routes0, copies0, props, passes)
      requires passes != [] ==> passes[|passes| - 1].ok
      requires log == log0 + Flatten(passes)
      requires routes == RoutesAfter(routes0, passes) && vehiclesForCopying == CopiesLeft(copies0, passes)
      requires forall k :: 0 <= k < done ==> Rebuilt(routes, props[k])
      modifies this`log, this`vehiclesForCopying, this`routes
      ensures Valid() && |routes| == |old(routes)| && ok == p.ok
      ensures forall k :: 0 <= k < done ==> Rebuilt(routes, props[k])
      ensures ok ==> Rebuilt(routes, props[done])
      ensures Chained(world, railType, |log0|, routes0, copies0, props, passes + [p])
      ensures log == log0 + Flatten(passes + [p])
      ensures routes == RoutesAfter(routes0, passes + [p])
      ensures vehiclesForCopying == CopiesLeft(copies0, passes + [p])
    {
      ghost var at, before, copies := |log|, routes, vehiclesForCopying;
      p := Reconstruct(world, railType, at, before, copies, props[done]);
      ChainExtend(world, railType, |log0|, routes0, copies0, props, passes, at, before, copies, p);
      ReconstructKeeps(world, railType, at, before, copies, props[done]);
      var train;
      ok, train := ReconstructVehicle(props[done]);
      AppendAssoc(log0, Flatten(passes), p.actions);
      forall k | 0 <= k < done
        ensures Rebuilt(routes, props[k])
      {
        RebuiltKept(before, routes, props[k]);
      }
    }

    /**
     * The rebuild loop of step 4 of `DoCoro`: every recorded train in turn,
     * stopping at the first failure. `done` counts the trains rebuilt and
     * `passes` says how each pass went.
     */
    method ReconstructAll(props: seq<VehicleProperties>) returns (ok: bool, done: nat, ghost passes: seq<Progress>)
      requires Valid()
      requires forall k :: 0 <= k < |props| ==> props[k].routeIndex < |routes|
      modifies this`log, this`vehiclesForCopying, this`routes
      ensures Valid()
      ensures Chained(world, railType, |old(log)|, old(routes), old(vehiclesForCopying), props, passes)
      ensures log == old(log) + Flatten(passes)
      ensures routes == RoutesAfter(old(routes), passes)
      ensures vehiclesForCopying == CopiesLeft(old(vehiclesForCopying), passes)
      ensures done <= |props| && (ok <==> done == |props|)
      ensures |passes| == if ok then |props| else done + 1
      ensures forall k :: 0 <= k < done ==> passes[k].ok
      ensures !ok ==> !passes[done].ok
      ensures forall k :: 0 <= k < done ==> Rebuilt(routes, props[k])
    {
      done, passes := 0, [];
      while done < |props|
        invariant Valid() && |routes| == |old(routes)|
        invariant done <= |props| && |passes| == done
        invariant Chained(world, railType, |old(log)|, old(routes), old(vehiclesForCopying), props, passes)
        invariant forall k :: 0 <= k < done ==> passes[k].ok
        invariant log == old(log) + Flatten(passes)
        invariant routes == RoutesAfter(old(routes), passes)
        invariant vehiclesForCopying == CopiesLeft(old(vehiclesForCopying), passes)
        invariant forall k :: 0 <= k < done ==> Rebuilt(routes, props[k])
      {
        ghost var p;
        ok, p := RebuildNext(props, done, old(log), old(routes), old(vehiclesForCopying), passes);
        passes := passes + [p];
        if !ok {
          return;
        }
        done := done + 1;
      }
      ok := true;
    }

    /** Step 5 of `DoCoro`: start every train of the company. */
    method MassStartAll() returns (ok: bool)
      modifies this`log
      ensures log == old(log) + [Submit(MassStart)]
      ensures ok == world.accepts(|old(log)|)
    {
      ok := Send(MassStart);
    }

    /**
     * Steps 2 and 3 of `DoCoro`: a one-second pause, the sale in every depot, and once
     * it is done another pause and the whole-map conversion.
     */
    method SellAndConvert(depots: seq<TileIndex>, mapMaxX: nat, mapMaxY: nat, freeformEdges: bool)
      returns (ok: bool)
      requires mapMaxX >= 1 && mapMaxY >= 1
      modifies this`log
      ensures var sale := Execute(world, |old(log)| + 1, SellScript(depots));
        var corner := if freeformEdges then 1 else 0;
        var convert := Submit(ConvertRail(mapMaxX - 1, mapMaxY - 1, corner, corner, railType));
        && log == old(log) + [SHORT_WAIT] + sale.actions + (if sale.ok then [SHORT_WAIT, convert] else [])
        && ok == (sale.ok && world.accepts(|old(log)| + 1 + |sale.actions| + 1))
    {
      log := log + [SHORT_WAIT];
      ok := Liquidate(depots);
      if ok {
        log := log + [SHORT_WAIT];
        ok := Convert(mapMaxX, mapMaxY, freeformEdges);
      }
    }

    /**
     * Steps 2 to 5 of `DoCoro`, from the pause before the sale to the end of the
     * coroutine: sell, convert, rebuild every train and start them all,
     * each phase only once the one before succeeded; bail out at the first
     * failure. Either way the upgrader is left marked as not running.
     * `phase` is the log once the sale and the conversion are over and
     * `convertOk` says both succeeded; the rebuild then starts at log
     * position `start` and goes as `passes` say, and `rebuildOk` says every
     * recorded train was rebuilt.
     */
    method FinishUpgrade(up: Upgrader, depots: seq<TileIndex>, props: seq<VehicleProperties>,
                         mapMaxX: nat, mapMaxY: nat, freeformEdges: bool)
      returns (ok: bool, ghost phase: seq<Action>, ghost convertOk: bool, ghost start: nat,
               ghost passes: seq<Progress>, ghost rebuildOk: bool)
      requires Valid() && mapMaxX >= 1 && mapMaxY >= 1
      requires forall k :: 0 <= k < |props| ==> props[k].routeIndex < |routes|
      modifies this`log, this`vehiclesForCopying, this`routes, up`currentCompany
      ensures up.currentCompany == COMPANY_SPECTATOR
      ensures Valid()
      ensures var sale := Execute(world, |old(log)| + 1, SellScript(depots));
        var corner := if freeformEdges then 1 else 0;
        var convert := Submit(ConvertRail(mapMaxX - 1, mapMaxY - 1, corner, corner, railType));
        && phase == old(log) + [SHORT_WAIT] + sale.actions + (if sale.ok then [SHORT_WAIT, convert] else [])
        && convertOk == (sale.ok && world.accepts(|old(log)| + 1 + |sale.actions| + 1))
      ensures start == |phase| + 1
      ensures convertOk ==> log == phase + [SHORT_WAIT] + Flatten(passes) + (if rebuildOk then [Submit(MassStart)] else [])
      ensures !convertOk ==> log == phase && passes == [] && !rebuildOk
      ensures Chained(world, railType, start, old(routes), old(vehiclesForCopying), props, passes)
      ensures rebuildOk <==> convertOk && |passes| == |props| && forall k :: 0 <= k < |passes| ==> passes[k].ok
      ensures routes == RoutesAfter(old(routes), passes)
      ensures vehiclesForCopying == CopiesLeft(old(vehiclesForCopying), passes)
      ensures rebuildOk ==> forall k :: 0 <= k < |props| ==> Rebuilt(routes, props[k])
      ensures ok <==> rebuildOk && world.accepts(|log| - 1)
    {
      ok := SellAndConvert(depots, mapMaxX, mapMaxY, freeformEdges);
      phase, convertOk, start, passes, rebuildOk := log, ok, |log| + 1, [], false;
      if ok {
        log := log + [SHORT_WAIT];
        var done;
        ok, done, passes := ReconstructAll(props);
        rebuildOk := ok;
      }
      if ok {
        ok := MassStartAll();
      }
      if ok {
        up.Complete();
      } else {
        up.BailOut();
      }
    }
  }
}
