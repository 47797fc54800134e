/**
 * The commands the upgrade task submits to the game, and the action log in
 * which the model records them together with the coroutine's waits.
 */
module Commands {
  import opened Types

  datatype Command =
    /** Send every train of the company to a depot. */
    | MassSendToDepot
    /** Send one train to a depot. */
    | SendToDepot(vehicle: VehicleID)
    /** Sell every train standing in the depot. */
    | SellAllInDepot(depot: TileIndex)
    /** Convert the rail in the rectangle between two corners to `railType`. */
    | ConvertRail(fromX: nat, fromY: nat, toX: nat, toY: nat, railType: RailType)
    /** Clone `source` into the depot, sharing (or else copying) its orders. */
    | CloneVehicle(depot: TileIndex, source: VehicleID, shareOrders: bool)
    /** Build one engine or wagon, refitted to `cargo`. */
    | BuildVehicle(depot: TileIndex, engine: EngineID, cargo: CargoID)
    /** Attach `wagon` behind `dest`. */
    | MoveRailVehicle(depot: TileIndex, wagon: VehicleID, dest: VehicleID)
    /** Make `vehicle` share the order list of `source`. */
    | ShareOrders(depot: TileIndex, vehicle: VehicleID, source: VehicleID)
    | DeleteOrder(depot: TileIndex, vehicle: VehicleID, index: nat)
    | InsertOrder(depot: TileIndex, vehicle: VehicleID, index: nat, order: Order)
    | SkipToOrder(depot: TileIndex, vehicle: VehicleID, index: nat)
    /** Start every train of the company. */
    | MassStart

  /** One step of the coroutine: a command submission (and its suspension), or a wait. */
  datatype Action = Submit(cmd: Command) | WaitTick | WaitTicks(ticks: nat)

  /** The one-second wait the coroutine uses between most steps. */
  const SHORT_WAIT: Action := WaitTicks(TICKS_PER_SECOND)
}
