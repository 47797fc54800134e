/**
 * The world the last steps of the upgrade talk to, and the pure meaning of
 * the command sequences they issue.
 *
 * Every command the coroutine submits is answered by the game. The model reads
 * the answer, and every other observation of the game, from a `World`
 * indexed by the length of the action log at the moment the coroutine looks:
 * the coroutine is deterministic given those answers.
 */
module Scripts {
  import opened Types
  import opened Commands
  import opened TrainUnits

  /** What the game answers and shows to the coroutine while it rebuilds. */
  datatype World = World(
    /** Whether the command submitted at log position `k` succeeds. */
    accepts: int -> bool,
    /** The vehicle a build or clone command at position `k` created (`_new_vehicle_id`). */
    created: int -> VehicleID,
    /** The first vehicle of the chain the unit just built belongs to, seen at position `k`. */
    headOf: int -> VehicleID,
    /** The last vehicle of the new head's chain, seen at position `k`. */
    lastOf: int -> VehicleID,
    /** The number of orders of the new train, seen at position `k`. */
    numOrders: int -> nat,
    /** The order list of the new train, seen at position `k`. */
    trainOrders: int -> seq<Order>,
    /** `cur_real_order_index` of the new train, seen at position `k`. */
    curRealOrder: int -> nat,
    /** The rail type of the depot tile after the conversion. */
    depotRailType: int -> RailType,
    /** The depot standing on a depot tile. */
    depotIndex: int -> DepotID,
    /** The engine catalog and rail compatibility the unit selector reads. */
    catalog: seq<Engine>,
    hasPowerOnRail: (RailType, RailType) -> bool)

  /** A successful build or clone creates a real vehicle. */
  ghost predicate WorldValid(w: World) {
    forall k :: w.created(k) != INVALID_VEHICLE
  }

  /** The outcome of running a script: the actions actually taken, and whether all succeeded. */
  datatype Run = Run(actions: seq<Action>, ok: bool)

  /**
   * Running `script` from log position `pos`: every action is taken in
   * turn, until a submitted command is refused; the coroutine bails out right
   * after a refusal.
   */
  function Execute(w: World, pos: nat, script: seq<Action>): (r: Run)
    decreases script
  {
    if script == [] then Run([], true)
    else if script[0].Submit? && !w.accepts(pos) then Run([script[0]], false)
    else
      var rest := Execute(w, pos + 1, script[1..]);
      Run([script[0]] + rest.actions, rest.ok)
  }

  /**
   * The actions taken are a prefix of the script: all of it when the run
   * succeeds, and otherwise up to and including a submitted command.
   */
  lemma {:induction false} ExecuteIsPrefix(w: World, pos: nat, script: seq<Action>)
    ensures var r := Execute(w, pos, script);
      && |r.actions| <= |script| && r.actions == script[..|r.actions|]
      && (r.ok ==> r.actions == script)
      && (!r.ok ==> r.actions != [] && r.actions[|r.actions| - 1].Submit?)
    decreases script
  {
    if script != [] && !(script[0].Submit? && !w.accepts(pos)) {
      ExecuteIsPrefix(w, pos + 1, script[1..]);
    }
  }

  /** Every command among the first `n` actions of `script`, run from `pos`, is accepted. */
  ghost predicate AcceptedBefore(w: World, pos: nat, script: seq<Action>, n: nat)
    requires n <= |script|
  {
    forall i :: 0 <= i < n && script[i].Submit? ==> w.accepts(pos + i)
  }

  lemma AcceptedShift(w: World, pos: nat, script: seq<Action>, n: nat)
    requires 0 < n <= |script|
    ensures AcceptedBefore(w, pos, script, n) <==>
      (script[0].Submit? ==> w.accepts(pos)) && AcceptedBefore(w, pos + 1, script[1..], n - 1)
  {
    if (script[0].Submit? ==> w.accepts(pos)) && AcceptedBefore(w, pos + 1, script[1..], n - 1) {
      forall i | 0 < i < n && script[i].Submit? ensures w.accepts(pos + i) {
        assert script[1..][i - 1] == script[i];
      }
    }
  }

  /**
   * A run stops exactly at its first refused submission: it succeeds when
   * every command of the script is accepted, and otherwise its last action
   * is the first refused command.
   */
  lemma {:induction false} ExecuteStopsAtFirstRefusal(w: World, pos: nat, script: seq<Action>)
    ensures Execute(w, pos, script).ok <==> AcceptedBefore(w, pos, script, |script|)
    ensures !Execute(w, pos, script).ok ==> 0 < |Execute(w, pos, script).actions| <= |script|
    ensures !Execute(w, pos, script).ok ==>
      var n := |Execute(w, pos, script).actions|;
      AcceptedBefore(w, pos, script, n - 1) && !w.accepts(pos + n - 1)
    decreases script
  {
    if script == [] {
    } else if script[0].Submit? && !w.accepts(pos) {
      assert Execute(w, pos, script) == Run([script[0]], false);
      assert !AcceptedBefore(w, pos, script, |script|) by {
        assert script[0].Submit? && !w.accepts(pos + 0);
      }
    } else {
      var rest := Execute(w, pos + 1, script[1..]);
      assert Execute(w, pos, script) == Run([script[0]] + rest.actions, rest.ok);
      ExecuteStopsAtFirstRefusal(w, pos + 1, script[1..]);
      AcceptedShift(w, pos, script, |script|);
      if !rest.ok {
        AcceptedShift(w, pos, script, |rest.actions|);
      }
    }
  }

  /** Running two scripts in a row: the second runs only if the first succeeded. */
  lemma {:induction false} ExecuteAppend(w: World, pos: nat, a: seq<Action>, b: seq<Action>)
    ensures Execute(w, pos, a + b) ==
      (var ra := Execute(w, pos, a);
       if ra.ok then
         var rb := Execute(w, pos + |a|, b);
         Run(a + rb.actions, rb.ok)
       else ra)
    decreases a
  {
    if a == [] {
      assert a + b == b;
    } else {
      assert (a + b)[0] == a[0];
      assert (a + b)[1..] == a[1..] + b;
      ExecuteAppend(w, pos + 1, a[1..], b);
    }
  }

  /** All of a successful prefix, then one more action that runs through. */
  lemma ExecuteExtend(w: World, pos: nat, a: seq<Action>, x: Action)
    requires Execute(w, pos, a).ok
    requires x.Submit? ==> w.accepts(pos + |a|)
    ensures Execute(w, pos, a + [x]) == Run(a + [x], true)
  {
    ExecuteAppend(w, pos, a, [x]);
  }

  /** A successful prefix, then a refused submission. */
  lemma ExecuteRefused(w: World, pos: nat, a: seq<Action>, c: Command, rest: seq<Action>)
    requires Execute(w, pos, a).ok
    requires !w.accepts(pos + |a|)
    ensures Execute(w, pos, a + [Submit(c)] + rest) == Run(a + [Submit(c)], false)
  {
    ExecuteAppend(w, pos, a, [Submit(c)] + rest);
    assert a + [Submit(c)] + rest == a + ([Submit(c)] + rest);
  }

  /** A successful prefix followed by a refused command, inside a longer script, ends the run there. */
  lemma ExecutePrefixRefused(w: World, pos: nat, a: seq<Action>, c: Command, full: seq<Action>)
    requires Execute(w, pos, a).ok
    requires !w.accepts(pos + |a|)
    requires a + [Submit(c)] <= full
    ensures Execute(w, pos, full) == Run(a + [Submit(c)], false)
  {
    var head := a + [Submit(c)];
    var rest := full[|head|..];
    assert full[..|head|] == head;
    assert full == full[..|head|] + rest;
    ExecuteRefused(w, pos, a, c, rest);
  }

  // ---------------------------------------------------------------------
  // The liquidation script: sell every depot, a second's wait after each.

  function SellScript(depots: seq<TileIndex>): seq<Action> {
    if depots == [] then []
    else SellScript(depots[..|depots| - 1]) + [Submit(SellAllInDepot(depots[|depots| - 1])), SHORT_WAIT]
  }

  lemma {:induction false} SellScriptPrefix(depots: seq<TileIndex>, i: nat, j: nat)
    requires i <= j <= |depots|
    ensures SellScript(depots[..i]) <= SellScript(depots[..j])
    decreases j
  {
    if i < j {
      SellScriptPrefix(depots, i, j - 1);
      assert depots[..j][..j - 1] == depots[..j - 1];
    }
  }

  /** Selling one more depot appends its sale and a second's wait. */
  lemma SellScriptStep(depots: seq<TileIndex>, i: nat)
    requires i < |depots|
    ensures SellScript(depots[..i + 1]) == SellScript(depots[..i]) + [Submit(SellAllInDepot(depots[i])), SHORT_WAIT]
  {
    assert depots[..i + 1][..i] == depots[..i];
  }

  /** A refused sale ends the liquidation script right there. */
  lemma SellRefused(w: World, pos: nat, depots: seq<TileIndex>, i: nat)
    requires i < |depots|
    requires Execute(w, pos, SellScript(depots[..i])).ok
    requires !w.accepts(pos + |SellScript(depots[..i])|)
    ensures Execute(w, pos, SellScript(depots)) == Run(SellScript(depots[..i]) + [Submit(SellAllInDepot(depots[i]))], false)
  {
    SellScriptStep(depots, i);
    SellScriptPrefix(depots, i + 1, |depots|);
    assert depots[..|depots|] == depots;
    ExecutePrefixRefused(w, pos, SellScript(depots[..i]), SellAllInDepot(depots[i]), SellScript(depots));
  }

  /** An accepted sale keeps the liquidation script running. */
  lemma SellAccepted(w: World, pos: nat, depots: seq<TileIndex>, i: nat)
    requires i < |depots|
    requires Execute(w, pos, SellScript(depots[..i])).ok
    requires w.accepts(pos + |SellScript(depots[..i])|)
    ensures Execute(w, pos, SellScript(depots[..i + 1])) == Run(SellScript(depots[..i + 1]), true)
  {
    SellScriptStep(depots, i);
    var a := SellScript(depots[..i]);
    ExecuteExtend(w, pos, a, Submit(SellAllInDepot(depots[i])));
    ExecuteExtend(w, pos, a + [Submit(SellAllInDepot(depots[i]))], SHORT_WAIT);
    assert a + [Submit(SellAllInDepot(depots[i]))] + [SHORT_WAIT] == SellScript(depots[..i + 1]);
  }

  // ---------------------------------------------------------------------
  // The order replay: delete the orders from the last one down to index 0,
  // then insert the captured orders at 0, 1, ... with a tick after each.

  /** Deletions of the orders at indices `hi - 1` down to `lo`. */
  function DeleteRange(depot: TileIndex, v: VehicleID, hi: nat, lo: nat): seq<Action>
    requires lo <= hi
    decreases hi - lo
  {
    if hi == lo then [] else [Submit(DeleteOrder(depot, v, hi - 1))] + DeleteRange(depot, v, hi - 1, lo)
  }

  lemma {:induction false} DeleteRangeExtend(depot: TileIndex, v: VehicleID, hi: nat, lo: nat)
    requires 0 < lo <= hi
    ensures DeleteRange(depot, v, hi, lo - 1) == DeleteRange(depot, v, hi, lo) + [Submit(DeleteOrder(depot, v, lo - 1))]
    decreases hi - lo
  {
    if hi > lo {
      DeleteRangeExtend(depot, v, hi - 1, lo);
    }
  }

  lemma {:induction false} DeleteRangePrefix(depot: TileIndex, v: VehicleID, hi: nat, lo: nat, lo': nat)
    requires lo' <= lo <= hi
    ensures DeleteRange(depot, v, hi, lo) <= DeleteRange(depot, v, hi, lo')
    decreases lo - lo'
  {
    if lo' < lo {
      DeleteRangeExtend(depot, v, hi, lo);
      DeleteRangePrefix(depot, v, hi, lo - 1, lo');
    }
  }

  /** Insertions of the first `k` captured orders, each followed by a tick. */
  function InsertScript(depot: TileIndex, v: VehicleID, target: seq<Order>, k: nat): seq<Action>
    requires k <= |target|
  {
    if k == 0 then []
    else InsertScript(depot, v, target, k - 1) + [Submit(InsertOrder(depot, v, k - 1, target[k - 1])), WaitTick]
  }

  lemma {:induction false} InsertScriptPrefix(depot: TileIndex, v: VehicleID, target: seq<Order>, i: nat, k: nat)
    requires i <= k <= |target|
    ensures InsertScript(depot, v, target, i) <= InsertScript(depot, v, target, k)
    decreases k
  {
    if i < k {
      InsertScriptPrefix(depot, v, target, i, k - 1);
    }
  }

  /** The whole replay over a train that has `n` orders. */
  function ReplayScript(depot: TileIndex, v: VehicleID, n: nat, target: seq<Order>): seq<Action> {
    DeleteRange(depot, v, n, 0) + InsertScript(depot, v, target, |target|)
  }

  /** A replay runs the deletions, then, if they all went through, the insertions. */
  lemma ReplayRun(w: World, pos: nat, depot: TileIndex, v: VehicleID, n: nat, target: seq<Order>)
    ensures var rd := Execute(w, pos, DeleteRange(depot, v, n, 0));
      Execute(w, pos, ReplayScript(depot, v, n, target)) ==
        if rd.ok then
          var ri := Execute(w, pos + |rd.actions|, InsertScript(depot, v, target, |target|));
          Run(rd.actions + ri.actions, ri.ok)
        else rd
  {
    ExecuteAppend(w, pos, DeleteRange(depot, v, n, 0), InsertScript(depot, v, target, |target|));
    ExecuteIsPrefix(w, pos, DeleteRange(depot, v, n, 0));
  }

  /** The commands of an action list. */
  function Submitted(actions: seq<Action>): seq<Command> {
    if actions == [] then []
    else
      var last := actions[|actions| - 1];
      Submitted(actions[..|actions| - 1]) + (if last.Submit? then [last.cmd] else [])
  }

  lemma {:induction false} SubmittedAppend(a: seq<Action>, b: seq<Action>)
    ensures Submitted(a + b) == Submitted(a) + Submitted(b)
    decreases |b|
  {
    if b == [] {
      assert a + b == a;
    } else {
      var n := |b| - 1;
      assert (a + b)[..|a + b| - 1] == a + b[..n];
      SubmittedAppend(a, b[..n]);
    }
  }

  /**
   * What a successful order command does to the vehicle's order list:
   * `CMD_DELETE_ORDER` removes the order at the index, `CMD_INSERT_ORDER`
   * inserts before it; other commands leave the list alone.
   */
  function ApplyOrderCommand(orders: seq<Order>, c: Command): seq<Order> {
    match c
    case DeleteOrder(_, _, i) => if i < |orders| then orders[..i] + orders[i + 1..] else orders
    case InsertOrder(_, _, i, o) => if i <= |orders| then orders[..i] + [o] + orders[i..] else orders
    case _ => orders
  }

  function ApplyAll(orders: seq<Order>, cs: seq<Command>): seq<Order>
    decreases |cs|
  {
    if cs == [] then orders else ApplyAll(ApplyOrderCommand(orders, cs[0]), cs[1..])
  }

  lemma {:induction false} ApplyAllAppend(orders: seq<Order>, a: seq<Command>, b: seq<Command>)
    ensures ApplyAll(orders, a + b) == ApplyAll(ApplyAll(orders, a), b)
    decreases a
  {
    if a == [] {
      assert a + b == b;
    } else {
      assert (a + b)[0] == a[0] && (a + b)[1..] == a[1..] + b;
      ApplyAllAppend(ApplyOrderCommand(orders, a[0]), a[1..], b);
    }
  }

  lemma SubmittedOne(c: Command)
    ensures Submitted([Submit(c)]) == [c]
  {
    assert [Submit(c)][..0] == [];
  }

  lemma SubmittedThenTick(c: Command)
    ensures Submitted([Submit(c), WaitTick]) == [c]
  {
    assert [Submit(c), WaitTick][..1] == [Submit(c)];
    SubmittedOne(c);
  }

  lemma ApplyOne(orders: seq<Order>, c: Command)
    ensures ApplyAll(orders, [c]) == ApplyOrderCommand(orders, c)
  {
    assert [c][1..] == [];
  }

  lemma DeleteLast(orders: seq<Order>, c: Command)
    requires |orders| > 0 && c.DeleteOrder? && c.index == |orders| - 1
    ensures ApplyOrderCommand(orders, c) == orders[..|orders| - 1]
  {
    assert orders[|orders|..] == [];
  }

  /** Deleting from the last index down to `lo` leaves the first `lo` orders. */
  lemma {:induction false} DeletesTruncate(orders: seq<Order>, depot: TileIndex, v: VehicleID, lo: nat)
    requires lo <= |orders|
    ensures ApplyAll(orders, Submitted(DeleteRange(depot, v, |orders|, lo))) == orders[..lo]
    decreases |orders| - lo
  {
    if |orders| == lo {
      assert orders[..lo] == orders;
    } else {
      var n := |orders|;
      var cmd := DeleteOrder(depot, v, n - 1);
      var rest := DeleteRange(depot, v, n - 1, lo);
      var shorter := orders[..n - 1];
      var cs := Submitted(DeleteRange(depot, v, n, lo));
      assert cs == [cmd] + Submitted(rest) by {
        SubmittedAppend([Submit(cmd)], rest);
        SubmittedOne(cmd);
      }
      assert cs[0] == cmd && cs[1..] == Submitted(rest);
      DeleteLast(orders, cmd);
      assert ApplyAll(orders, cs) == ApplyAll(shorter, Submitted(rest));
      DeletesTruncate(shorter, depot, v, lo);
      assert shorter[..lo] == orders[..lo];
    }
  }

  lemma InsertLast(orders: seq<Order>, c: Command)
    requires c.InsertOrder? && c.index == |orders|
    ensures ApplyOrderCommand(orders, c) == orders + [c.order]
  {
    assert orders[..|orders|] == orders && orders[|orders|..] == [];
  }

  lemma InsertScriptSubmitted(depot: TileIndex, v: VehicleID, target: seq<Order>, k: nat)
    requires 0 < k <= |target|
    ensures Submitted(InsertScript(depot, v, target, k))
      == Submitted(InsertScript(depot, v, target, k - 1)) + [InsertOrder(depot, v, k - 1, target[k - 1])]
  {
    var cmd := InsertOrder(depot, v, k - 1, target[k - 1]);
    SubmittedAppend(InsertScript(depot, v, target, k - 1), [Submit(cmd), WaitTick]);
    SubmittedThenTick(cmd);
  }

  lemma ApplyThenOne(orders: seq<Order>, cs: seq<Command>, c: Command)
    ensures ApplyAll(orders, cs + [c]) == ApplyOrderCommand(ApplyAll(orders, cs), c)
  {
    ApplyAllAppend(orders, cs, [c]);
    ApplyOne(ApplyAll(orders, cs), c);
  }

  /** Inserting the first `k` captured orders into an empty list rebuilds them. */
  lemma {:induction false} InsertsRebuild(depot: TileIndex, v: VehicleID, target: seq<Order>, k: nat)
    requires k <= |target|
    ensures ApplyAll([], Submitted(InsertScript(depot, v, target, k))) == target[..k]
  {
    if k > 0 {
      var cmd := InsertOrder(depot, v, k - 1, target[k - 1]);
      InsertScriptSubmitted(depot, v, target, k);
      ApplyThenOne([], Submitted(InsertScript(depot, v, target, k - 1)), cmd);
      InsertsRebuild(depot, v, target, k - 1);
      InsertLast(target[..k - 1], cmd);
      assert target[..k - 1] + [target[k - 1]] == target[..k];
    }
  }

  /** The replay turns any order list into the captured one. */
  lemma ReplayRestores(orders: seq<Order>, depot: TileIndex, v: VehicleID, target: seq<Order>)
    ensures ApplyAll(orders, Submitted(ReplayScript(depot, v, |orders|, target))) == target
  {
    SubmittedAppend(DeleteRange(depot, v, |orders|, 0), InsertScript(depot, v, target, |target|));
    ApplyAllAppend(orders, Submitted(DeleteRange(depot, v, |orders|, 0)),
      Submitted(InsertScript(depot, v, target, |target|)));
    DeletesTruncate(orders, depot, v, 0);
    assert orders[..0] == [];
    InsertsRebuild(depot, v, target, |target|);
    assert target[..|target|] == target;
  }

  // ---------------------------------------------------------------------
  // Skip to the order after the depot's own goto order.

  predicate IsDepotOrder(o: Order, depot: DepotID) {
    o.kind == GotoDepot && o.destination == depot
  }

  /** The index of the first goto order to `depot`, or `|orders|` when there is none. */
  function DepotOrderIndex(orders: seq<Order>, depot: DepotID): (k: nat)
    ensures k <= |orders|
    ensures k < |orders| ==> IsDepotOrder(orders[k], depot)
    ensures forall j :: 0 <= j < k ==> !IsDepotOrder(orders[j], depot)
  {
    if orders == [] then 0
    else if IsDepotOrder(orders[0], depot) then 0
    else 1 + DepotOrderIndex(orders[1..], depot)
  }

  /** The order a new train is skipped to: the one after its depot's goto order, wrapping round. */
  function SkipTarget(orders: seq<Order>, depot: DepotID): (t: Option<nat>)
    ensures t.Some? ==> t.value < |orders|
  {
    var k := DepotOrderIndex(orders, depot);
    if k < |orders| then Some((k + 1) % |orders|) else None
  }

  /**
   * There is a target exactly when the depot is in the order list; the
   * order just before the target, cyclically, is then the depot's first
   * goto order.
   */
  lemma SkipTargetFollowsDepotOrder(orders: seq<Order>, depot: DepotID)
    ensures SkipTarget(orders, depot).None? <==> forall j :: 0 <= j < |orders| ==> !IsDepotOrder(orders[j], depot)
    ensures SkipTarget(orders, depot).Some? ==>
      var t := SkipTarget(orders, depot).value;
      var k := if t == 0 then |orders| - 1 else t - 1;
      IsDepotOrder(orders[k], depot) && forall j :: 0 <= j < k ==> !IsDepotOrder(orders[j], depot)
  {
    var k := DepotOrderIndex(orders, depot);
    if k < |orders| {
      NextIndexWraps(k, |orders|);
    }
  }

  /** `(k + 1) % n` for an index `k` of an `n`-element list. */
  lemma NextIndexWraps(k: nat, n: nat)
    requires k < n
    ensures (k + 1) % n == if k + 1 == n then 0 else k + 1
  {
  }

  /** The scan for the depot's goto order before the skip in step 4 of `DoCoro`. */
  method FindDepotOrder(orders: seq<Order>, depot: DepotID) returns (k: nat)
    ensures k == DepotOrderIndex(orders, depot)
  {
    k := 0;
    while k < |orders|
      invariant k <= |orders|
      invariant forall j :: 0 <= j < k ==> !IsDepotOrder(orders[j], depot)
    {
      if orders[k].kind == GotoDepot && orders[k].destination == depot {
        break;
      }
      k := k + 1;
    }
    FirstDepotOrderUnique(orders, depot, k);
  }

  /** Only one index is the first goto order to the depot. */
  lemma {:induction false} FirstDepotOrderUnique(orders: seq<Order>, depot: DepotID, k: nat)
    requires k <= |orders|
    requires k < |orders| ==> IsDepotOrder(orders[k], depot)
    requires forall j :: 0 <= j < k ==> !IsDepotOrder(orders[j], depot)
    ensures k == DepotOrderIndex(orders, depot)
  {
    if orders != [] && k > 0 {
      FirstDepotOrderUnique(orders[1..], depot, k - 1);
    }
  }
}
