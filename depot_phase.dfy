/**
 * Step 1 of the upgrade: getting every train of the company into a depot.
 *
 * The coroutine first issues a mass "go to depot" (whose failure it ignores),
 * then repeatedly sends each train that is neither stopped in a depot nor
 * already heading for one, until a whole pass has no refusals, and finally
 * polls until every train is stopped in a depot.
 *
 * The loops wait for the game between iterations, so what they see changes
 * from pass to pass. The model takes the observations as inputs: one
 * `Visit` per train and pass for the dispatch loop, one "stopped" flag per
 * train and poll for the waiting loop. Both loops are unbounded in the game;
 * here they run over the finite sequence of passes given, and report
 * whether they finished within it.
 */
module DepotPhase {
  import opened Types
  import opened Commands
  import opened AutoUpgrade

  /** The company's primary trains, in pool order. */
  function OwnTrains(pool: seq<VehicleInfo>, company: CompanyID): (ids: seq<VehicleID>)
    ensures |ids| <= |pool|
  {
    if pool == [] then []
    else
      var n := |pool| - 1;
      OwnTrains(pool[..n], company) + (if IsOwnTrain(pool[n], company) then [pool[n].index] else [])
  }

  /** `OwnTrains` lists exactly the ids of the company's primary trains. */
  lemma {:induction false} OwnTrainsExact(pool: seq<VehicleInfo>, company: CompanyID)
    ensures forall id :: id in OwnTrains(pool, company) <==>
      exists i :: 0 <= i < |pool| && IsOwnTrain(pool[i], company) && pool[i].index == id
  {
    if pool != [] {
      var n := |pool| - 1;
      OwnTrainsExact(pool[..n], company);
      forall id | id in OwnTrains(pool, company)
        ensures exists i :: 0 <= i < |pool| && IsOwnTrain(pool[i], company) && pool[i].index == id
      {
        if id in OwnTrains(pool[..n], company) {
          var i :| 0 <= i < n && IsOwnTrain(pool[..n][i], company) && pool[..n][i].index == id;
          assert pool[i] == pool[..n][i];
        }
      }
      forall id, i | 0 <= i < |pool| && IsOwnTrain(pool[i], company) && pool[i].index == id
        ensures id in OwnTrains(pool, company)
      {
        if i < n {
          assert pool[..n][i] == pool[i];
        }
      }
    }
  }

  /** The scan that collects `my_vehicles`. */
  method CollectOwnTrains(pool: seq<VehicleInfo>, company: CompanyID) returns (ids: seq<VehicleID>)
    ensures ids == OwnTrains(pool, company)
  {
    ids := [];
    var i := 0;
    while i < |pool|
      invariant i <= |pool|
      invariant ids == OwnTrains(pool[..i], company)
    {
      assert pool[..i + 1][..i] == pool[..i];
      var v := pool[i];
      if v.isTrain && v.isPrimary && v.owner == company {
        ids := ids + [v.index];
      }
      i := i + 1;
    }
    assert pool[..|pool|] == pool;
  }

  /**
   * What one pass of the dispatch loop sees of one train: whether it is
   * stopped in a depot, whether its current order is "go to depot", and
   * whether a send-to-depot command for it would be accepted.
   */
  datatype Visit = Visit(stoppedInDepot: bool, goingToDepot: bool, accepted: bool)

  /** A train the pass sends to a depot by hand. */
  predicate NeedsDispatch(v: Visit) {
    !v.stoppedInDepot && !v.goingToDepot
  }

  /** A train the pass tried to send and could not. */
  predicate Refused(v: Visit) {
    NeedsDispatch(v) && !v.accepted
  }

  predicate IsSubmit(a: Action) {
    a.Submit?
  }

  /** The actions of one pass over `ids`, train by train. */
  function PassActions(ids: seq<VehicleID>, visits: seq<Visit>): seq<Action>
    requires |ids| == |visits|
  {
    if ids == [] then []
    else
      var n := |ids| - 1;
      PassActions(ids[..n], visits[..n])
      + (if !NeedsDispatch(visits[n]) then []
         else if visits[n].accepted then [Submit(SendToDepot(ids[n])), SHORT_WAIT]
         else [Submit(SendToDepot(ids[n]))])
  }

  /** `num_failed` of a pass. */
  function PassFailures(visits: seq<Visit>): nat {
    CountWhere(visits, Refused)
  }

  /** One pass of the clean-up loop of step 1 in `DoCoro` (send the remaining trains to depot). */
  method DispatchPass(ids: seq<VehicleID>, visits: seq<Visit>)
    returns (actions: seq<Action>, numFailed: nat, hasSucceeded: bool)
    requires |ids| == |visits|
    ensures actions == PassActions(ids, visits)
    ensures numFailed == PassFailures(visits)
    ensures hasSucceeded <==> exists i :: 0 <= i < |visits| && NeedsDispatch(visits[i]) && visits[i].accepted
  {
    actions, numFailed, hasSucceeded := [], 0, false;
    var i := 0;
    while i < |ids|
      invariant i <= |ids|
      invariant actions == PassActions(ids[..i], visits[..i])
      invariant numFailed == CountWhere(visits[..i], Refused)
      invariant hasSucceeded <==> exists j :: 0 <= j < i && NeedsDispatch(visits[j]) && visits[j].accepted
    {
      assert ids[..i + 1][..i] == ids[..i];
      assert visits[..i + 1][..i] == visits[..i];
      var v := visits[i];
      if !v.stoppedInDepot {
        if !v.goingToDepot {
          if v.accepted {
            hasSucceeded := true;
            actions := actions + [Submit(SendToDepot(ids[i])), SHORT_WAIT];
          } else {
            numFailed := numFailed + 1;
            actions := actions + [Submit(SendToDepot(ids[i]))];
          }
        }
      }
      i := i + 1;
    }
    assert ids[..|ids|] == ids;
    assert visits[..|visits|] == visits;
  }

  /** Every command a pass submits sends a train that was neither in a depot nor heading to one. */
  lemma {:induction false} PassSendsOnlyUnsettled(ids: seq<VehicleID>, visits: seq<Visit>)
    requires |ids| == |visits|
    ensures forall a :: a in PassActions(ids, visits) && a.Submit? ==>
      exists i :: 0 <= i < |ids| && NeedsDispatch(visits[i]) && a.cmd == SendToDepot(ids[i])
  {
    if ids != [] {
      var n := |ids| - 1;
      PassSendsOnlyUnsettled(ids[..n], visits[..n]);
      forall a | a in PassActions(ids, visits) && a.Submit?
        ensures exists i :: 0 <= i < |ids| && NeedsDispatch(visits[i]) && a.cmd == SendToDepot(ids[i])
      {
        if a in PassActions(ids[..n], visits[..n]) {
          var i :| 0 <= i < n && NeedsDispatch(visits[..n][i]) && a.cmd == SendToDepot(ids[..n][i]);
          assert visits[..n][i] == visits[i] && ids[..n][i] == ids[i];
        }
      }
    }
  }

  /** A pass submits one command per train needing dispatch, and nothing else. */
  lemma {:induction false} PassSubmitsOncePerUnsettled(ids: seq<VehicleID>, visits: seq<Visit>)
    requires |ids| == |visits|
    ensures CountWhere(PassActions(ids, visits), IsSubmit) == CountWhere(visits, NeedsDispatch)
  {
    if ids != [] {
      var n := |ids| - 1;
      PassSubmitsOncePerUnsettled(ids[..n], visits[..n]);
      var tail := if !NeedsDispatch(visits[n]) then []
        else if visits[n].accepted then [Submit(SendToDepot(ids[n])), SHORT_WAIT]
        else [Submit(SendToDepot(ids[n]))];
      CountWhereAppend(PassActions(ids[..n], visits[..n]), tail, IsSubmit);
      if tail != [] {
        assert tail[..|tail| - 1] == if |tail| == 2 then [tail[0]] else [];
      }
    }
  }

  /** When every train is stopped in a depot or on its way, a pass does nothing and fails nothing. */
  lemma {:induction false} SettledPassIsIdle(ids: seq<VehicleID>, visits: seq<Visit>)
    requires |ids| == |visits|
    requires forall i :: 0 <= i < |visits| ==> !NeedsDispatch(visits[i])
    ensures PassActions(ids, visits) == []
    ensures PassFailures(visits) == 0
  {
    if ids != [] {
      var n := |ids| - 1;
      SettledPassIsIdle(ids[..n], visits[..n]);
    }
  }

  predicate SameLength(ids: seq<VehicleID>, passes: seq<seq<Visit>>) {
    forall p :: 0 <= p < |passes| ==> |passes[p]| == |ids|
  }

  /** The actions of the retry loop over the given passes: each pass, then a second's wait unless it had no refusals. */
  function RetryActions(ids: seq<VehicleID>, passes: seq<seq<Visit>>): seq<Action>
    requires SameLength(ids, passes)
  {
    if passes == [] then []
    else
      var n := |passes| - 1;
      RetryActions(ids, passes[..n]) + PassActions(ids, passes[n])
      + (if PassFailures(passes[n]) == 0 then [] else [SHORT_WAIT])
  }

  /**
   * The clean-up loop of step 1 in `DoCoro`: repeat passes until one has no refusals.
   * `used` passes were run; `finished` says the loop left through its break.
   */
  method DispatchRetry(ids: seq<VehicleID>, passes: seq<seq<Visit>>)
    returns (actions: seq<Action>, finished: bool, used: nat)
    requires SameLength(ids, passes)
    ensures used <= |passes|
    ensures finished <==> exists p :: 0 <= p < |passes| && PassFailures(passes[p]) == 0
    ensures finished ==> 0 < used && PassFailures(passes[used - 1]) == 0
    ensures !finished ==> used == |passes|
    ensures forall p :: 0 <= p < used && !(finished && p == used - 1) ==> PassFailures(passes[p]) > 0
    ensures actions == RetryActions(ids, passes[..used])
  {
    actions, finished, used := [], false, 0;
    while used < |passes|
      invariant used <= |passes|
      invariant forall p :: 0 <= p < used ==> PassFailures(passes[p]) > 0
      invariant actions == RetryActions(ids, passes[..used])
    {
      assert passes[..used + 1][..used] == passes[..used];
      var passActions, numFailed, hasSucceeded := DispatchPass(ids, passes[used]);
      actions := actions + passActions;
      used := used + 1;
      if numFailed == 0 {
        finished := true;
        return;
      }
      actions := actions + [SHORT_WAIT];
    }
  }

  /** If the trains are already settled, the loop stops after its first pass, having sent nothing. */
  lemma SettledRetryStopsAtOnce(ids: seq<VehicleID>, passes: seq<seq<Visit>>)
    requires SameLength(ids, passes) && passes != []
    requires forall i :: 0 <= i < |passes[0]| ==> !NeedsDispatch(passes[0][i])
    ensures PassFailures(passes[0]) == 0
    ensures RetryActions(ids, passes[..1]) == []
  {
    SettledPassIsIdle(ids, passes[0]);
    assert passes[..1][..0] == [];
  }

  /** The number of trains of a poll that are not yet stopped in a depot. */
  function Remaining(stopped: seq<bool>): nat {
    CountWhere(stopped, (b: bool) => !b)
  }

  /** The count of trains not yet stopped in a depot, in the wait that follows step 1 of `DoCoro`. */
  method CountRemaining(stopped: seq<bool>) returns (n: nat)
    ensures n == Remaining(stopped)
    ensures n == 0 <==> forall i :: 0 <= i < |stopped| ==> stopped[i]
  {
    n := 0;
    var i := 0;
    while i < |stopped|
      invariant i <= |stopped|
      invariant n == CountWhere(stopped[..i], (b: bool) => !b)
    {
      assert stopped[..i + 1][..i] == stopped[..i];
      if !stopped[i] {
        n := n + 1;
      }
      i := i + 1;
    }
    assert stopped[..|stopped|] == stopped;
  }

  /** The value the progress cache holds after the given counts: the last one, or the initial value. */
  function Previous(initial: nat, counts: seq<nat>): nat {
    if counts == [] then initial else counts[|counts| - 1]
  }

  /** The progress messages: a count is reported when it differs from the one before it. */
  function Reports(initial: nat, counts: seq<nat>): seq<nat> {
    if counts == [] then []
    else
      var n := |counts| - 1;
      Reports(initial, counts[..n])
      + (if counts[n] != Previous(initial, counts[..n]) then [counts[n]] else [])
  }

  /** The remaining counts of a sequence of polls. */
  function Counts(polls: seq<seq<bool>>): (cs: seq<nat>)
    ensures |cs| == |polls|
  {
    if polls == [] then [] else Counts(polls[..|polls| - 1]) + [Remaining(polls[|polls| - 1])]
  }

  /**
   * The reports never repeat: the first differs from the number of trains,
   * and each differs from the one before it. Every report is an observed count.
   */
  lemma {:induction false} ReportsOnlyChanges(initial: nat, counts: seq<nat>)
    ensures var r := Reports(initial, counts);
      (r != [] ==> r[0] != initial)
      && (forall k :: 0 < k < |r| ==> r[k] != r[k - 1])
      && (forall x :: x in r ==> x in counts)
    ensures Previous(initial, counts) == if Reports(initial, counts) == [] then initial
      else Reports(initial, counts)[|Reports(initial, counts)| - 1]
  {
    if counts != [] {
      var n := |counts| - 1;
      ReportsOnlyChanges(initial, counts[..n]);
      forall x | x in Reports(initial, counts[..n]) ensures x in counts {
        assert x in counts[..n];
      }
    }
  }

  /**
   * The wait after step 1 of `DoCoro`: poll until no train is left outside a depot,
   * reporting each change of the remaining count and waiting a second
   * between polls.
   */
  method WaitUntilStopped(trainCount: nat, polls: seq<seq<bool>>)
    returns (reports: seq<nat>, actions: seq<Action>, finished: bool, used: nat)
    requires forall p :: 0 <= p < |polls| ==> |polls[p]| == trainCount
    ensures used <= |polls|
    ensures finished <==> exists p :: 0 <= p < |polls| && Remaining(polls[p]) == 0
    ensures finished ==> 0 < used && Remaining(polls[used - 1]) == 0
    ensures !finished ==> used == |polls|
    ensures forall p :: 0 <= p < used && !(finished && p == used - 1) ==> Remaining(polls[p]) > 0
    ensures var waited := if finished then used - 1 else used;
      reports == Reports(trainCount, Counts(polls[..waited]))
      && actions == seq(waited, _ => SHORT_WAIT)
  {
    reports, actions, finished, used := [], [], false, 0;
    var cache := trainCount;
    while used < |polls|
      invariant used <= |polls|
      invariant forall p :: 0 <= p < used ==> Remaining(polls[p]) > 0
      invariant reports == Reports(trainCount, Counts(polls[..used]))
      invariant cache == Previous(trainCount, Counts(polls[..used]))
      invariant actions == seq(used, _ => SHORT_WAIT)
    {
      var remaining := CountRemaining(polls[used]);
      if remaining == 0 {
        finished := true;
        used := used + 1;
        return;
      }
      assert polls[..used + 1][..used] == polls[..used];
      if cache != remaining {
        reports := reports + [remaining];
        cache := remaining;
      }
      actions := actions + [SHORT_WAIT];
      used := used + 1;
    }
  }
}
