/**
 * The entry points of the automatic rail upgrade: parsing the requested
 * rail type, the start gate, bail-out, completion and the per-tick pump.
 *
 * The globals `rail_type` and `current_company` live in an `Upgrader`
 * object together with the scheduler. The world's state at the moment of a
 * call (the local company, the vehicle pool) comes in as parameters.
 */
module AutoUpgrade {
  import opened Types
  import opened Coro

  /** `ParseRailType`: the four names the command accepts. */
  function ParseRailType(s: string): (r: RailType)
    ensures r == RAILTYPE_RAIL <==> s == "rail"
    ensures r == RAILTYPE_ELECTRIC <==> s == "electric"
    ensures r == RAILTYPE_MONO <==> s == "monorail"
    ensures r == RAILTYPE_MAGLEV <==> s == "maglev"
    ensures r == INVALID_RAILTYPE <==> s !in {"rail", "electric", "monorail", "maglev"}
  {
    if s == "rail" then RAILTYPE_RAIL
    else if s == "electric" then RAILTYPE_ELECTRIC
    else if s == "monorail" then RAILTYPE_MONO
    else if s == "maglev" then RAILTYPE_MAGLEV
    else INVALID_RAILTYPE
  }

  /** What `Start` looks at of each vehicle in the pool. */
  datatype VehicleInfo = VehicleInfo(index: VehicleID, isTrain: bool, isPrimary: bool, owner: CompanyID)

  predicate IsOwnTrain(v: VehicleInfo, company: CompanyID) {
    v.isTrain && v.isPrimary && v.owner == company
  }

  /** The scan of the vehicle pool for a primary train of the company. */
  method HasOwnTrain(vehicles: seq<VehicleInfo>, company: CompanyID) returns (found: bool)
    ensures found <==> exists i :: 0 <= i < |vehicles| && IsOwnTrain(vehicles[i], company)
  {
    found := false;
    var i := 0;
    while i < |vehicles|
      invariant i <= |vehicles|
      invariant !found
      invariant forall j :: 0 <= j < i ==> !IsOwnTrain(vehicles[j], company)
    {
      var v := vehicles[i];
      if v.isTrain && v.isPrimary && v.owner == company {
        found := true;
        break;
      }
      i := i + 1;
    }
  }

  /** The suspension point of the coroutine's first `WaitTick`, reached as soon as it starts. */
  const FIRST_TICK: ResumePoint := 0

  class Upgrader {
    /** The rail type to upgrade to. */
    var railType: RailType
    /** The company being upgraded; `COMPANY_SPECTATOR` when no upgrade runs. */
    var currentCompany: CompanyID
    const sched: Scheduler

    constructor ()
      ensures currentCompany == COMPANY_SPECTATOR && railType == RAILTYPE_RAIL
      ensures fresh(sched) && sched.State() == INITIAL_STATE
    {
      railType := RAILTYPE_RAIL;
      currentCompany := COMPANY_SPECTATOR;
      sched := new Scheduler();
    }

    /**
     * `Start`: refuse a spectator, an unknown rail type, or a company
     * without trains; otherwise take the company, destroy any previous
     * task and start a new one, which runs up to its first tick wait.
     * Note that the rail type is stored before it is validated.
     */
    method Start(typeStr: string, localCompany: CompanyID, vehicles: seq<VehicleInfo>) returns (ok: bool)
      modifies this, sched
      ensures ok <==> localCompany != COMPANY_SPECTATOR
                      && ParseRailType(typeStr) != INVALID_RAILTYPE
                      && exists i :: 0 <= i < |vehicles| && IsOwnTrain(vehicles[i], localCompany)
      ensures railType == if localCompany == COMPANY_SPECTATOR then old(railType) else ParseRailType(typeStr)
      ensures !ok ==> currentCompany == old(currentCompany) && sched.State() == old(sched.State())
      ensures ok ==> currentCompany == localCompany
      ensures ok ==> sched.State() == SuspendOnTick(Reset(old(sched.State())), FIRST_TICK)
    {
      if localCompany == COMPANY_SPECTATOR {
        return false;
      }
      railType := ParseRailType(typeStr);
      if railType == INVALID_RAILTYPE {
        return false;
      }
      var hasTrains := HasOwnTrain(vehicles, localCompany);
      if !hasTrains {
        return false;
      }
      currentCompany := localCompany;
      sched.ResetCoroState();
      sched.WaitTickSuspend(FIRST_TICK);
      ok := true;
    }

    /** `BailOut`: mark the upgrade as no longer running. The suspended task is not destroyed. */
    method BailOut()
      modifies this`currentCompany
      ensures currentCompany == COMPANY_SPECTATOR
    {
      currentCompany := COMPANY_SPECTATOR;
    }

    /** The last statement of the coroutine: the upgrade is complete. */
    method Complete()
      modifies this`currentCompany
      ensures currentCompany == COMPANY_SPECTATOR
    {
      currentCompany := COMPANY_SPECTATOR;
    }

    /**
     * `OnTick`: while an upgrade runs, bail out if the player switched
     * company, otherwise pump the scheduler. Returns the suspension point to
     * continue from, if the pump resumed the coroutine.
     */
    method OnTick(localCompany: CompanyID) returns (resumed: Option<ResumePoint>)
      modifies this`currentCompany, sched
      ensures old(currentCompany) == COMPANY_SPECTATOR ==>
        resumed.None? && currentCompany == COMPANY_SPECTATOR && sched.State() == old(sched.State())
      ensures old(currentCompany) != COMPANY_SPECTATOR && localCompany != old(currentCompany) ==>
        resumed.None? && currentCompany == COMPANY_SPECTATOR && sched.State() == old(sched.State())
      ensures old(currentCompany) != COMPANY_SPECTATOR && localCompany == old(currentCompany) ==>
        currentCompany == old(currentCompany)
        && sched.State() == Handle(old(sched.State())).state
        && resumed == Handle(old(sched.State())).resumed
    {
      resumed := None;
      if currentCompany != COMPANY_SPECTATOR {
        if localCompany != currentCompany {
          BailOut();
          return;
        }
        var handled;
        handled, resumed := sched.HandleCoro();
      }
    }
  }
}
