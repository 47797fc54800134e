/**
 * Identifiers and sentinel values shared by the auto-upgrade model.
 *
 * The game uses small unsigned integer ids for vehicles, engines, cargo
 * types, tiles, companies and rail types; the model keeps them as `nat` and
 * spells out the sentinel values the code compares against.
 */
module Types {

  datatype Option<T> = None | Some(value: T)

  type VehicleID = nat
  type EngineID = nat
  type CargoID = nat
  type TileIndex = nat
  type CompanyID = nat
  type RailType = nat
  type DepotID = nat

  /** "no vehicle": the value `Route.first_shared` starts with. */
  const INVALID_VEHICLE: VehicleID := 0xFFFFF
  /** "no engine": what the unit selector returns when nothing qualifies. */
  const INVALID_ENGINE: EngineID := 0xFFFF
  /** "no cargo": marks an engine slot in a composition and an unrefitted engine. */
  const CT_INVALID: CargoID := 0xFF
  /** The pseudo-company of an observer; also "no upgrade running". */
  const COMPANY_SPECTATOR: CompanyID := 255

  const RAILTYPE_RAIL: RailType := 0
  const RAILTYPE_ELECTRIC: RailType := 1
  const RAILTYPE_MONO: RailType := 2
  const RAILTYPE_MAGLEV: RailType := 3
  const INVALID_RAILTYPE: RailType := 0xFF

  /** Number of game ticks the coroutine waits for "one second". */
  const TICKS_PER_SECOND: nat := 30

  /** The kinds of order the planner looks at; everything else is `OtherOrder`. */
  datatype OrderType = GotoDepot | OtherOrder

  /**
   * One order of a vehicle's order list. The game stores orders packed into
   * 32 bits; the model keeps the two fields the planner inspects and treats
   * packing and unpacking as the identity.
   */
  datatype Order = Order(kind: OrderType, destination: nat)

  /** The number of elements of `s` satisfying `p`. */
  function CountWhere<T>(s: seq<T>, p: T -> bool): (n: nat)
    ensures n <= |s|
    ensures n == 0 <==> forall i :: 0 <= i < |s| ==> !p(s[i])
  {
    if s == [] then 0 else CountWhere(s[..|s| - 1], p) + (if p(s[|s| - 1]) then 1 else 0)
  }

  /** Counting distributes over concatenation. */
  lemma {:induction false} CountWhereAppend<T>(a: seq<T>, b: seq<T>, p: T -> bool)
    ensures CountWhere(a + b, p) == CountWhere(a, p) + CountWhere(b, p)
  {
    if b != [] {
      var n := |b| - 1;
      assert (a + b)[..|a + b| - 1] == a + b[..n];
      CountWhereAppend(a, b[..n], p);
    } else {
      assert a + b == a;
    }
  }

  // ---------------------------------------------------------------------
  // `std::map::try_emplace`: insert only when the key is absent.

  function TryEmplace<K, V>(m: map<K, V>, k: K, v: V): (r: map<K, V>)
    ensures k in r && r[k] == (if k in m then m[k] else v)
    ensures forall k' :: k' in m ==> k' in r && r[k'] == m[k']
    ensures r.Keys == m.Keys + {k}
  {
    if k in m then m else m[k := v]
  }

  /** A sequence of `try_emplace` calls, in order. */
  function TryEmplaceAll<K, V>(m: map<K, V>, kvs: seq<(K, V)>): map<K, V>
    decreases |kvs|
  {
    if kvs == [] then m else TryEmplaceAll(TryEmplace(m, kvs[0].0, kvs[0].1), kvs[1..])
  }

  /**
   * Over any sequence of `try_emplace` calls, a key keeps the value it
   * already had, and otherwise gets the value of its first call.
   */
  lemma {:induction false} FirstEmplaceWins<K, V>(m: map<K, V>, kvs: seq<(K, V)>, k: K)
    ensures k in m ==> k in TryEmplaceAll(m, kvs) && TryEmplaceAll(m, kvs)[k] == m[k]
    ensures forall i :: (0 <= i < |kvs| && k !in m && kvs[i].0 == k && forall j :: 0 <= j < i ==> kvs[j].0 != k)
                        ==> k in TryEmplaceAll(m, kvs) && TryEmplaceAll(m, kvs)[k] == kvs[i].1
    decreases |kvs|
  {
    if kvs != [] {
      var m' := TryEmplace(m, kvs[0].0, kvs[0].1);
      FirstEmplaceWins(m', kvs[1..], k);
      forall i | 0 <= i < |kvs| && k !in m && kvs[i].0 == k && (forall j :: 0 <= j < i ==> kvs[j].0 != k)
        ensures k in TryEmplaceAll(m, kvs) && TryEmplaceAll(m, kvs)[k] == kvs[i].1
      {
        if i > 0 {
          assert kvs[1..][i - 1] == kvs[i];
          forall j | 0 <= j < i - 1 ensures kvs[1..][j].0 != k {
            assert kvs[1..][j] == kvs[j + 1];
          }
        }
      }
    }
  }
}
