/** Model of the controller upgrade service: a stateless layer over the
    upgrade State (the persistence layer) that validates the version pair of
    a new upgrade before touching State, turns the two storage outcomes that
    mean "no such upgrade or controller" into NotFound, and hands every other
    result back unchanged. */
module UpgradeService {

  // ---------------------------------------------------------------------
  // Versions
  // ---------------------------------------------------------------------

  /** A release number major.minor.patch. */
  datatype Version = Version(major: nat, minor: nat, patch: nat)

  /** `a` is an earlier release than `b`: lexicographic on the three parts. */
  predicate Less(a: Version, b: Version)
  {
    || a.major < b.major
    || (a.major == b.major && a.minor < b.minor)
    || (a.major == b.major && a.minor == b.minor && a.patch < b.patch)
  }

  function Parts(v: Version): seq<nat>
  {
    [v.major, v.minor, v.patch]
  }

  /** Lexicographic order on equally long sequences of numbers. */
  predicate LexLess(a: seq<nat>, b: seq<nat>)
    requires |a| == |b|
  {
    |a| > 0 && (a[0] < b[0] || (a[0] == b[0] && LexLess(a[1..], b[1..])))
  }

  /** Less is the lexicographic order on (major, minor, patch). */
  lemma LessIsLexicographic(a: Version, b: Version)
    ensures Less(a, b) <==> LexLess(Parts(a), Parts(b))
  {
    var pa, pb := Parts(a), Parts(b);
    assert pa[1..] == [a.minor, a.patch] && pb[1..] == [b.minor, b.patch];
    assert pa[1..][1..] == [a.patch] && pb[1..][1..] == [b.patch];
    assert LexLess([a.patch], [b.patch]) <==> a.patch < b.patch by {
      assert [a.patch][1..] == [];
    }
    assert LexLess([a.minor, a.patch], [b.minor, b.patch])
           <==> a.minor < b.minor || (a.minor == b.minor && a.patch < b.patch);
  }

  /** Less is a strict total order, so "to is strictly greater than from"
      rules out both equal and lower targets. */
  lemma LessIsStrictTotalOrder(a: Version, b: Version, c: Version)
    ensures !Less(a, a)
    ensures Less(a, b) ==> !Less(b, a)
    ensures Less(a, b) && Less(b, c) ==> Less(a, c)
    ensures a == b || Less(a, b) || Less(b, a)
  {
  }

  // ---------------------------------------------------------------------
  // State and errors
  // ---------------------------------------------------------------------

  /** The storage outcomes the service tells apart. */
  datatype StateError =
    | ForeignKeyViolation      // a foreign-key constraint failed
    | NoRows                   // no row matched
    | Failure(message: string) // any other storage or transport failure

  datatype StateResult<T> = Done(value: T) | Failed(error: StateError)

  /** The upgrade State, as the results each of its operations reports. */
  datatype State = State(
    createUpgrade: (Version, Version) -> StateResult<string>,
    setControllerReady: (string, string) -> StateResult<()>,
    allProvisionedControllersReady: string -> StateResult<bool>,
    startUpgrade: string -> StateResult<()>,
    activeUpgrades: () -> StateResult<seq<string>>)

  /** The service's own error kinds. */
  datatype ServiceError =
    | NotValid                    // the version pair is not an upgrade
    | NotFound                    // the upgrade or controller is unknown
    | Passthrough(cause: StateError)

  datatype Outcome<T> = Ok(value: T) | Err(error: ServiceError)

  /** A State result as the service returns it: `notFound` is the storage
      outcome the operation reports as NotFound; all else passes through. */
  function Translate<T>(s: StateResult<T>, notFound: set<StateError>): Outcome<T>
  {
    match s
    case Done(v) => Ok(v)
    case Failed(e) => if e in notFound then Err(NotFound) else Err(Passthrough(e))
  }

  /** The State result a service outcome came from, when `kind` is the one
      storage outcome reported as NotFound. */
  function Recover<T>(r: Outcome<T>, kind: StateError): StateResult<T>
    requires r != Err(NotValid)
  {
    match r
    case Ok(v) => Done(v)
    case Err(NotFound) => Failed(kind)
    case Err(Passthrough(e)) => Failed(e)
  }

  // ---------------------------------------------------------------------
  // Service operations
  // ---------------------------------------------------------------------

  /** CreateUpgrade: records an upgrade from `from` to `to` and returns its
      UUID. A target that is not strictly later than the source is NotValid
      and State is not consulted. */
  function CreateUpgrade(st: State, from: Version, to: Version): (r: Outcome<string>)
    ensures r == Err(NotValid) <==> !Less(from, to)
    ensures r != Err(NotFound)
    ensures Less(from, to) && st.createUpgrade(from, to).Done? ==> r == Ok(st.createUpgrade(from, to).value)
    ensures Less(from, to) && st.createUpgrade(from, to).Failed?
            ==> r == Err(Passthrough(st.createUpgrade(from, to).error))
  {
    if !Less(from, to) then Err(NotValid)
    else Translate(st.createUpgrade(from, to), {})
  }

  /** SetControllerReady: marks `controllerId` ready for `upgradeUuid`. A
      foreign-key violation (unknown upgrade or controller) is NotFound. */
  function SetControllerReady(st: State, upgradeUuid: string, controllerId: string): (r: Outcome<()>)
    ensures r.Ok? <==> st.setControllerReady(upgradeUuid, controllerId).Done?
    ensures r == Err(NotFound) <==> st.setControllerReady(upgradeUuid, controllerId) == Failed(ForeignKeyViolation)
    ensures r != Err(NotValid) && r != Err(Passthrough(ForeignKeyViolation))
    ensures st.setControllerReady(upgradeUuid, controllerId).Failed?
            && st.setControllerReady(upgradeUuid, controllerId).error != ForeignKeyViolation
            ==> r == Err(Passthrough(st.setControllerReady(upgradeUuid, controllerId).error))
  {
    Translate(st.setControllerReady(upgradeUuid, controllerId), {ForeignKeyViolation})
  }

  /** AllProvisionedControllersReady: State's answer, unchanged. */
  function AllProvisionedControllersReady(st: State, upgradeUuid: string): (r: Outcome<bool>)
    ensures forall b :: r == Ok(b) <==> st.allProvisionedControllersReady(upgradeUuid) == Done(b)
    ensures r.Err? ==> r.error.Passthrough?
                       && st.allProvisionedControllersReady(upgradeUuid) == Failed(r.error.cause)
  {
    Translate(st.allProvisionedControllersReady(upgradeUuid), {})
  }

  /** StartUpgrade: starts the upgrade `upgradeUuid`. No matching row (the
      upgrade was never created) is NotFound. */
  function StartUpgrade(st: State, upgradeUuid: string): (r: Outcome<()>)
    ensures r.Ok? <==> st.startUpgrade(upgradeUuid).Done?
    ensures r == Err(NotFound) <==> st.startUpgrade(upgradeUuid) == Failed(NoRows)
    ensures r != Err(NotValid) && r != Err(Passthrough(NoRows))
    ensures st.startUpgrade(upgradeUuid).Failed? && st.startUpgrade(upgradeUuid).error != NoRows
            ==> r == Err(Passthrough(st.startUpgrade(upgradeUuid).error))
  {
    Translate(st.startUpgrade(upgradeUuid), {NoRows})
  }

  /** ActiveUpgrades: State's list of active upgrade UUIDs, same elements in
      the same order. */
  function ActiveUpgrades(st: State): (r: Outcome<seq<string>>)
    ensures r.Ok? <==> st.activeUpgrades().Done?
    ensures r.Ok? ==> |r.value| == |st.activeUpgrades().value|
                      && forall i :: 0 <= i < |r.value| ==> r.value[i] == st.activeUpgrades().value[i]
    ensures r.Err? ==> r.error == Passthrough(st.activeUpgrades().error)
  {
    Translate(st.activeUpgrades(), {})
  }

  // ---------------------------------------------------------------------
  // Properties across operations
  // ---------------------------------------------------------------------

  /** An invalid version pair is refused whatever State would have said:
      the result does not depend on State at all. */
  lemma CreateUpgradeInvalidIgnoresState(st1: State, st2: State, from: Version, to: Version)
    requires !Less(from, to)
    ensures CreateUpgrade(st1, from, to) == CreateUpgrade(st2, from, to) == Err(NotValid)
  {
  }

  /** A valid version pair gives State's outcome back unchanged: nothing is
      lost or replaced on the way. CreateUpgrade never reports NotFound, so
      the kind handed to Recover is never used; NoRows is as good as any. */
  lemma CreateUpgradeKeepsStateOutcome(st: State, from: Version, to: Version)
    requires Less(from, to)
    ensures Recover(CreateUpgrade(st, from, to), NoRows) == st.createUpgrade(from, to)
  {
  }

  /** The NotFound mapping of SetControllerReady loses no information: State's
      outcome can be read back from the service's. */
  lemma SetControllerReadyKeepsStateOutcome(st: State, upgradeUuid: string, controllerId: string)
    ensures Recover(SetControllerReady(st, upgradeUuid, controllerId), ForeignKeyViolation)
            == st.setControllerReady(upgradeUuid, controllerId)
  {
  }

  /** The same for StartUpgrade and NoRows. */
  lemma StartUpgradeKeepsStateOutcome(st: State, upgradeUuid: string)
    ensures Recover(StartUpgrade(st, upgradeUuid), NoRows) == st.startUpgrade(upgradeUuid)
  {
  }
}
