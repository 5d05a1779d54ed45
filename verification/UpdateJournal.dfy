/**
 * The durable state of one cell's runtime update and the invariant of every crash point (update-transaction.ts,
 * update.ts).
 */
module UpdateJournal {
  import opened Wrappers

  type Binary = string
  type Version = string

  datatype UpdateState =
    | Preparing | Staged | Maintenance | Activating | Verifying | Committed | RollingBack | RolledBack | Blocked
    | RecoveryRequired

  /** The lockfile, as far as the runtime is concerned; `runtime` None is the installed default. */
  datatype Lock = Lock(runtime: Option<Binary>, version: Version)

  /** `previous` is the service selection found at the start; `archive` the lockfile inside the verified backup. */
  datatype Journal = Journal(id: nat, from: Version, target: Version, state: UpdateState, step: nat,
                             completed: seq<nat>,
                             candidate: Binary, previous: Option<Binary>, archive: Option<Lock>)

  /**
   * `lock` None means the state directory is not in place; `dropIn` is the service's runtime selection; `guard` the
   * process guard file. `started` is a history: the effects begun for the current journal.
   */
  datatype Machine = Machine(journal: Option<Journal>, lock: Option<Lock>, dropIn: Option<Binary>, guard: bool,
                             started: set<nat>)

  function UpTo(n: nat): seq<nat> {
    seq(n, i requires 0 <= i => i + 1)
  }

  /** The service and the lockfile select the same runtime. */
  predicate Agree(m: Machine) {
    m.lock.Some? && m.lock.value.runtime == m.dropIn
  }

  /** runtime.ts:19: ordinary commands wait in every other state. */
  predicate Usable(s: UpdateState) {
    s in {Preparing, Staged, Maintenance, Committed, RolledBack, Blocked}
  }

  /** update.ts:327: a new update may replace the journal of this one. */
  predicate Finished(s: UpdateState) {
    s in {Committed, RolledBack, Blocked}
  }

  /** update.ts:350. */
  predicate Recoverable(s: UpdateState) {
    s in {Preparing, Staged, Maintenance, Activating, Verifying, RollingBack, RecoveryRequired, Committed}
  }

  predicate StateFitsStep(s: UpdateState, step: nat) {
    match s
    case Preparing => 1 <= step <= 4
    case Staged => step == 5
    case Maintenance => step == 6
    case Activating => step == 7
    case Verifying => 8 <= step <= 9
    case Committed => step == 9
    case RollingBack => 7 <= step <= 9
    case RolledBack => 7 <= step <= 9
    case Blocked => 1 <= step < 7
    case RecoveryRequired => 1 <= step <= 9
  }

  /** The runtime as the update found it. */
  predicate AsFound(m: Machine, j: Journal) {
    m.lock == Some(Lock(j.previous, j.from)) && m.dropIn == j.previous
  }

  predicate AsCommitted(m: Machine, j: Journal) {
    m.lock == Some(Lock(Some(j.candidate), j.target)) && m.dropIn == Some(j.candidate)
  }

  /** In the middle, each of the two is the old one or the new one, or the state directory is away. */
  predicate InBetween(m: Machine, j: Journal) {
    && m.lock in {None, Some(Lock(j.previous, j.from)), Some(Lock(Some(j.candidate), j.target))}
    && m.dropIn in {j.previous, Some(j.candidate)}
  }

  predicate JournalGood(m: Machine, j: Journal) {
    && StateFitsStep(j.state, j.step)
    && (j.completed == UpTo(j.step - 1) || j.completed == UpTo(j.step))
    && (j.state == Committed ==> j.completed == UpTo(9))
    && (forall k | k in m.started :: 1 <= k <= j.step)
    && (j.step >= 7 ==> j.archive == Some(Lock(j.previous, j.from)))
    && (j.archive.Some? ==> j.archive == Some(Lock(j.previous, j.from)))
    && (if j.step < 7 || j.state == RolledBack then AsFound(m, j)
       else if j.state == Committed then AsCommitted(m, j) else InBetween(m, j))
  }

  predicate MachineGood(m: Machine) {
    if m.journal.Some? then JournalGood(m, m.journal.value) else Agree(m) && m.started == {}
  }

  /** The machine once `j` is its durable journal. */
  function WithJournal(m: Machine, j: Journal): Machine {
    m.(journal := Some(j), started := if m.journal.Some? && m.journal.value.id == j.id then m.started else {})
  }

  /** A journal in memory that could be saved as a failure now. */
  predicate Carried(m: Machine, j: Journal) {
    MachineGood(WithJournal(m, j.(state := RecoveryRequired)))
  }

  const EMPTY_MACHINE := Machine(None, Some(Lock(None, "")), None, false, {})

  type GoodMachine = m: Machine | MachineGood(m) witness EMPTY_MACHINE

  /** Whenever ordinary commands may run, they and the service get the same runtime; never a half-activated one. */
  lemma UsableMeansAgreement(m: Machine)
    requires MachineGood(m) && (m.journal.Some? ==> Usable(m.journal.value.state))
    ensures Agree(m)
  {
  }

  /** `blocked` means activation never began, `committed` that all nine steps completed. */
  lemma StatesAreTruthful(m: Machine)
    requires MachineGood(m) && m.journal.Some?
    ensures m.journal.value.state == Blocked ==> 7 !in m.started && AsFound(m, m.journal.value)
    ensures m.journal.value.state == Committed ==>
              m.journal.value.completed == [1, 2, 3, 4, 5, 6, 7, 8, 9] && AsCommitted(m, m.journal.value)
    ensures m.journal.value.state == RolledBack ==> AsFound(m, m.journal.value)
  {
    assert UpTo(9) == [1, 2, 3, 4, 5, 6, 7, 8, 9];
  }

  predicate UpdateAdmitted(m: Machine) {
    m.lock.Some? && !m.guard && (m.journal.Some? ==> Finished(m.journal.value.state))
  }

  /** The guard of a dead process does not stop a rollback. */
  predicate RollbackAdmitted(m: Machine) {
    m.journal.Some? && Recoverable(m.journal.value.state)
  }

  /** A guard file left behind with no journal, or with one that is already terminal and not committed. */
  predicate Stuck(m: Machine) {
    m.guard && (m.journal.Some? ==> m.journal.value.state in {Blocked, RolledBack})
  }

  /** With the state directory in place, some command is admitted unless the machine is stuck; then none is. */
  lemma StuckExactly(m: Machine)
    requires MachineGood(m) && m.lock.Some?
    ensures !UpdateAdmitted(m) && !RollbackAdmitted(m) <==> Stuck(m)
  {
  }

  /** The state directory is only ever away during a recovery past activation. */
  lemma AwayOnlyInRecovery(m: Machine)
    requires MachineGood(m) && m.lock.None?
    ensures m.journal.Some? && m.journal.value.step >= 7
    ensures m.journal.value.state in {Activating, Verifying, RollingBack, RecoveryRequired}
  {
  }

  /**
   * Dying between the save of a terminal state and the removal of the guard leaves a stuck machine
   * (update.ts:379-412).
   */
  lemma DyingBeforeUnlink(m: Machine, j: Journal, s: UpdateState)
    requires MachineGood(m) && m.guard && m.journal == Some(j) && s in {Blocked, RolledBack}
    requires if s == Blocked then j.step < 7 else j.step >= 7 && AsFound(m, j)
    ensures MachineGood(WithJournal(m, j.(state := s))) && Stuck(WithJournal(m, j.(state := s)))
  {
  }

  /** Dying between the two renames of a restore leaves the state directory away (update.ts:275-276). */
  lemma DyingBetweenRenames(m: Machine, j: Journal)
    requires MachineGood(m) && m.journal == Some(j) && j.state == RollingBack
    ensures MachineGood(m.(lock := None)) && RollbackAdmitted(m.(lock := None)) && !UpdateAdmitted(m.(lock := None))
  {
  }
}
