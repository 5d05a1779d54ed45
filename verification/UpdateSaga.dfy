/**
 * The nine-step update, its recovery, and what every other command reads (update-transaction.ts, update.ts,
 * runtime.ts).
 */
module UpdateSaga {
  import opened Wrappers
  import opened UpdateJournal

  /** A step goes through, throws, or is where the process dies. */
  datatype Fate = Done | Failed | Crashed

  /** The host: `took` says whether a step that did not go through had its effect all the same. */
  datatype Answer = Answer(fate: Fate, took: bool)

  datatype UpdateHost = UpdateHost(effect: nat -> Answer, save: nat -> Answer, running: nat -> bool)

  datatype Outcome = Returned | Threw | Died

  ghost predicate Reliable(h: UpdateHost) {
    forall t: nat :: h.effect(t).fate == Done && h.save(t).fate == Done && !h.running(t)
  }

  /** The journal can always be written. */
  ghost predicate SavesWork(h: UpdateHost) {
    forall t: nat :: h.save(t).fate == Done
  }

  function OutcomeOf(f: Fate): Outcome {
    match f case Done => Returned case Failed => Threw case Crashed => Died
  }

  /** The state the journal takes when step `k` begins (update-transaction.ts:86-94). */
  function StateAt(k: nat, s: UpdateState): UpdateState {
    if k == 5 then Staged else if k == 6 then Maintenance else if k == 7 then Activating
    else if k == 8 then Verifying else s
  }

  class Updater {
    const host: UpdateHost
    var tick: nat
    /** Every value this field ever takes is good: each single assignment is a possible crash point. */
    var m: GoodMachine

    constructor (found: GoodMachine, host: UpdateHost)
      ensures m == found && this.host == host
    {
      this.host := host;
      tick := 0;
      m := found;
    }

    method Ask() returns (a: Answer)
      modifies this`tick
      ensures Reliable(host) ==> a.fate == Done
    {
      a := host.effect(tick);
      tick := tick + 1;
    }

    /** Write the journal and fsync; a throw may come before or after the rename (update-transaction.ts:31-50). */
    method Save(j: Journal) returns (o: Outcome)
      requires MachineGood(WithJournal(m, j))
      modifies this
      ensures m == old(m) || m == WithJournal(old(m), j)
      ensures o == Returned ==> m == WithJournal(old(m), j)
      ensures SavesWork(host) || Reliable(host) ==> o == Returned
    {
      var a := host.save(tick);
      tick := tick + 1;
      if a.fate == Done || a.took { m := WithJournal(m, j); }
      o := OutcomeOf(a.fate);
    }

    /** Effects one to six leave the runtime alone; three and six record a backup archive, six saves it at once. */
    method Prepare(j: Journal) returns (o: Outcome, j': Journal)
      requires m.journal == Some(j) && j.step < 7 && j.state in {Preparing, Staged, Maintenance}
      requires j.completed == UpTo(j.step - 1)
      modifies this
      ensures m.journal == Some(j) || m.journal == Some(j')
      ensures m == old(m).(journal := m.journal, started := old(m).started + {j.step})
      ensures j' == j.(archive := j'.archive)
      ensures j'.archive == j.archive || j'.archive == Some(Lock(j.previous, j.from))
      ensures o == Returned && j.step in {3, 6} ==> j'.archive.Some?
      ensures Reliable(host) ==> o == Returned
    {
      j' := j;
      m := m.(started := m.started + {j.step});
      var a := Ask();
      if (a.fate == Done || a.took) && j.step in {3, 6} && m.lock.Some? {
        j' := j.(archive := m.lock);
        if j.step == 6 {
          o := Save(j');
          if o != Returned { return; }
          // Stopping the old gateway is all that remains.
          a := Ask();
        }
      }
      o := OutcomeOf(a.fate);
    }

    /** Effects seven to nine: select the candidate, verify it, pin it in the lockfile (update.ts:195-208). */
    method Activate(j: Journal) returns (o: Outcome)
      requires m.journal == Some(j) && j.step >= 7 && j.state in {Activating, Verifying}
      requires j.step > 7 ==> m.dropIn == Some(j.candidate)
      requires m.lock == Some(Lock(j.previous, j.from))
      modifies this
      ensures Reliable(host) ==> o == Returned
      ensures m.journal == Some(j) && m.guard == old(m.guard) && m.started == old(m).started + {j.step}
      ensures o == Returned ==> m.dropIn == Some(j.candidate)
      ensures o == Returned && j.step < 9 ==> m.lock == Some(Lock(j.previous, j.from))
      ensures o == Returned && j.step == 9 ==> AsCommitted(m, j)
    {
      m := m.(started := m.started + {j.step});
      var a := Ask();
      if j.step == 7 && (a.fate == Done || a.took) {
        m := m.(dropIn := Some(j.candidate));
      }
      if j.step == 9 {
        if m.lock.None? || m.lock.value.version != j.from { return Threw; }
        if a.fate == Done || a.took { m := m.(lock := Some(Lock(Some(j.candidate), j.target))); }
      }
      o := OutcomeOf(a.fate);
    }

    /** Put the archived state directory and the old service selection back (update.ts:240-290). */
    method Restore(j: Journal) returns (o: Outcome)
      requires m.journal == Some(j) && j.state == RollingBack
      modifies this
      ensures m == old(m).(lock := m.lock, dropIn := m.dropIn)
      ensures o == Returned ==> AsFound(m, j)
      ensures old(m).lock.None? ==> o == Threw && m == old(m)
      ensures Reliable(host) && old(m).lock.Some? ==> o == Returned
    {
      // Without a readable lockfile there is nothing to compare the archive with.
      if j.archive.None? || m.lock.None? { return Threw; }
      var a := Ask();
      if a.fate != Done { return OutcomeOf(a.fate); }
      m := m.(lock := None);
      a := Ask();
      if a.fate == Done || a.took { m := m.(lock := j.archive); }
      if a.fate != Done { return OutcomeOf(a.fate); }
      a := Ask();
      if a.fate == Done || a.took { m := m.(dropIn := j.previous); }
      if a.fate != Done { return OutcomeOf(a.fate); }
      a := Ask();
      o := OutcomeOf(a.fate);
    }

    /**
     * Before activation nothing has to be put back; stopping in the middle of step six may fail
     * (update-transaction.ts:117-127).
     */
    method RecoverPrepared(j: Journal) returns (o: Outcome)
      requires Carried(m, j) && j.step < 7
      modifies this
      ensures o != Returned && m.guard == old(m).guard
      ensures m.journal == old(m).journal || (m.journal.Some? && m.journal.value.id == j.id)
      ensures SavesWork(host) && o == Threw ==>
                m.journal.Some? && m.journal.value.id == j.id && m.journal.value.step == j.step
                && m.journal.value.state in {RecoveryRequired, Blocked}
    {
      var a := Answer(Done, true);
      if j.step == 6 { a := Ask(); }
      if a.fate == Crashed { return Died; }
      o := Save(j.(state := if a.fate == Done then Blocked else RecoveryRequired));
      if o == Returned { o := Threw; }
    }

    /** From activation on, everything is put back (update-transaction.ts:106-116). */
    method RecoverActivated(j: Journal) returns (o: Outcome)
      requires Carried(m, j) && j.step >= 7
      modifies this
      ensures o != Returned && m.guard == old(m).guard
      ensures m.journal == old(m).journal || (m.journal.Some? && m.journal.value.id == j.id)
      ensures SavesWork(host) && o == Threw ==>
                m.journal.Some? && m.journal.value.id == j.id && m.journal.value.step == j.step
                && m.journal.value.state in {RecoveryRequired, RolledBack}
    {
      var r := j.(state := RollingBack);
      o := Save(r);
      if o != Returned { return; }
      o := Restore(r);
      if o == Died { return; }
      o := Save(r.(state := if o == Returned then RolledBack else RecoveryRequired));
      if o == Returned { o := Threw; }
    }

    /** What `executeUpdate` does with a failed step (update-transaction.ts:103-129). */
    method Recover(j: Journal) returns (o: Outcome)
      requires Carried(m, j)
      modifies this
      ensures o != Returned && m.guard == old(m).guard
      ensures m.journal == old(m).journal || (m.journal.Some? && m.journal.value.id == j.id)
      ensures SavesWork(host) && o == Threw ==>
                m.journal.Some? && m.journal.value.id == j.id && m.journal.value.step == j.step
                && m.journal.value.state in {RecoveryRequired, if j.step < 7 then Blocked else RolledBack}
    {
      if j.step >= 7 {
        o := RecoverActivated(j);
      } else {
        o := RecoverPrepared(j);
      }
    }

    /** A step is made durable before its effect starts. */
    method Begin(j: Journal, k: nat) returns (o: Outcome, j': Journal)
      requires 1 <= k <= 9 && Ready(m, j, k)
      modifies this
      ensures m == old(m) || m == WithJournal(old(m), j')
      ensures j' == j.(step := k, state := StateAt(k, j.state))
      ensures o == Returned ==> m == WithJournal(old(m), j')
      ensures o == Threw ==> Carried(m, j')
      ensures Reliable(host) ==> o == Returned
    {
      j' := j.(step := k, state := StateAt(k, j.state));
      o := Save(j');
    }

    method RunEffect(j: Journal, k: nat) returns (o: Outcome, j': Journal)
      requires 1 <= k <= 9 && Begun(m, j, k)
      modifies this
      ensures m.guard == old(m).guard && m.journal.Some? && m.journal.value.id == j.id && SameJob(j, j') && j'.step == k
      ensures o == Returned ==> Effected(m, j', k)
      ensures o == Threw ==> Carried(m, j')
      ensures Reliable(host) ==> o == Returned
    {
      j' := j;
      BegunIs(m, j, k);
      hide MachineGood, Begun, Effected, Carried;
      ghost var begun := m;
      if k < 7 {
        o, j' := Prepare(j);
        Prepared(begun, m, j, j', k, o);
      } else {
        o := Activate(j);
        Activated(begun, m, j, k, o);
      }
    }

    /** The effect of a step already durable, and the record that it completed. */
    method Finish(j: Journal, k: nat) returns (o: Outcome, j': Journal)
      requires 1 <= k <= 9 && Begun(m, j, k)
      modifies this
      ensures m.guard == old(m).guard && m.journal.Some? && m.journal.value.id == j.id && SameJob(j, j') && j'.step == k
      ensures o == Returned ==> Ready(m, j', k + 1)
      ensures o == Threw ==> Carried(m, j')
      ensures Reliable(host) ==> o == Returned
    {
      o, j' := RunEffect(j, k);
      if o != Returned { return; }
      hide Carried, MachineGood;
      Completing(m, j', k);
      j' := j'.(completed := j'.completed + [k]);
      o := Save(j');
    }

    /** One of the nine steps (update-transaction.ts:86-98). */
    method Step(j: Journal, k: nat) returns (o: Outcome, j': Journal)
      requires 1 <= k <= 9 && Ready(m, j, k)
      modifies this
      ensures m.guard == old(m).guard
      ensures m.journal == old(m).journal || (m.journal.Some? && m.journal.value.id == j.id)
      ensures SameJob(j, j') && j'.step == k
      ensures o == Returned ==> Ready(m, j', k + 1)
      ensures o == Threw ==> Carried(m, j')
      ensures Reliable(host) ==> o == Returned
    {
      o, j' := Begin(j, k);
      if o != Returned { return; }
      ReadyBegins(old(m), m, j, j', k);
      hide Ready, Begun, Carried, MachineGood;
      o, j' := Finish(j', k);
    }

    /** All nine steps, then the durable commit, then admission (update-transaction.ts:82-133). */
    method Execute(start: Journal) returns (o: Outcome)
      requires Ready(m, start, 1)
      modifies this
      ensures m.guard == old(m).guard
      ensures m.journal == old(m).journal || (m.journal.Some? && m.journal.value.id == start.id)
      ensures o == Returned ==> m.journal.Some? && SameJob(start, m.journal.value) && m.journal.value.state == Committed
      ensures o == Threw && SavesWork(host) ==>
                m.journal.Some? && m.journal.value.id == start.id
                  && m.journal.value.state in {Committed, RolledBack, Blocked, RecoveryRequired}
      ensures Reliable(host) ==> o == Returned
    {
      var j, k := start, 1;
      while k <= 9
        invariant 1 <= k <= 10 && Ready(m, j, k) && SameJob(start, j) && m.guard == old(m).guard
        invariant m.journal == old(m).journal || (m.journal.Some? && m.journal.value.id == start.id)
      {
        o, j := Step(j, k);
        if o == Threw { o := Recover(j); return; }
        if o == Died { return; }
        k := k + 1;
      }
      j := j.(state := Committed);
      o := Save(j);
      if o == Threw { o := Recover(j); return; }
      if o == Died { return; }
      // A resume that fails leaves a committed, paused cell.
      var a := Ask();
      o := OutcomeOf(a.fate);
    }

    method SetGuard(present: bool)
      modifies this`m
      ensures m == old(m).(guard := present)
    {
      m := m.(guard := present);
    }

    /** `gkos update` (update.ts:302-344): never over an unfinished update, and never past a guard. */
    method Update(id: nat, target: Version, candidate: Binary) returns (o: Outcome)
      requires m.journal.Some? ==> m.journal.value.id != id
      modifies this
      ensures !UpdateAdmitted(old(m)) ==> o == Threw && m == old(m)
      ensures o == Returned ==>
                && !m.guard && m.journal.Some? && m.journal.value.id == id && m.journal.value.state == Committed
                && m.lock == Some(Lock(Some(candidate), target)) && m.dropIn == Some(candidate)
      ensures UpdateAdmitted(old(m)) && o == Threw ==> !m.guard
      ensures Reliable(host) && UpdateAdmitted(old(m)) ==> o == Returned
      ensures UpdateAdmitted(old(m)) && o == Threw && SavesWork(host) ==>
                m.journal.Some? && m.journal.value.id == id
                  && m.journal.value.state in {Committed, RolledBack, Blocked, RecoveryRequired}
    {
      if m.lock.None? || (m.journal.Some? && !Finished(m.journal.value.state)) || m.guard { return Threw; }
      var j := Journal(id, m.lock.value.version, target, Preparing, 1, [], candidate, m.dropIn, None);
      assert Ready(m, j, 1) by { UsableMeansAgreement(m); }
      hide Ready, MachineGood;
      SetGuard(true);
      assert Ready(m, j, 1) by { GuardIsSeparate(old(m), m, j); }
      o := Execute(j);
      if o != Died { SetGuard(false); }
      CommittedIsTruthful(m);
    }

    /**
     * `gkos rollback` (update.ts:346-413). It ends in `blocked` exactly when the journal stands before activation and
     * in `rolled-back` otherwise; a failed attempt leaves a journal it accepts again.
     */
    method Rollback() returns (o: Outcome)
      modifies this
      ensures !RollbackAdmitted(old(m)) ==> o == Threw && m == old(m)
      ensures o == Threw && m.guard ==> m == old(m)
      ensures o == Returned ==>
                && RollbackAdmitted(old(m)) && !m.guard && m.journal.Some?
                && m.journal.value.state == (if old(m).journal.value.step < 7 then Blocked
                   else RolledBack) && AsFound(m, m.journal.value)
      ensures RollbackAdmitted(old(m)) ==> SameUpdate(old(m), m)
      ensures RollbackAdmitted(old(m)) && o != Returned ==>
                RollbackAdmitted(m) || m.journal.value.state == Blocked || m.journal.value.state == RolledBack
      ensures RollbackAdmitted(old(m)) && o == Threw && SavesWork(host) ==> RollbackAdmitted(m)
      // It converges exactly when the state directory is in place, or was never needed.
      ensures Reliable(host) && RollbackAdmitted(old(m)) ==>
                (o == Returned <==> old(m).journal.value.step < 7 || old(m).lock.Some?)
      ensures old(m).lock.None? ==> o != Returned && m.lock.None? && (m.journal.Some? && !Usable(m.journal.value.state))
    {
      if m.lock.None? { AwayOnlyInRecovery(m); }
      if m.journal.None? || !Recoverable(m.journal.value.state) { return Threw; }
      if m.guard {
        var alive := host.running(tick);
        tick := tick + 1;
        if alive { return Threw; }
        SetGuard(false);
      }
      SetGuard(true);
      o := Retry(m.journal.value);
      if o != Died { SetGuard(false); }
    }

    /** The guarded part of a rollback. */
    method Retry(j: Journal) returns (o: Outcome)
      requires m.journal == Some(j) && Recoverable(j.state)
      modifies this
      ensures m.guard == old(m).guard && SameUpdate(old(m), m)
      ensures o == Returned ==>
                m.journal.value.state == (if j.step < 7 then Blocked else RolledBack) && AsFound(m, m.journal.value)
      ensures o != Returned ==>
                RollbackAdmitted(m) || m.journal.value.state == Blocked || m.journal.value.state == RolledBack
      ensures o == Threw && SavesWork(host) ==> RollbackAdmitted(m)
      ensures Reliable(host) ==> (o == Returned <==> j.step < 7 || old(m).lock.Some?)
      ensures old(m).lock.None? ==> m.lock.None? && !Usable(m.journal.value.state) && o != Returned
    {
      if m.lock.None? { AwayOnlyInRecovery(m); }
      if j.step < 7 {
        o := RetryBeforeActivation(j);
      } else {
        o := RetryRestore(j);
      }
    }

    /** Nothing was activated: restart the old runtime if it was stopped, and close the update (update.ts:371-382). */
    method RetryBeforeActivation(j: Journal) returns (o: Outcome)
      requires m.journal == Some(j) && Recoverable(j.state) && j.step < 7
      modifies this
      ensures m.guard == old(m).guard && SameUpdate(old(m), m) && m.lock == old(m).lock
      ensures o == Returned ==> m.journal.value.state == Blocked && AsFound(m, m.journal.value)
      ensures o != Returned ==> RollbackAdmitted(m) || m.journal.value.state == Blocked
      ensures o == Threw && SavesWork(host) ==> RollbackAdmitted(m)
      ensures Reliable(host) ==> o == Returned
    {
      var a := Answer(Done, true);
      if j.step == 6 { a := Ask(); }
      if a.fate == Crashed { return Died; }
      o := Threw;
      if a.fate == Done { o := Save(j.(state := Blocked)); }
      if o == Threw { o := Refuse(j); }
    }

    /** The candidate may be active: put the archived state back (update.ts:383-399). */
    method RetryRestore(j: Journal) returns (o: Outcome)
      requires m.journal == Some(j) && Recoverable(j.state) && j.step >= 7
      modifies this
      ensures m.guard == old(m).guard && SameUpdate(old(m), m)
      ensures o == Returned ==> m.journal.value.state == RolledBack && AsFound(m, m.journal.value)
      ensures o != Returned ==> RollbackAdmitted(m) || m.journal.value.state == RolledBack
      ensures o == Threw && SavesWork(host) ==> RollbackAdmitted(m)
      ensures Reliable(host) ==> (o == Returned <==> old(m).lock.Some?)
      ensures old(m).lock.None? ==> m.lock.None? && !Usable(m.journal.value.state) && o != Returned
    {
      if m.lock.None? { AwayOnlyInRecovery(m); }
      if j.state == Committed {
        // Pause and drain, and compare the grants; a refusal reopens admission.
        var a := Ask();
        if a.fate == Crashed { return Died; }
        if a.fate == Failed { o := Refuse(j); return; }
      }
      o := Reopen(j);
    }

    /** The restore itself, recorded before and after; from its first record on a failure requires recovery. */
    method Reopen(j: Journal) returns (o: Outcome)
      requires m.journal == Some(j) && Recoverable(j.state) && j.step >= 7 && (m.lock.None? ==> !Usable(j.state))
      modifies this
      ensures m.guard == old(m).guard && SameUpdate(old(m), m)
      ensures o == Returned ==> m.journal.value.state == RolledBack && AsFound(m, m.journal.value)
      ensures o != Returned ==> RollbackAdmitted(m) || m.journal.value.state == RolledBack
      ensures o == Threw && SavesWork(host) ==> RollbackAdmitted(m)
      ensures Reliable(host) ==> (o == Returned <==> old(m).lock.Some?)
      ensures old(m).lock.None? ==> m.lock.None? && !Usable(m.journal.value.state) && o != Returned
    {
      var r := j.(state := RollingBack);
      RollingBackFits(m, j);
      o := Save(r);
      if o == Died { return; }
      if o == Returned {
        o := RestoreAndClose(r);
        if o != Threw { return; }
      }
      RefusalFits(old(m), m, j);
      hide MachineGood, InBetween;
      o := Refuse(r.(state := RecoveryRequired));
    }

    method RestoreAndClose(r: Journal) returns (o: Outcome)
      requires m.journal == Some(r) && r.state == RollingBack
      modifies this
      ensures m.guard == old(m).guard && m.started == old(m).started
      ensures m.journal in {Some(r), Some(r.(state := RolledBack))}
      ensures o == Returned ==> m.journal == Some(r.(state := RolledBack)) && AsFound(m, r)
      ensures Reliable(host) ==> (o == Returned <==> old(m).lock.Some?)
      ensures old(m).lock.None? ==> o == Threw && m == old(m)
    {
      o := Restore(r);
      if o == Returned { o := Save(r.(state := RolledBack)); }
    }

    /** Save what a failed rollback leaves, and throw. */
    method Refuse(j: Journal) returns (o: Outcome)
      requires MachineGood(WithJournal(m, j)) && m.journal.Some? && m.journal.value.id == j.id && Recoverable(j.state)
      modifies this
      ensures o != Returned && (m == old(m) || m == old(m).(journal := Some(j)))
      ensures SavesWork(host) && o == Threw ==> m.journal == Some(j)
    {
      o := Save(j);
      if o == Returned { o := Threw; }
    }

    /** The runtime ordinary commands launch (runtime.ts:9-23); None is the refusal to launch any. */
    method CommittedRuntime() returns (runtime: Option<Option<Binary>>)
      ensures runtime.Some? ==> m.lock.Some? && runtime.value == m.lock.value.runtime == m.dropIn
      ensures runtime.None? <==> m.journal.Some? && !Usable(m.journal.value.state)
    {
      if m.journal.Some? && !Usable(m.journal.value.state) { return None; }
      if m.lock.None? { AwayOnlyInRecovery(m); }
      UsableMeansAgreement(m);
      runtime := Some(m.lock.value.runtime);
    }

    /** Any number of commands, each of which may die anywhere. Two kinds of state are never left again. */
    method Lifetimes(commands: seq<Command>)
      modifies this
      ensures Stuck(old(m)) ==> m == old(m)
      ensures old(m).lock.None? ==> m.lock.None? && m.journal.Some? && !Usable(m.journal.value.state)
    {
      if m.lock.None? { AwayOnlyInRecovery(m); }
      for i := 0 to |commands|
        invariant Stuck(old(m)) ==> m == old(m)
        invariant old(m).lock.None? ==> m.lock.None? && m.journal.Some? && !Usable(m.journal.value.state)
      {
        match commands[i]
        case UpdateTo(id, target, candidate) =>
          // Update ids are random.
          if m.journal.None? || m.journal.value.id != id {
            var _ := Update(id, target, candidate);
          }
        case RollBack =>
          var _ := Rollback();
      }
    }
  }

  datatype Command = UpdateTo(id: nat, target: Version, candidate: Binary) | RollBack

  /** The same update, as it was set up. */
  predicate SameJob(j: Journal, j': Journal) {
    j'.id == j.id && j'.from == j.from && j'.target == j.target && j'.candidate == j.candidate
      && j'.previous == j.previous
  }

  /** The journal is still about the same update, at the same step. */
  predicate SameUpdate(m: Machine, m': Machine) {
    && m.journal.Some? && m'.journal.Some?
    && m'.journal.value == m.journal.value.(state := m'.journal.value.state)
  }

  lemma GuardIsSeparate(m: Machine, m': Machine, j: Journal)
    requires Ready(m, j, 1) && m' == m.(guard := m'.guard)
    ensures Ready(m', j, 1)
  {
  }

  lemma RollingBackFits(m: Machine, j: Journal)
    requires MachineGood(m) && m.journal == Some(j) && j.step >= 7 && Recoverable(j.state)
    ensures MachineGood(WithJournal(m, j.(state := RollingBack)))
  {
  }

  lemma RefusalFits(m: Machine, m': Machine, j: Journal)
    requires MachineGood(m) && m.journal == Some(j) && j.step >= 7 && Recoverable(j.state) && MachineGood(m')
    requires m'.journal.Some? && (m'.journal == Some(j) || m'.journal.value == j.(state := m'.journal.value.state))
    ensures MachineGood(WithJournal(m', j.(state := RecoveryRequired)))
  {
  }

  lemma CommittedIsTruthful(m: Machine)
    requires MachineGood(m)
    ensures m.journal.Some? && m.journal.value.state == Committed ==> AsCommitted(m, m.journal.value)
  {
  }

  /** The journal's state once step `k` is durable. */
  function NominalState(k: nat): UpdateState {
    if k <= 4 then Preparing else if k == 5 then Staged else if k == 6 then Maintenance
    else if k == 7 then Activating else Verifying
  }

  /** Between steps: everything up to step `k - 1` is done and durable, and the runtime is where that leaves it. */
  predicate Ready(m: Machine, j: Journal, k: nat) {
    && 1 <= k <= 10 && j.completed == UpTo(k - 1) && j.state == NominalState(k - 1)
    && (k > 1 ==> m.journal == Some(j) && j.step == k - 1)
    && (k == 1 ==> m.journal.Some? ==> m.journal.value.id != j.id && Finished(m.journal.value.state))
    && RuntimeAt(m, j, k)
  }

  predicate Begun(m: Machine, j: Journal, k: nat) {
    && 1 <= k <= 9 && j.completed == UpTo(k - 1) && j.state == NominalState(k) && m.journal == Some(j)
       && j.step == k && RuntimeAt(m, j, k)
  }

  /** The effect of step `k` is done, and not yet recorded as completed. */
  predicate Effected(m: Machine, j: Journal, k: nat) {
    && 1 <= k <= 9 && j.step == k && m.journal.Some? && m.journal.value.id == j.id
    && Ready(WithJournal(m, j.(completed := j.completed + [k])), j.(completed := j.completed + [k]), k + 1)
    && MachineGood(WithJournal(m, j.(completed := j.completed + [k])))
    && MachineGood(WithJournal(m, j.(completed := j.completed + [k], state := RecoveryRequired)))
  }

  lemma BegunIs(m: Machine, j: Journal, k: nat)
    requires Begun(m, j, k)
    ensures m.journal == Some(j) && j.step == k && m.lock == Some(Lock(j.previous, j.from))
    ensures k < 7 ==> j.state in {Preparing, Staged, Maintenance} && j.completed == UpTo(k - 1)
    ensures k >= 7 ==> j.state in {Activating, Verifying} && (k > 7 ==> m.dropIn == Some(j.candidate))
  {
  }

  lemma Prepared(m: Machine, m': Machine, j: Journal, j': Journal, k: nat, o: Outcome)
    requires Begun(m, j, k) && k < 7 && MachineGood(m) && MachineGood(m')
    requires m'.journal in {Some(j), Some(j')} && m' == m.(journal := m'.journal, started := m.started + {k})
    requires j' == j.(archive := j'.archive)
    requires j'.archive == j.archive || j'.archive == Some(Lock(j.previous, j.from))
    requires o == Returned && k in {3, 6} ==> j'.archive.Some?
    ensures SameJob(j, j') && (o == Returned ==> Effected(m', j', k)) && (o == Threw ==> Carried(m', j'))
  {
    assert UpTo(k - 1) + [k] == UpTo(k);
  }

  lemma Activated(m: Machine, m': Machine, j: Journal, k: nat, o: Outcome)
    requires Begun(m, j, k) && k >= 7 && MachineGood(m) && MachineGood(m')
    requires m'.journal == Some(j)
    requires o == Returned ==> m'.dropIn == Some(j.candidate)
    requires o == Returned && k < 9 ==> m'.lock == Some(Lock(j.previous, j.from))
    requires o == Returned && k == 9 ==> AsCommitted(m', j)
    ensures (o == Returned ==> Effected(m', j, k)) && (o == Threw ==> Carried(m', j))
  {
    assert UpTo(k - 1) + [k] == UpTo(k);
  }

  lemma Completing(m: Machine, j: Journal, k: nat)
    requires Effected(m, j, k)
    ensures var j' := j.(completed := j.completed + [k]);
            && MachineGood(WithJournal(m, j')) && Ready(WithJournal(m, j'), j', k + 1)
            && Carried(m, j') && Carried(WithJournal(m, j'), j')
  {
    hide MachineGood, Ready;
  }

  predicate RuntimeAt(m: Machine, j: Journal, k: nat) {
    && (j.archive.Some? ==> j.archive == Some(Lock(j.previous, j.from))) && (k > 6 ==> j.archive.Some?)
    && (k <= 9 ==> m.lock == Some(Lock(j.previous, j.from)))
    && (k <= 7 ==> m.dropIn == j.previous) && (k > 7 ==> m.dropIn == Some(j.candidate))
    && (k == 10 ==> AsCommitted(m, j))
  }

  lemma ReadyBegins(m: Machine, m': Machine, j: Journal, j': Journal, k: nat)
    requires 1 <= k <= 9 && Ready(m, j, k) && j' == j.(step := k, state := StateAt(k, j.state))
    requires m' == WithJournal(m, j')
    ensures Begun(m', j', k) && m'.guard == m.guard && m'.journal.Some? && m'.journal.value.id == j.id
  {
  }
}
