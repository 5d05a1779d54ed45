/**
 * Serialized decisions and ordered automatic draining over the rows of one kernel (actions.ts, class
 * `ActionCoordinator`).
 */
module ActionCoordinator {
  import opened Wrappers
  import opened KitJournal
  import opened ApprovalRows
  import opened ApprovalRuns

  datatype Outcome = Returned | Threw | Died

  /**
   * The rest of the kernel process: what happens on other instances and in submissions while a decision waits, whether
   * authority resolves, what the driver answers, which audit writes go through, when the coordinator is stopped.
   */
  datatype KernelHost = KernelHost(rounds: nat -> nat, other: (nat, Cell) -> (Event, Cell), authorizes: nat -> bool,
                                   answer: (nat, Cell) -> (Outcome, Cell), audit: nat -> Outcome, stopped: nat -> bool)

  ghost predicate AuditWorks(h: KernelHost) {
    forall t: nat :: h.audit(t) == Returned
  }

  /** An event that is not a decision on instance `inst`, nor a crash. */
  predicate Elsewhere(c: Cell, e: Event, inst: Instance) {
    match e
    case Driver(_) => true
    case Submission(_, _) => true
    case Claimed(i, _) => i < |c.rows| && c.rows[i].instance != inst
    case Decided(x) => x != inst
    case GaveUp(x) => x != inst
    case Restart => false
  }

  /** Rows of `inst` other than `i` keep their status; new ones are pending. */
  predicate OnlyRow(c: Cell, c': Cell, inst: Instance, i: nat) {
    && |c.rows| <= |c'.rows|
    && (forall k | 0 <= k < |c.rows| :: c'.rows[k].instance == c.rows[k].instance)
    && (forall k | 0 <= k < |c.rows| && c.rows[k].instance == inst && k != i :: c'.rows[k] == c.rows[k])
    && (forall k | |c.rows| <= k < |c'.rows| && c'.rows[k].instance == inst :: c'.rows[k].status == RowPending)
  }

  /** Nothing was decided on `inst`. */
  predicate Undisturbed(c: Cell, c': Cell, inst: Instance) {
    && OnlyRow(c, c', inst, |c.rows|)
    && (inst in c'.flights <==> inst in c.flights)
    && (inst in c.flights ==> c'.flights[inst] == c.flights[inst])
  }

  lemma ElsewhereUndisturbed(c: Cell, e: Event, c': Cell, inst: Instance)
    requires CellGood(c) && Step(c, e, c') && Elsewhere(c, e, inst)
    ensures Undisturbed(c, c', inst)
  {
    hide CellGood, KitMoves, HeadOfQueue, Answered;
    match e
    case Driver(x) => KitMovesOnlyKits(c, c', x);
    case Submission(x, id) =>
    case Claimed(i, v) =>
    case Decided(x) => FlightIsKnown(c, x); DecidedElsewhere(c, x, inst);
    case GaveUp(x) =>
    case Restart =>
  }

  lemma DecidedElsewhere(c: Cell, x: Instance, inst: Instance)
    requires x in c.flights && FlightKnown(c, x) && x != inst
    ensures Undisturbed(c, Decide(c, x), inst)
  {
  }

  lemma FlightIsKnown(c: Cell, inst: Instance)
    requires CellGood(c) && inst in c.flights
    ensures FlightKnown(c, inst)
  {
  }

  lemma KitMovesOnlyKits(c: Cell, c': Cell, inst: Instance)
    requires KitMoves(c, c', inst)
    ensures c'.rows == c.rows && c'.flights == c.flights
  {
  }

  lemma UndisturbedTwice(c: Cell, c1: Cell, c2: Cell, inst: Instance)
    requires Undisturbed(c, c1, inst) && Undisturbed(c1, c2, inst)
    ensures Undisturbed(c, c2, inst)
  {
  }

  predicate AutoApprovable(d: Description, tags: set<string>) {
    d.autoApprovable && !d.awaitDecision && d.actionKind.Some? && d.actionKind.value in tags
  }

  /** The rows one drain pass is meant to attempt: decided rows are passed over, the first other obstacle ends it. */
  function EligibleRun(rows: seq<Row>, from: nat, inst: Instance, tags: set<string>): (run: seq<nat>)
    requires from <= |rows|
    ensures forall k | k in run :: from <= k < |rows|
    decreases |rows| - from
  {
    if from == |rows| then []
    else if rows[from].instance != inst || !Open(rows[from].status) then EligibleRun(rows, from + 1, inst, tags)
    else if rows[from].status == RowFailed || !AutoApprovable(rows[from].description, tags) then []
    else [from] + EligibleRun(rows, from + 1, inst, tags)
  }

  /**
   * It is the longest such run: up to `limit` it holds exactly the pending rows, all of them eligible and none failed,
   * in order; at `limit` the rows end, or stands an open row that is failed or ineligible.
   */
  lemma {:induction false} EligibleRunIsLongest(rows: seq<Row>, from: nat, inst: Instance, tags: set<string>)
    returns (limit: nat)
    requires from <= |rows|
    ensures from <= limit <= |rows|
    ensures forall k | from <= k < |rows| :: k in EligibleRun(rows, from, inst, tags) <==>
                                             k < limit && rows[k].instance == inst && rows[k].status == RowPending
    ensures forall k | from <= k < limit && rows[k].instance == inst && Open(rows[k].status) ::
              rows[k].status == RowPending && AutoApprovable(rows[k].description, tags)
    ensures limit < |rows| ==> rows[limit].instance == inst && Open(rows[limit].status)
                               && (rows[limit].status == RowFailed || !AutoApprovable(rows[limit].description, tags))
    ensures forall a, b | 0 <= a < b < |EligibleRun(rows, from, inst, tags)| ::
              EligibleRun(rows, from, inst, tags)[a] < EligibleRun(rows, from, inst, tags)[b]
    decreases |rows| - from
  {
    if from == |rows| { return from; }
    var r, all := rows[from], EligibleRun(rows, from, inst, tags);
    if r.instance == inst && Open(r.status) && (r.status == RowFailed || !AutoApprovable(r.description, tags)) {
      return from;
    }
    limit := EligibleRunIsLongest(rows, from + 1, inst, tags);
    forall k | from <= k < |rows|
      ensures k in EligibleRun(rows, from, inst, tags) <==>
                k < limit && rows[k].instance == inst && rows[k].status == RowPending
    {
      assert k in EligibleRun(rows, from, inst, tags) <==>
             (k == from && r.instance == inst && Open(r.status)) || k in EligibleRun(rows, from + 1, inst, tags);
    }
    forall a, b | 0 <= a < b < |all| ensures all[a] < all[b] {
      var rest := EligibleRun(rows, from + 1, inst, tags);
      if all != rest {
        assert all[b] == rest[b - 1] && rest[b - 1] in rest;
        assert a > 0 ==> all[a] == rest[a - 1];
      }
    }
  }

  /**
   * What a decision leaves behind: an untouched row without authority; with it, the verdict on a normal return, and
   * otherwise a failed row, or the verdict already recorded when the audit write behind it failed (actions.ts:83-84).
   * Nothing else on the instance changes.
   */
  predicate Performed(c: Cell, c': Cell, i: nat, v: Decision, o: Outcome, authorized: bool)
    requires i < |c.rows| <= |c'.rows|
  {
    && OnlyRow(c, c', c.rows[i].instance, i) && c.rows[i].instance !in c'.flights
    && (if !authorized then o == Threw && c'.rows[i] == c.rows[i]
        else c'.rows[i].status == Verdict(v) || (o != Returned && c'.rows[i].status == RowFailed))
  }

  ghost predicate MayStop(h: KernelHost) {
    exists t: nat :: h.stopped(t)
  }

  class ActionCoordinator {
    const host: KernelHost
    var tick: nat
    var cell: GoodCell

    constructor (found: GoodCell, host: KernelHost)
      ensures cell == found && this.host == host
    {
      this.host := host;
      tick := 0;
      cell := found;
    }

    /** Whatever else happens while a decision on `inst` waits. */
    method Others(inst: Instance)
      modifies this
      ensures Extends(old(cell), cell) && Undisturbed(old(cell), cell, inst)
    {
      ExtendsItself(cell);
      var rounds := host.rounds(tick);
      while rounds > 0
        invariant Extends(old(cell), cell) && Undisturbed(old(cell), cell, inst)
      {
        hide CellGood, Extends, Undisturbed, Step, Elsewhere;
        var (e, next) := host.other(tick, cell);
        tick := tick + 1;
        if Step(cell, e, next) && Elsewhere(cell, e, inst) {
          ghost var before := cell;
          StepKeepsGood(cell, e, next);
          ElsewhereUndisturbed(cell, e, next, inst);
          StepExtends(cell, e, next);
          cell := next;
          UndisturbedTwice(old(cell), before, cell, inst);
          ExtendsTwice(old(cell), before, cell);
        }
        rounds := rounds - 1;
      }
    }

    /** The driver's lifecycle method for a claimed row; by its contract a normal return means the action got there. */
    method AskDriver(inst: Instance, id: nat, v: Decision) returns (o: Outcome)
      requires inst in cell.kits
      modifies this
      ensures Extends(old(cell), cell) && Undisturbed(old(cell), cell, inst) && inst in cell.kits
      ensures o == Returned ==> Answered(cell.kits[inst], id, v)
    {
      ExtendsItself(cell);
      var (answer, next) := host.answer(tick, cell);
      tick := tick + 1;
      if !KitMoves(cell, next, inst) || (answer == Returned && !Answered(next.kits[inst], id, v)) { return Threw; }
      StepExtends(cell, Driver(inst), next);
      KitMovesKeepsGood(cell, next, inst);
      cell := next;
      o := answer;
    }

    /** One line of the audit log; `Threw` and `Died` leave the rest of the decision undone. */
    method Audit() returns (o: Outcome)
      modifies this`tick
      ensures AuditWorks(host) ==> o == Returned
    {
      o := host.audit(tick);
      tick := tick + 1;
    }

    /** The flight ends: with the decision, or with the whole process. */
    method EndFlight(inst: Instance, o: Outcome)
      modifies this
      ensures Extends(old(cell), cell) && cell.rows == old(cell).rows && inst !in cell.flights
      ensures cell.kits == old(cell).kits
    {
      var next := if o == Died then Crash(cell) else Abort(cell, inst);
      DropFlightsKeepsGood(cell, next);
      StepExtends(cell, if o == Died then Restart else GaveUp(inst), next);
      hide CellGood, Leads;
      cell := next;
    }

    /** The driver is asked, and its normal return recorded (actions.ts:79-88). */
    method CarryOut(i: nat, v: Decision) returns (o: Outcome)
      requires i < |cell.rows| && cell.rows[i].instance in cell.flights
      requires cell.flights[cell.rows[i].instance] == Flight(i, v)
      modifies this
      ensures Extends(old(cell), cell) && OnlyRow(old(cell), cell, old(cell).rows[i].instance, i)
      ensures cell.rows[i].status == Verdict(v) || (o != Returned && cell.rows[i] == old(cell).rows[i])
      ensures AuditWorks(host) && o != Returned ==> cell.rows[i] == old(cell).rows[i]
      ensures cell.rows[i].instance !in cell.flights
    {
      hide CellGood, Leads, Extends, Answered, AuditWorks;
      ghost var before := cell;
      var inst := cell.rows[i].instance;
      RowIsKnown(cell, i);
      o := AskDriver(inst, cell.rows[i].actionId, v);
      ghost var answered := cell;
      FlightKept(before, answered, inst, i, v);
      if o == Returned {
        DecideKeepsGood(cell, inst);
        StepExtends(cell, Decided(inst), Decide(cell, inst));
        cell := Decide(cell, inst);
        ExtendsTwice(before, answered, cell);
        ghost var decided := cell;
        o := Audit();
        if o != Returned {
          var again := Audit();
          if again == Died { o := Died; }
          EndFlight(inst, o);
          ExtendsTwice(before, decided, cell);
        }
      } else {
        var again := Audit();
        if again == Died { o := Died; }
        EndFlight(inst, o);
        ExtendsTwice(before, answered, cell);
      }
    }

    /**
     * The claim, its audit line, the effect, and its verdict; a crash takes every flight with it (actions.ts:76-88).
     */
    method Carry(i: nat, v: Decision) returns (o: Outcome)
      requires Eligible(cell, i, v) && cell.rows[i].instance !in cell.flights
      modifies this
      ensures Extends(old(cell), cell) && OnlyRow(old(cell), cell, old(cell).rows[i].instance, i)
      ensures cell.rows[i].status == Verdict(v) || (o != Returned && cell.rows[i].status == RowFailed)
      ensures AuditWorks(host) && o != Returned ==> cell.rows[i].status == RowFailed
      ensures cell.rows[i].instance !in cell.flights
    {
      hide CellGood, Leads, Extends, HeadOfQueue, AuditWorks;
      ghost var before := cell;
      ClaimKeepsGood(cell, i, v);
      StepExtends(cell, Claimed(i, v), Claim(cell, i, v));
      cell := Claim(cell, i, v);
      ghost var claimed := cell;
      o := Audit();
      if o != Returned {
        EndFlight(cell.rows[i].instance, o);
      } else {
        o := CarryOut(i, v);
      }
      ExtendsTwice(before, claimed, cell);
    }

    /** Authority is resolved while the rest of the process goes on; only then is the row claimed. */
    method Pursue(i: nat, v: Decision) returns (o: Outcome, authorized: bool)
      requires Eligible(cell, i, v) && cell.rows[i].instance !in cell.flights
      modifies this
      ensures Extends(old(cell), cell) && |old(cell).rows| <= |cell.rows|
      ensures Performed(old(cell), cell, i, v, o, authorized)
      ensures AuditWorks(host) && authorized && o != Returned ==> cell.rows[i].status == RowFailed
      ensures exists t: nat :: authorized == host.authorizes(t)
    {
      hide CellGood, Extends, HeadOfQueue, Leads, RowKnown;
      var inst := cell.rows[i].instance;
      Others(inst);
      ghost var waited := cell;
      StillEligible(old(cell), cell, i, v);
      authorized := host.authorizes(tick);
      tick := tick + 1;
      o := Threw;
      if authorized {
        o := Carry(i, v);
        ExtendsTwice(old(cell), waited, cell);
        OnlyRowTwice(old(cell), waited, cell, inst, i);
      } else {
        UndisturbedPerformed(old(cell), cell, i, v);
      }
    }

    /** One decision (actions.ts:65): refused without a trace, or claimed and carried out, or left `failed` for good. */
    method Perform(i: nat, v: Decision) returns (o: Outcome, authorized: bool)
      requires i < |cell.rows| ==> cell.rows[i].instance !in cell.flights
      modifies this
      ensures Extends(old(cell), cell) && |old(cell).rows| <= |cell.rows|
      ensures !Eligible(old(cell), i, v) ==> o == Threw && cell == old(cell)
      ensures Eligible(old(cell), i, v) ==> Performed(old(cell), cell, i, v, o, authorized)
      ensures Eligible(old(cell), i, v) && authorized && o != Returned && AuditWorks(host) ==>
                cell.rows[i].status == RowFailed
      ensures Eligible(old(cell), i, v) ==> exists t: nat :: authorized == host.authorizes(t)
    {
      ExtendsItself(cell);
      if Eligible(cell, i, v) {
        o, authorized := Pursue(i, v);
      } else {
        o, authorized := Threw, false;
      }
    }

    /** One automatic attempt, which must succeed for the pass to go on. */
    method Attempt(inst: Instance, i: nat) returns (succeeded: bool)
      requires i < |cell.rows| && cell.rows[i].instance == inst && cell.rows[i].status == RowPending
      requires inst !in cell.flights
      modifies this
      ensures Extends(old(cell), cell) && |old(cell).rows| <= |cell.rows| && inst !in cell.flights
      ensures cell.rows[i].instance == inst && (succeeded ==> cell.rows[i].status == RowApplied)
      ensures AuditWorks(host) && !succeeded ==> cell.rows[i].status != RowApplied
      ensures forall q | 0 <= q < |old(cell).rows| && old(cell).rows[q].instance == inst && q != i ::
                cell.rows[q] == old(cell).rows[q]
    {
      hide CellGood, Leads, HeadOfQueue;
      var o, _ := Perform(i, ToApply);
      succeeded := o == Returned;
    }

    /**
     * One automatic pass over an instance: it attempts, in order, a prefix of the longest eligible run, every attempt
     * but the last succeeds, and it stops short of the whole run only when stopped or when its last attempt did not
     * succeed.
     */
    method Drain(inst: Instance, tags: set<string>) returns (attempts: seq<nat>, succeeded: bool, stopped: bool)
      requires inst !in cell.flights
      modifies this
      ensures Extends(old(cell), cell)
      ensures attempts <= EligibleRun(old(cell).rows, 0, inst, tags)
      ensures Drained(old(cell).rows, cell.rows, attempts, inst, succeeded)
      ensures succeeded ==> stopped || attempts == EligibleRun(old(cell).rows, 0, inst, tags)
      ensures !succeeded && AuditWorks(host) ==> LastNotApplied(cell.rows, attempts)
      ensures stopped ==> MayStop(host)
    {
      hide CellGood, Extends, EligibleRun, Drained, Below, MayStop, AuditWorks, LastNotApplied;
      ExtendsItself(cell);
      var rows := cell.rows;
      DrainStarts(rows, inst, tags);
      attempts, succeeded, stopped := [], true, false;
      var k, going := 0, true;
      while k < |rows| && going
        invariant k <= |rows| && inst !in cell.flights && Extends(old(cell), cell)
        invariant Drained(rows, cell.rows, attempts, inst, succeeded) && Below(attempts, k)
        invariant going ==> succeeded && attempts + EligibleRun(rows, k, inst, tags) == EligibleRun(rows, 0, inst, tags)
        invariant !going ==> attempts <= EligibleRun(rows, 0, inst, tags)
                             && (succeeded ==> stopped || attempts == EligibleRun(rows, 0, inst, tags))
        invariant !succeeded && AuditWorks(host) ==> !going && LastNotApplied(cell.rows, attempts)
        invariant stopped ==> MayStop(host)
      {
        ghost var before := cell;
        attempts, going, succeeded, stopped := Consider(rows, k, attempts, inst, tags);
        ExtendsTwice(old(cell), before, cell);
        k := k + 1;
      }
      EligibleRunUnfolds(rows, |rows|, inst, tags);
    }

    /** One row of the pass. */
    method Consider(rows: seq<Row>, k: nat, attempts: seq<nat>, inst: Instance, tags: set<string>)
      returns (next: seq<nat>, going: bool, succeeded: bool, stopped: bool)
      requires k < |rows| && inst !in cell.flights && Drained(rows, cell.rows, attempts, inst, true)
      requires Below(attempts, k)
      modifies this
      ensures Extends(old(cell), cell) && inst !in cell.flights
      ensures Drained(rows, cell.rows, next, inst, succeeded) && Below(next, k + 1)
      ensures going ==>
                succeeded && next + EligibleRun(rows, k + 1, inst, tags) == attempts + EligibleRun(rows, k, inst, tags)
      ensures !going ==> next <= attempts + EligibleRun(rows, k, inst, tags)
                         && (succeeded ==> stopped || next == attempts + EligibleRun(rows, k, inst, tags))
      ensures !succeeded && AuditWorks(host) ==> LastNotApplied(cell.rows, next)
      ensures stopped ==> MayStop(host)
    {
      hide CellGood, Extends, HeadOfQueue, EligibleRun, AutoApprovable, Drained, AuditWorks, MayStop;
      StopSeen(host, tick);
      ExtendsItself(cell);
      EligibleRunUnfolds(rows, k, inst, tags);
      next, going, succeeded, stopped := attempts, true, true, false;
      if rows[k].instance != inst { return; }
      stopped := host.stopped(tick);
      tick := tick + 1;
      if stopped || rows[k].status == RowFailed {
        going := false;
      } else if rows[k].status == RowPending {
        if AutoApprovable(rows[k].description, tags) {
          NotYetAttempted(rows, cell.rows, attempts, inst, k);
          ghost var before := cell;
          succeeded := Attempt(inst, k);
          DrainedStep(rows, before.rows, cell.rows, attempts, inst, k, succeeded);
          next, going := attempts + [k], succeeded;
          OneMore(attempts, k, EligibleRun(rows, k + 1, inst, tags));
        } else {
          going := false;
        }
      }
    }
  }

  lemma OneMore(attempts: seq<nat>, k: nat, rest: seq<nat>)
    ensures attempts + [k] + rest == attempts + ([k] + rest) && attempts + [k] <= attempts + ([k] + rest)
    ensures attempts <= attempts + rest
  {
  }

  /** The last attempt did not get its row applied. */
  predicate LastNotApplied(now: seq<Row>, attempts: seq<nat>) {
    attempts != [] && var k := attempts[|attempts| - 1]; k < |now| && now[k].status != RowApplied
  }

  predicate Below(attempts: seq<nat>, k: nat) {
    attempts != [] ==> attempts[|attempts| - 1] < k
  }

  /**
   * The state of a pass: increasing attempts, all applied but perhaps the last, everything else on the instance
   * untouched.
   */
  predicate Drained(rows: seq<Row>, now: seq<Row>, attempts: seq<nat>, inst: Instance, succeeded: bool) {
    && |rows| <= |now|
    && (forall a | 0 <= a < |attempts| :: attempts[a] < |rows| && now[attempts[a]].instance == inst)
    && (forall a | 0 <= a < |attempts| && (succeeded || a < |attempts| - 1) :: now[attempts[a]].status == RowApplied)
    && (succeeded || attempts != [])
    && (forall a, b | 0 <= a < b < |attempts| :: attempts[a] < attempts[b])
    && (forall q | 0 <= q < |rows| && rows[q].instance == inst && q !in attempts :: now[q] == rows[q])
  }

  lemma DrainStarts(rows: seq<Row>, inst: Instance, tags: set<string>)
    ensures Drained(rows, rows, [], inst, true) && Below([], 0)
    ensures [] + EligibleRun(rows, 0, inst, tags) == EligibleRun(rows, 0, inst, tags)
  {
  }

  lemma NotYetAttempted(rows: seq<Row>, now: seq<Row>, attempts: seq<nat>, inst: Instance, k: nat)
    requires Drained(rows, now, attempts, inst, true) && k < |rows| && rows[k].instance == inst
    requires Below(attempts, k)
    ensures |rows| <= |now| && now[k] == rows[k]
  {
  }

  lemma AttemptsBelow(attempts: seq<nat>, k: nat)
    requires Below(attempts, k) && forall a, b | 0 <= a < b < |attempts| :: attempts[a] < attempts[b]
    ensures forall a | 0 <= a < |attempts| :: attempts[a] < k
  {
  }

  lemma DrainedStep(rows: seq<Row>, now: seq<Row>, now': seq<Row>, attempts: seq<nat>, inst: Instance, k: nat,
                    succeeded: bool)
    requires Drained(rows, now, attempts, inst, true) && k < |rows| && rows[k].instance == inst
    requires Below(attempts, k)
    requires |now| <= |now'| && k < |now| && now'[k].instance == inst && (succeeded ==> now'[k].status == RowApplied)
    requires forall q | 0 <= q < |now| && now[q].instance == inst && q != k :: now'[q] == now[q]
    ensures Drained(rows, now', attempts + [k], inst, succeeded)
  {
    var all := attempts + [k];
    assert all[|attempts|] == k && forall a | 0 <= a < |attempts| :: all[a] == attempts[a];
    assert forall a | 0 <= a < |attempts| :: attempts[a] < k by { AttemptsBelow(attempts, k); }
    forall q | 0 <= q < |rows| && rows[q].instance == inst && q !in all ensures now'[q] == rows[q] {
      assert q != k && q !in attempts;
    }
  }

  lemma StopSeen(h: KernelHost, t: nat)
    ensures h.stopped(t) ==> MayStop(h)
  {
  }

  lemma EligibleRunUnfolds(rows: seq<Row>, k: nat, inst: Instance, tags: set<string>)
    requires k <= |rows|
    ensures k == |rows| ==> EligibleRun(rows, k, inst, tags) == []
    ensures k < |rows| ==>
              EligibleRun(rows, k, inst, tags) ==
              if rows[k].instance != inst || !Open(rows[k].status) then EligibleRun(rows, k + 1, inst, tags)
              else if rows[k].status == RowFailed || !AutoApprovable(rows[k].description, tags) then []
              else [k] + EligibleRun(rows, k + 1, inst, tags)
  {
  }

  /** The flight of a decision is still there when its driver has answered. */
  lemma FlightKept(c: Cell, c': Cell, inst: Instance, i: nat, v: Decision)
    requires Undisturbed(c, c', inst) && Extends(c, c') && i < |c.rows| && c.rows[i].instance == inst
    requires inst in c.flights && c.flights[inst] == Flight(i, v)
    ensures |c.rows| <= |c'.rows| && inst in c'.flights && c'.flights[inst] == Flight(i, v) && c'.rows[i] == c.rows[i]
  {
  }

  lemma RowIsKnown(c: Cell, i: nat)
    requires CellGood(c) && i < |c.rows|
    ensures RowKnown(c, c.rows[i])
  {
  }

  /** Waiting does not cost a decision its eligibility: only later rows appear. */
  lemma StillEligible(c: Cell, c': Cell, i: nat, v: Decision)
    requires Eligible(c, i, v) && Undisturbed(c, c', c.rows[i].instance) && Extends(c, c')
    ensures Eligible(c', i, v)
  {
  }

  lemma UndisturbedPerformed(c: Cell, c': Cell, i: nat, v: Decision)
    requires i < |c.rows| && Undisturbed(c, c', c.rows[i].instance) && c.rows[i].instance !in c.flights
    ensures Performed(c, c', i, v, Threw, false)
  {
  }

  lemma OnlyRowTwice(c: Cell, c1: Cell, c2: Cell, inst: Instance, i: nat)
    requires i < |c.rows| && Undisturbed(c, c1, inst) && OnlyRow(c1, c2, inst, i)
    ensures OnlyRow(c, c2, inst, i)
  {
  }
}
