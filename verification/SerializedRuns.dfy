/**
 * The promise chains of `Flights` and the claims of `ApprovalRuns` together: why a claim always finds its instance
 * free.
 */
module SerializedRuns {
  import opened Wrappers
  import opened ApprovalRows
  import opened ApprovalRuns
  import F = Flights

  /** The event loop, the cell, and which task claimed each row that is being carried out. */
  datatype Kernel = Kernel(loop: F.Loop, cell: Cell, owner: map<Instance, nat>)

  datatype Move =
    | Callback(turn: F.Event)
    | Task(task: nat, event: Event)
    | Elsewhere(event: Event)
    | Death

  predicate Running(k: Kernel, t: nat, inst: Instance) {
    t < |k.loop.tasks| && k.loop.tasks[t].instance == inst && k.loop.tasks[t].phase == F.Running
  }

  /** Task `t` is in the middle of a decision. */
  predicate Busy(k: Kernel, t: nat) {
    exists inst | inst in k.cell.flights :: inst in k.owner && k.owner[inst] == t
  }

  /**
   * What the code of one task may do (actions.ts:65-92): it runs under the instance of the rows it decides, one
   * decision after the other, and settles only when its last decision has ended.
   */
  predicate KernelStep(k: Kernel, m: Move, k': Kernel) {
    match m
    case Callback(e) =>
      && F.Enabled(k.loop, e) && (e.Finish? ==> !Busy(k, e.task))
      && k' == k.(loop := F.Next(k.loop, e))
    case Task(t, Claimed(i, v)) =>
      && Eligible(k.cell, i, v) && Running(k, t, k.cell.rows[i].instance) && !Busy(k, t)
      && k' == k.(cell := Claim(k.cell, i, v), owner := k.owner[k.cell.rows[i].instance := t])
    case Task(t, Decided(inst)) =>
      && inst in k.owner && k.owner[inst] == t && Step(k.cell, Decided(inst), k'.cell) && k' == k.(cell := k'.cell)
    case Task(t, GaveUp(inst)) => inst in k.owner && k.owner[inst] == t && k' == k.(cell := Abort(k.cell, inst))
    case Task(_, _) => false
    case Elsewhere(e) => (e.Driver? || e.Submission?) && Step(k.cell, e, k'.cell) && k' == k.(cell := k'.cell)
    case Death => k' == Kernel(F.IDLE, Crash(k.cell), map[])
  }

  /** Every decision being carried out belongs to a task of its instance that is running. */
  predicate FlightsOwned(k: Kernel) {
    forall inst | inst in k.cell.flights :: inst in k.owner && Running(k, k.owner[inst], inst)
  }

  predicate KernelGood(k: Kernel) {
    F.LoopGood(k.loop) && CellGood(k.cell) && FlightsOwned(k)
  }

  lemma OwnerIsBusy(k: Kernel, inst: Instance)
    requires inst in k.cell.flights && inst in k.owner
    ensures Busy(k, k.owner[inst])
  {
  }

  /** No other decision of the instance is being carried out when one is claimed. */
  lemma ClaimFindsNoFlight(k: Kernel, t: nat, i: nat, v: Decision, k': Kernel)
    requires KernelGood(k) && KernelStep(k, Task(t, Claimed(i, v)), k')
    ensures k.cell.rows[i].instance !in k.cell.flights
  {
    var inst := k.cell.rows[i].instance;
    if inst in k.cell.flights {
      hide F.LoopGood, CellGood;
      OwnerIsBusy(k, inst);
      F.AtMostOneRunning(k.loop, k.owner[inst], t);
    }
  }

  /** The step of the cell behind a move of the kernel, if there is one. */
  function CellEvent(m: Move): Option<Event> {
    match m
    case Callback(_) => None
    case Task(_, e) => Some(e)
    case Elsewhere(e) => Some(e)
    case Death => Some(Restart)
  }

  lemma MoveIsStep(k: Kernel, m: Move, k': Kernel)
    requires KernelGood(k) && KernelStep(k, m, k')
    ensures match CellEvent(m) case None => k'.cell == k.cell case Some(e) => Step(k.cell, e, k'.cell)
  {
    hide F.LoopGood, CellGood, Eligible, KitMoves, Answered;
    if m.Task? && m.event.Claimed? { ClaimFindsNoFlight(k, m.task, m.event.row, m.event.decision, k'); }
  }

  lemma CallbackKeepsOwned(k: Kernel, e: F.Event, k': Kernel)
    requires KernelGood(k) && KernelStep(k, Callback(e), k')
    ensures FlightsOwned(k')
  {
    hide F.LoopGood, CellGood;
    forall inst | inst in k'.cell.flights ensures inst in k'.owner && Running(k', k'.owner[inst], inst) {
      OwnerIsBusy(k, inst);
      assert Running(k, k.owner[inst], inst);
    }
  }

  lemma IdleIsGood()
    ensures F.LoopGood(F.IDLE)
  {
  }

  lemma MoveKeepsOwned(k: Kernel, m: Move, k': Kernel)
    requires FlightsOwned(k) && KernelStep(k, m, k') && !m.Callback?
    ensures FlightsOwned(k')
  {
    hide Eligible, Answered;
    if m.Elsewhere? { assert k'.cell.flights == k.cell.flights; }
  }

  lemma MoveKeepsGood(k: Kernel, m: Move, k': Kernel)
    requires KernelGood(k) && KernelStep(k, m, k')
    ensures KernelGood(k')
  {
    MoveIsStep(k, m, k');
    if m.Callback? {
      CallbackKeepsOwned(k, m.turn, k');
      F.NextKeepsGood(k.loop, m.turn);
    } else {
      IdleIsGood();
      hide F.LoopGood, CellGood, Eligible, KitMoves, Answered, Step;
      StepKeepsGood(k.cell, CellEvent(m).value, k'.cell);
      MoveKeepsOwned(k, m, k');
      hide FlightsOwned;
    }
  }

  ghost predicate IsKernelRun(run: seq<Kernel>, moves: seq<Move>) {
    && |run| == |moves| + 1 && KernelGood(run[0])
    && forall i | 0 <= i < |moves| :: KernelStep(run[i], moves[i], run[i + 1])
  }

  lemma {:induction false} KernelRunGood(run: seq<Kernel>, moves: seq<Move>, i: nat)
    requires IsKernelRun(run, moves) && i < |run|
    ensures KernelGood(run[i])
  {
    if i > 0 {
      KernelRunGood(run, moves, i - 1);
      MoveKeepsGood(run[i - 1], moves[i - 1], run[i]);
    }
  }

  /**
   * Every run of the kernel is, as far as rows and journals go, a run of `ApprovalRuns`: the serialization supplies the
   * condition under which a row is claimed there.
   */
  lemma {:induction false} KernelRunsAreRuns(run: seq<Kernel>, moves: seq<Move>, i: nat)
    returns (cells: seq<Cell>, events: seq<Event>)
    requires IsKernelRun(run, moves) && i < |run|
    ensures IsRun(cells, events) && cells[0] == run[0].cell && cells[|events|] == run[i].cell
  {
    if i == 0 {
      cells, events := [run[0].cell], [];
    } else {
      cells, events := KernelRunsAreRuns(run, moves, i - 1);
      KernelRunGood(run, moves, i - 1);
      MoveIsStep(run[i - 1], moves[i - 1], run[i]);
      hide CellGood, KernelGood, KernelStep, Step;
      match CellEvent(moves[i - 1])
      case None =>
      case Some(e) =>
        RunExtended(cells, events, e, run[i].cell);
        cells, events := cells + [run[i].cell], events + [e];
    }
  }

  lemma RunExtended(cells: seq<Cell>, events: seq<Event>, e: Event, c: Cell)
    requires IsRun(cells, events) && Step(cells[|events|], e, c)
    ensures IsRun(cells + [c], events + [e])
  {
    hide CellGood, Step;
  }

  /** At every moment at most one task is inside a decision of an instance, and it is that instance's running task. */
  lemma OneDecisionAtATime(run: seq<Kernel>, moves: seq<Move>, i: nat, inst: Instance, t: nat)
    requires IsKernelRun(run, moves) && i < |run| && inst in run[i].cell.flights && Running(run[i], t, inst)
    ensures inst in run[i].owner && run[i].owner[inst] == t
  {
    KernelRunGood(run, moves, i);
    hide CellGood, F.LoopGood;
    F.AtMostOneRunning(run[i].loop, run[i].owner[inst], t);
  }
}
