/** The drivers of the kit under the kernel's queue: what `KitGatekeeper` does is what `ApprovalRuns` steps by. */
module ApprovalDrivers {
  import opened Wrappers
  import opened KitJournal
  import opened ApprovalRows
  import opened ApprovalRuns
  import Kit = KitGatekeeper

  /** The cell with the journal of one driver replaced. */
  function WithKit(c: Cell, inst: Instance, d: Disk): Cell {
    c.(kits := c.kits[inst := d])
  }

  lemma KitStep(c: Cell, inst: Instance, d: Disk)
    requires CellGood(c) && inst in c.kits && DiskGood(d) && Leads(c.kits[inst], d)
    ensures Step(c, Driver(inst), WithKit(c, inst, d)) && CellGood(WithKit(c, inst, d))
  {
    hide CellGood, DiskGood, Leads;
    KitMovesKeepsGood(c, WithKit(c, inst, d), inst);
  }

  /**
   * A lifecycle call for a decision: one driver step of the run, however it ends and wherever it dies, and a normal
   * return means what the queue records of it.
   */
  method Decision(k: Kit.KitGatekeeper, v: Decision, id: nat, c: Cell, inst: Instance)
    returns (o: Kit.Outcome, next: Cell)
    requires k.Valid() && CellGood(c) && inst in c.kits && c.kits[inst] == k.disk
    modifies k
    ensures k.Valid() && next == WithKit(c, inst, k.disk) && Step(c, Driver(inst), next) && CellGood(next)
    ensures o == Kit.Returned ==> Answered(k.disk, id, v)
  {
    hide CellGood, Leads, DiskGood, Agrees, Kit.OnlyRecord, Settled, CanApply;
    match v {
      case ToApply => o := k.ApplyRecorded(id);
      case ToReject => o := k.RejectAction(id);
      case ToRevert => o := k.RevertAction(id);
    }
    KitStep(c, inst, k.disk);
    next := WithKit(c, inst, k.disk);
  }

  /** The start of a session is a driver step as well. */
  method Opening(k: Kit.KitGatekeeper, c: Cell, inst: Instance) returns (o: Kit.Outcome, next: Cell)
    requires k.Valid() && CellGood(c) && inst in c.kits && c.kits[inst] == k.disk
    modifies k
    ensures k.Valid() && next == WithKit(c, inst, k.disk) && Step(c, Driver(inst), next) && CellGood(next)
  {
    hide CellGood, Leads, DiskGood, Agrees, Settled, Missing;
    var outcome, _ := k.RecoverOverlay();
    o := outcome;
    KitStep(c, inst, k.disk);
    next := WithKit(c, inst, k.disk);
  }

  /** The run of one submission: the driver up to the queue, the insertion if it happened, the driver again. */
  function SubmissionEvents(inst: Instance, id: nat, inserted: bool): seq<Event> {
    if inserted then [Driver(inst), Submission(inst, id), Driver(inst)] else [Driver(inst), Driver(inst)]
  }

  function SubmissionRun(c: Cell, inst: Instance, id: nat, offered: Disk, last: Disk, inserted: bool): seq<Cell>
    requires id in offered.records
  {
    var asked := WithKit(c, inst, offered);
    if inserted then [c, asked, Enqueue(asked, inst, id), WithKit(Enqueue(asked, inst, id), inst, last)]
    else [c, asked, WithKit(asked, inst, last)]
  }

  /** `action` has a pending row at the end of the queue. */
  predicate QueuedLast(c: Cell, inst: Instance, id: nat, description: Description) {
    c.rows != [] && c.rows[|c.rows| - 1] == Row(inst, id, description, RowPending)
  }

  lemma SubmissionIsRun(c: Cell, inst: Instance, id: nat, offered: Disk, last: Disk, r: ActionRecord, inserted: bool)
    requires CellGood(c) && inst in c.kits && id !in c.kits[inst].records && r.status == Submitting
    requires Kit.Between(c.kits[inst], offered, last, id, r) && DiskGood(last)
    ensures var run := SubmissionRun(c, inst, id, offered, last, inserted);
            && IsRun(run, SubmissionEvents(inst, id, inserted)) && run[0] == c && CellGood(run[|run| - 1])
            && inst in run[|run| - 1].kits && run[|run| - 1].kits[inst] == last
            && (inserted ==>
                 QueuedLast(run[|run| - 1], inst, id, r.description) && |run[|run| - 1].rows| == |c.rows| + 1)
  {
    hide CellGood, DiskGood, Leads;
    var asked := WithKit(c, inst, offered);
    KitStep(c, inst, offered);
    if inserted {
      ReservedIdHasNoRow(c, inst, id);
      EnqueueKeepsGood(asked, inst, id);
      KitStep(Enqueue(asked, inst, id), inst, last);
    } else {
      KitStep(asked, inst, last);
    }
  }

  /**
   * One submission is a run of at most three steps: the driver makes its record durable, the queue takes the row, the
   * driver goes on. `inserted` says whether a queue whose answer never arrived had taken the row. After a normal return
   * the row is there, pending, with the description of the record.
   */
  method Submit(k: Kit.KitGatekeeper, tool: string, params: string, description: Description, callKey: Option<string>,
                c: Cell, inst: Instance, ghost inserted: bool)
      returns (o: Kit.Outcome, id: nat, ghost run: seq<Cell>, ghost events: seq<Event>)
    requires k.Valid() && CellGood(c) && inst in c.kits && c.kits[inst] == k.disk
    modifies k
    ensures k.Valid() && IsRun(run, events) && run[0] == c && |events| <= 3 && CellGood(run[|events|])
    ensures inst in run[|events|].kits && run[|events|].kits[inst] == k.disk
    ensures o == Kit.Returned ==>
              QueuedLast(run[|events|], inst, id, description) && |run[|events|].rows| == |c.rows| + 1
  {
    hide CellGood, Leads, DiskGood, Agrees, Settled, Kit.Accepts, Kit.KeyUsed, Kit.AgreesUnlessStranded, Kit.Between,
      IsRun, QueuedLast;
    ghost var found := k.disk;
    var outcome, number, offered := k.Submit(tool, params, description, callKey);
    o, id := outcome, number;
    if offered.Some? {
      ghost var taken := inserted || o == Kit.Returned;
      SubmissionIsRun(c, inst, id, offered.value, k.disk, ActionRecord(tool, params, description, Submitting, callKey),
          taken);
      OfferedIsThere(found, offered.value, k.disk, id, ActionRecord(tool, params, description, Submitting, callKey));
      run, events := SubmissionRun(c, inst, id, offered.value, k.disk, taken), SubmissionEvents(inst, id, taken);
    } else {
      KitStep(c, inst, k.disk);
      run, events := [c, WithKit(c, inst, k.disk)], [Driver(inst)];
      OneStepRun(c, Driver(inst), WithKit(c, inst, k.disk));
    }
  }

  lemma OfferedIsThere(d: Disk, d1: Disk, d': Disk, id: nat, r: ActionRecord)
    requires Kit.Between(d, d1, d', id, r)
    ensures id in d1.records
  {
  }

  lemma OneStepRun(c: Cell, e: Event, c': Cell)
    requires CellGood(c) && Step(c, e, c')
    ensures IsRun([c, c'], [e])
  {
    hide CellGood, Step;
  }
}
