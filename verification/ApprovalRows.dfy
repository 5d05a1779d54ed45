/**
 * The kernel's action rows beside the journals of the resource drivers: one state across both layers (store.ts,
 * actions.ts).
 */
module ApprovalRows {
  import opened Wrappers
  import opened KitJournal

  type Instance = string

  datatype RowStatus = RowPending | RowFailed | RowApplied | RowRejected | RowReverted
  datatype Decision = ToApply | ToReject | ToRevert

  /** One row of `actions`; its id is its position plus one. */
  datatype Row = Row(instance: Instance, actionId: nat, description: Description, status: RowStatus)

  /** A claimed row whose decision is still being carried out: volatile, at most one per instance. */
  datatype Flight = Flight(row: nat, decision: Decision)

  /** `order` is a history: the rows whose application was recorded, oldest first. */
  datatype Cell = Cell(rows: seq<Row>, kits: map<Instance, Disk>, flights: map<Instance, Flight>, order: seq<nat>)

  predicate Open(s: RowStatus) {
    s == RowPending || s == RowFailed
  }

  /** Nothing earlier on the same instance awaits a decision or reconciliation (actions.ts:68). */
  predicate HeadOfQueue(c: Cell, i: nat)
    requires i < |c.rows|
  {
    forall k | 0 <= k < i && c.rows[k].instance == c.rows[i].instance :: !Open(c.rows[k].status)
  }

  /** actions.ts:66-70. */
  predicate Eligible(c: Cell, i: nat, v: Decision) {
    && i < |c.rows|
    && c.rows[i].status == (if v == ToRevert then RowApplied else RowPending)
    && (v == ToApply ==> HeadOfQueue(c, i))
    && (v == ToRevert ==> c.rows[i].description.implementsRevert)
  }

  // ---- the invariant ---------------------------------------------------------------------------

  predicate RowKnown(c: Cell, r: Row) {
    && r.instance in c.kits && r.actionId in c.kits[r.instance].records
    && c.kits[r.instance].records[r.actionId].description == r.description
  }

  predicate RowTruthful(c: Cell, r: Row)
    requires RowKnown(c, r)
  {
    var d := c.kits[r.instance];
    && (r.status in {RowApplied, RowReverted} ==> Invocation(Apply, r.actionId) in d.completed)
    && (r.status == RowReverted ==> Invocation(Revert, r.actionId) in d.completed)
    && (r.status == RowRejected ==> d.records[r.actionId].status == Rejected)
  }

  predicate FlightKnown(c: Cell, inst: Instance)
    requires inst in c.flights
  {
    var f := c.flights[inst];
    && f.row < |c.rows| && c.rows[f.row].instance == inst && c.rows[f.row].status == RowFailed
    && (f.decision == ToApply ==> HeadOfQueue(c, f.row))
    && (f.decision == ToApply ==> forall a | a in c.order && a < |c.rows| && c.rows[a].instance == inst :: a < f.row)
  }

  predicate RowsOrdered(c: Cell) {
    forall i, j | 0 <= i < j < |c.rows| && c.rows[i].instance == c.rows[j].instance ::
      c.rows[i].actionId < c.rows[j].actionId
  }

  /** Per instance, applications are recorded in row order. */
  predicate OrderIncreases(rows: seq<Row>, order: seq<nat>) {
    forall i, j | 0 <= i < j < |order| && order[i] < |rows| && order[j] < |rows|
      && rows[order[i]].instance == rows[order[j]].instance ::
      order[i] < order[j]
  }

  /** A recorded application leaves no earlier row of its instance pending. */
  predicate NonePendingBefore(rows: seq<Row>, a: nat)
    requires a < |rows|
  {
    && rows[a].status != RowPending
    && forall k | 0 <= k < a && rows[k].instance == rows[a].instance :: rows[k].status != RowPending
  }

  predicate OrderKept(c: Cell) {
    && (forall a | a in c.order :: a < |c.rows| && NonePendingBefore(c.rows, a))
    && OrderIncreases(c.rows, c.order)
  }

  predicate KitsGood(c: Cell) {
    forall inst | inst in c.kits :: DiskGood(c.kits[inst])
  }

  predicate RowsGood(c: Cell) {
    forall i | 0 <= i < |c.rows| :: RowKnown(c, c.rows[i]) && RowTruthful(c, c.rows[i])
  }

  predicate FlightsGood(c: Cell) {
    forall inst | inst in c.flights :: FlightKnown(c, inst)
  }

  predicate CellGood(c: Cell) {
    KitsGood(c) && RowsGood(c) && RowsOrdered(c) && FlightsGood(c) && OrderKept(c)
  }

  const EMPTY_CELL := Cell([], map[], map[], [])

  type GoodCell = c: Cell | CellGood(c) witness EMPTY_CELL

  // ---- steps -----------------------------------------------------------------------------------

  /** A driver runs any part of any of its operations, or crashes and restarts. */
  predicate KitMoves(c: Cell, c': Cell, inst: Instance) {
    && inst in c'.kits && DiskGood(c'.kits[inst])
    && (inst in c.kits ==> Leads(c.kits[inst], c'.kits[inst]))
    && c' == c.(kits := c.kits[inst := c'.kits[inst]])
  }

  /** INSERT OR IGNORE of the action being submitted (store.ts:54, approvals.ts:15). */
  function Enqueue(c: Cell, inst: Instance, id: nat): Cell
    requires inst in c.kits && id in c.kits[inst].records
  {
    if exists i | 0 <= i < |c.rows| :: c.rows[i].instance == inst && c.rows[i].actionId == id then c
    else c.(rows := c.rows + [Row(inst, id, c.kits[inst].records[id].description, RowPending)])
  }

  /** The fail-closed intent written before any effect (store.ts:63, actions.ts:76). */
  function Claim(c: Cell, i: nat, v: Decision): Cell
    requires i < |c.rows|
  {
    c.(rows := c.rows[i := c.rows[i].(status := RowFailed)], flights := c.flights[c.rows[i].instance := Flight(i, v)])
  }

  /** What the driver must have done for its lifecycle method to return normally. */
  predicate Answered(d: Disk, id: nat, v: Decision) {
    match v
    case ToApply => Invocation(Apply, id) in d.completed
    case ToReject => id in d.records && d.records[id].status == Rejected
    case ToRevert => Invocation(Revert, id) in d.completed
  }

  function Verdict(v: Decision): RowStatus {
    match v case ToApply => RowApplied case ToReject => RowRejected case ToRevert => RowReverted
  }

  /** decideAction after the driver returned (actions.ts:83). */
  function Decide(c: Cell, inst: Instance): Cell
    requires inst in c.flights && c.flights[inst].row < |c.rows|
  {
    var f := c.flights[inst];
    c.(rows := c.rows[f.row := c.rows[f.row].(status := Verdict(f.decision))], flights := c.flights - {inst},
       order := if f.decision == ToApply then c.order + [f.row] else c.order)
  }

  /** The decision threw, or the process died: the claimed row stays `failed`. */
  function Abort(c: Cell, inst: Instance): Cell {
    c.(flights := c.flights - {inst})
  }

  function Crash(c: Cell): Cell {
    c.(flights := map[])
  }

  lemma KitMovesKeepsGood(c: Cell, c': Cell, inst: Instance)
    requires CellGood(c) && KitMoves(c, c', inst)
    ensures CellGood(c')
  {
    hide DiskGood;
    assert RowsGood(c') by {
      forall i | 0 <= i < |c'.rows| ensures RowKnown(c', c'.rows[i]) && RowTruthful(c', c'.rows[i]) {
        assert RowKnown(c, c.rows[i]) && RowTruthful(c, c.rows[i]);
      }
    }
    assert FlightsGood(c') by {
      forall x | x in c'.flights ensures FlightKnown(c', x) { assert FlightKnown(c, x); }
    }
  }

  lemma EnqueueKeepsRows(c: Cell, inst: Instance, id: nat)
    requires RowsGood(c) && inst in c.kits && id in c.kits[inst].records
    ensures RowsGood(Enqueue(c, inst, id))
  {
    var c' := Enqueue(c, inst, id);
    forall i | 0 <= i < |c'.rows| ensures RowKnown(c', c'.rows[i]) && RowTruthful(c', c'.rows[i]) {
      if i < |c.rows| { assert RowKnown(c, c.rows[i]) && RowTruthful(c, c.rows[i]); }
    }
  }

  /** Only the newest action of a driver can be in submission, so its row comes after its predecessors' rows. */
  lemma EnqueueKeepsOrdered(c: Cell, inst: Instance, id: nat)
    requires KitsGood(c) && RowsGood(c) && RowsOrdered(c)
    requires inst in c.kits && id in c.kits[inst].records && c.kits[inst].records[id].status == Submitting
    ensures RowsOrdered(Enqueue(c, inst, id))
  {
    hide CallsRecorded, AppliedInOrder, OverlayKnown, RowTruthful;
    var c' := Enqueue(c, inst, id);
    if c' != c {
      forall i | 0 <= i < |c.rows| && c.rows[i].instance == inst ensures c.rows[i].actionId < id {
        assert RowKnown(c, c.rows[i]);
        assert IdsFresh(c.kits[inst]);
      }
    }
  }

  lemma EnqueueKeepsFlights(c: Cell, inst: Instance, id: nat)
    requires FlightsGood(c) && OrderKept(c) && inst in c.kits && id in c.kits[inst].records
    ensures FlightsGood(Enqueue(c, inst, id)) && OrderKept(Enqueue(c, inst, id))
  {
    var c' := Enqueue(c, inst, id);
    assert forall i | 0 <= i < |c.order| :: c.order[i] in c.order && c.order[i] < |c.rows|;
    forall x | x in c'.flights ensures FlightKnown(c', x) { assert FlightKnown(c, x); }
  }

  /** A record in submission becomes a row, or already is one. */
  lemma EnqueueKeepsGood(c: Cell, inst: Instance, id: nat)
    requires CellGood(c) && inst in c.kits && id in c.kits[inst].records
    requires c.kits[inst].records[id].status == Submitting
    ensures CellGood(Enqueue(c, inst, id))
  {
    hide RowsGood, RowsOrdered, FlightsGood, OrderKept;
    EnqueueKeepsRows(c, inst, id);
    EnqueueKeepsOrdered(c, inst, id);
    EnqueueKeepsFlights(c, inst, id);
    assert KitsGood(Enqueue(c, inst, id));
  }

  /** An id just reserved by a driver has no row yet, so its first INSERT OR IGNORE always inserts. */
  lemma ReservedIdHasNoRow(c: Cell, inst: Instance, id: nat)
    requires CellGood(c) && inst in c.kits && id !in c.kits[inst].records
    ensures forall i | 0 <= i < |c.rows| :: !(c.rows[i].instance == inst && c.rows[i].actionId == id)
  {
    forall i | 0 <= i < |c.rows| ensures !(c.rows[i].instance == inst && c.rows[i].actionId == id) {
      assert RowKnown(c, c.rows[i]);
    }
  }

  function SetRow(c: Cell, i: nat, s: RowStatus): Cell
    requires i < |c.rows|
  {
    c.(rows := c.rows[i := c.rows[i].(status := s)])
  }

  lemma SetRowKeepsRows(c: Cell, c': Cell, i: nat, s: RowStatus)
    requires RowsGood(c) && RowsOrdered(c) && i < |c.rows| && RowKnown(c, c.rows[i])
    requires RowTruthful(c, c.rows[i].(status := s))
    requires c'.rows == SetRow(c, i, s).rows && c'.kits == c.kits
    ensures RowsGood(c') && RowsOrdered(c')
  {
    forall k | 0 <= k < |c'.rows| ensures RowKnown(c', c'.rows[k]) && RowTruthful(c', c'.rows[k]) {
      assert RowKnown(c, c.rows[k]) && RowTruthful(c, c.rows[k]);
    }
  }

  lemma ClaimKeepsOrder(c: Cell, i: nat, v: Decision)
    requires OrderKept(c) && Eligible(c, i, v)
    ensures OrderKept(Claim(c, i, v))
  {
  }

  /** Nothing at or behind the head of its queue has been applied yet. */
  lemma ClaimIsKnown(c: Cell, i: nat, v: Decision)
    requires OrderKept(c) && Eligible(c, i, v)
    ensures FlightKnown(Claim(c, i, v), c.rows[i].instance)
  {
  }

  lemma ClaimKeepsFlights(c: Cell, i: nat, v: Decision)
    requires FlightsGood(c) && OrderKept(c) && Eligible(c, i, v) && c.rows[i].instance !in c.flights
    ensures FlightsGood(Claim(c, i, v)) && OrderKept(Claim(c, i, v))
  {
    ClaimKeepsOrder(c, i, v);
    forall x | x in Claim(c, i, v).flights ensures FlightKnown(Claim(c, i, v), x) {
      if x != c.rows[i].instance { assert FlightKnown(c, x); } else { ClaimIsKnown(c, i, v); }
    }
  }

  lemma ClaimKeepsGood(c: Cell, i: nat, v: Decision)
    requires CellGood(c) && Eligible(c, i, v) && c.rows[i].instance !in c.flights
    ensures CellGood(Claim(c, i, v))
  {
    assert RowKnown(c, c.rows[i]) && RowTruthful(c, c.rows[i].(status := RowFailed));
    hide RowsGood, RowsOrdered, FlightsGood, OrderKept, DiskGood;
    SetRowKeepsRows(c, Claim(c, i, v), i, RowFailed);
    ClaimKeepsFlights(c, i, v);
    assert KitsGood(Claim(c, i, v));
  }

  lemma OrderExtends(c: Cell, inst: Instance, i: nat)
    requires OrderIncreases(c.rows, c.order) && i < |c.rows| && c.rows[i].instance == inst
    requires forall a | a in c.order && a < |c.rows| && c.rows[a].instance == inst :: a < i
    ensures OrderIncreases(c.rows, c.order + [i])
  {
  }

  lemma SameInstances(rows: seq<Row>, rows': seq<Row>, order: seq<nat>)
    requires |rows| == |rows'| && forall k | 0 <= k < |rows| :: rows'[k].instance == rows[k].instance
    ensures OrderIncreases(rows', order) <==> OrderIncreases(rows, order)
  {
  }

  lemma DecideKeepsOrder(c: Cell, inst: Instance)
    requires OrderKept(c) && inst in c.flights && FlightKnown(c, inst)
    ensures OrderKept(Decide(c, inst))
  {
    var f, c' := c.flights[inst], Decide(c, inst);
    forall a: nat | a < |c.rows| && (NonePendingBefore(c.rows, a) || (a == f.row && f.decision == ToApply))
      ensures NonePendingBefore(c'.rows, a)
    {
    }
    hide NonePendingBefore;
    assert forall a | a in c'.order :: a in c.order || (a == f.row && f.decision == ToApply);
    if f.decision == ToApply { OrderExtends(c, inst, f.row); }
    assert OrderIncreases(c'.rows, c'.order) by { SameInstances(c.rows, c'.rows, c'.order); }
  }

  lemma OtherFlightKept(c: Cell, inst: Instance, x: Instance)
    requires inst in c.flights && FlightKnown(c, inst) && x in c.flights && FlightKnown(c, x) && x != inst
    ensures x in Decide(c, inst).flights && FlightKnown(Decide(c, inst), x)
  {
  }

  lemma DecideKeepsFlights(c: Cell, inst: Instance)
    requires FlightsGood(c) && OrderKept(c) && inst in c.flights && c.flights[inst].row < |c.rows|
    ensures FlightsGood(Decide(c, inst)) && OrderKept(Decide(c, inst))
  {
    assert FlightKnown(c, inst);
    DecideKeepsOrder(c, inst);
    forall x | x in Decide(c, inst).flights ensures FlightKnown(Decide(c, inst), x) {
      assert FlightKnown(c, x);
      OtherFlightKept(c, inst, x);
    }
  }

  lemma DecideKeepsGood(c: Cell, inst: Instance)
    requires CellGood(c) && inst in c.flights && c.flights[inst].row < |c.rows| && inst in c.kits
    requires Answered(c.kits[inst], c.rows[c.flights[inst].row].actionId, c.flights[inst].decision)
    ensures CellGood(Decide(c, inst))
  {
    var f := c.flights[inst];
    assert FlightKnown(c, inst) && RowKnown(c, c.rows[f.row]);
    var id := c.rows[f.row].actionId;
    assert f.decision == ToRevert ==> Invocation(Apply, id) in c.kits[inst].completed by {
      assert DiskGood(c.kits[inst]) && StatusTellsCalls(c.kits[inst], id);
    }
    hide RowsGood, RowsOrdered, FlightsGood, OrderKept, DiskGood;
    SetRowKeepsRows(c, Decide(c, inst), f.row, Verdict(f.decision));
    DecideKeepsFlights(c, inst);
    assert KitsGood(Decide(c, inst));
  }

  lemma DropFlightsKeepsGood(c: Cell, c': Cell)
    requires CellGood(c) && c' == c.(flights := c'.flights)
    requires forall x | x in c'.flights :: x in c.flights && c'.flights[x] == c.flights[x]
    ensures CellGood(c')
  {
    hide DiskGood;
    assert RowsGood(c') by {
      hide RowsOrdered, FlightsGood, OrderKept;
      forall i | 0 <= i < |c'.rows| ensures RowKnown(c', c'.rows[i]) && RowTruthful(c', c'.rows[i]) {
        assert RowKnown(c, c.rows[i]) && RowTruthful(c, c.rows[i]);
      }
    }
    assert FlightsGood(c') by {
      hide RowsGood, RowsOrdered, OrderKept;
      forall x | x in c'.flights ensures FlightKnown(c', x) { assert FlightKnown(c, x); }
    }
    hide RowsGood, FlightsGood;
  }
}
