/** What holds over every run of submissions, decisions, driver operations, crashes and restarts, across both layers. */
module ApprovalRuns {
  import opened Wrappers
  import opened KitJournal
  import opened ApprovalRows

  datatype Event =
    | Driver(inst: Instance)
    | Submission(inst: Instance, id: nat)
    | Claimed(row: nat, decision: Decision)
    | Decided(inst: Instance)
    | GaveUp(inst: Instance)
    | Restart

  predicate Step(c: Cell, e: Event, c': Cell) {
    match e
    case Driver(inst) => KitMoves(c, c', inst)
    case Submission(inst, id) =>
      inst in c.kits && id in c.kits[inst].records && c.kits[inst].records[id].status == Submitting
        && c' == Enqueue(c, inst, id)
    case Claimed(i, v) => Eligible(c, i, v) && c.rows[i].instance !in c.flights && c' == Claim(c, i, v)
    case Decided(inst) =>
      && inst in c.flights && c.flights[inst].row < |c.rows| && inst in c.kits
      && Answered(c.kits[inst], c.rows[c.flights[inst].row].actionId, c.flights[inst].decision) && c' == Decide(c, inst)
    case GaveUp(inst) => c' == Abort(c, inst)
    case Restart => c' == Crash(c)
  }

  ghost predicate IsRun(run: seq<Cell>, events: seq<Event>) {
    && |run| == |events| + 1 && CellGood(run[0])
    && forall i | 0 <= i < |events| :: Step(run[i], events[i], run[i + 1])
  }

  lemma StepKeepsGood(c: Cell, e: Event, c': Cell)
    requires CellGood(c) && Step(c, e, c')
    ensures CellGood(c')
  {
    hide CellGood;
    match e
    case Driver(inst) => KitMovesKeepsGood(c, c', inst);
    case Submission(inst, id) => EnqueueKeepsGood(c, inst, id);
    case Claimed(i, v) => ClaimKeepsGood(c, i, v);
    case Decided(inst) => DecideKeepsGood(c, inst);
    case GaveUp(inst) => DropFlightsKeepsGood(c, c');
    case Restart => DropFlightsKeepsGood(c, c');
  }

  /** What a later cell keeps of an earlier one: rows and what they stand for, and the drivers' histories. */
  ghost predicate Extends(c: Cell, c': Cell) {
    && |c.rows| <= |c'.rows|
    && (forall i | 0 <= i < |c.rows| :: c'.rows[i] == c.rows[i].(status := c'.rows[i].status))
    && (forall x | x in c.kits :: x in c'.kits && Leads(c.kits[x], c'.kits[x]))
    && c.order <= c'.order
  }

  lemma StepExtends(c: Cell, e: Event, c': Cell)
    requires Step(c, e, c')
    ensures Extends(c, c')
  {
    assert forall x | x in c.kits :: Leads(c.kits[x], c.kits[x]);
  }

  lemma ExtendsTwice(c: Cell, c1: Cell, c2: Cell)
    requires Extends(c, c1) && Extends(c1, c2)
    ensures Extends(c, c2)
  {
    hide Leads;
    forall x | x in c.kits ensures x in c2.kits && Leads(c.kits[x], c2.kits[x]) {
      LeadsTwice(c.kits[x], c1.kits[x], c2.kits[x]);
    }
    forall i | 0 <= i < |c.rows| ensures c2.rows[i] == c.rows[i].(status := c2.rows[i].status) {
      assert c1.rows[i] == c.rows[i].(status := c1.rows[i].status);
    }
  }

  lemma ExtendsItself(c: Cell)
    ensures Extends(c, c)
  {
    assert forall x | x in c.kits :: Leads(c.kits[x], c.kits[x]);
  }

  lemma StepOfRun(run: seq<Cell>, events: seq<Event>, i: nat)
    requires IsRun(run, events) && i < |events|
    ensures Step(run[i], events[i], run[i + 1])
  {
    hide CellGood, Step;
  }

  lemma {:induction false} RunGood(run: seq<Cell>, events: seq<Event>, i: nat)
    requires IsRun(run, events) && i < |run|
    ensures CellGood(run[i])
  {
    hide CellGood, Step;
    if i > 0 {
      RunGood(run, events, i - 1);
      StepOfRun(run, events, i - 1);
      StepKeepsGood(run[i - 1], events[i - 1], run[i]);
    }
  }

  lemma {:induction false} RunExtends(run: seq<Cell>, events: seq<Event>, i: nat, j: nat)
    requires IsRun(run, events) && i <= j < |run|
    ensures Extends(run[i], run[j])
    decreases j - i
  {
    hide CellGood, Step, Extends, Leads;
    if i == j {
      ExtendsItself(run[i]);
    } else {
      RunExtends(run, events, i, j - 1);
      StepOfRun(run, events, j - 1);
      StepExtends(run[j - 1], events[j - 1], run[j]);
      ExtendsTwice(run[i], run[j - 1], run[j]);
    }
  }

  /**
   * A row reading `applied` or `reverted` means its driver was called to apply exactly once and returned; `reverted`
   * says the same of the revert. This includes actions the driver applied while they were being submitted.
   */
  lemma AppliedMeansExactlyOnce(run: seq<Cell>, events: seq<Event>, i: nat, r: nat)
    requires IsRun(run, events) && i < |run| && r < |run[i].rows| && run[i].rows[r].status in {RowApplied, RowReverted}
    ensures run[i].rows[r].instance in run[i].kits
    ensures var row := run[i].rows[r];
            var d := run[i].kits[row.instance];
            && Invocation(Apply, row.actionId) in d.completed
               && multiset(d.invoked)[Invocation(Apply, row.actionId)] == 1
            && (row.status == RowReverted ==>
                  Invocation(Revert, row.actionId) in d.completed
                    && multiset(d.invoked)[Invocation(Revert, row.actionId)] == 1)
  {
    RunGood(run, events, i);
    var row := run[i].rows[r];
    assert RowKnown(run[i], row) && RowTruthful(run[i], row);
    var d := run[i].kits[row.instance];
    assert DiskGood(d);
    InvokedAtMostOnce(d, Invocation(Apply, row.actionId));
    InvokedAtMostOnce(d, Invocation(Revert, row.actionId));
    assert forall c | c in d.completed :: c in d.invoked;
  }

  /** A row reading `rejected` means the driver was never called to apply the action, and never will be. */
  lemma RejectedMeansNever(run: seq<Cell>, events: seq<Event>, i: nat, j: nat, r: nat)
    requires IsRun(run, events) && i <= j < |run| && r < |run[i].rows| && run[i].rows[r].status == RowRejected
    ensures var row := run[i].rows[r];
            row.instance in run[j].kits && Invocation(Apply, row.actionId) !in run[j].kits[row.instance].invoked
  {
    RunGood(run, events, i);
    RunGood(run, events, j);
    RunExtends(run, events, i, j);
    var row := run[i].rows[r];
    assert RowKnown(run[i], row) && RowTruthful(run[i], row);
    assert DiskGood(run[i].kits[row.instance]) && DiskGood(run[j].kits[row.instance]);
    hide CellGood, DiskGood, Extends;
    assert Leads(run[i].kits[row.instance], run[j].kits[row.instance]) by { ExtendsKit(run[i], run[j], row.instance); }
    RejectedNeverApplies(run[i].kits[row.instance], run[j].kits[row.instance], row.actionId);
  }

  lemma ExtendsKit(c: Cell, c': Cell, x: Instance)
    requires Extends(c, c') && x in c.kits
    ensures x in c'.kits && Leads(c.kits[x], c'.kits[x])
  {
  }

  /** Over a whole run a driver is called at most once to apply and at most once to revert an action. */
  lemma NeverTwice(run: seq<Cell>, events: seq<Event>, i: nat, x: Instance, c: Invocation)
    requires IsRun(run, events) && i < |run| && x in run[i].kits
    ensures multiset(run[i].kits[x].invoked)[c] <= 1
  {
    RunGood(run, events, i);
    InvokedAtMostOnce(run[i].kits[x], c);
  }

  /**
   * Per instance, both layers apply in submission order: verdicts are recorded in the order of rows and of action ids,
   * and the driver itself is called in that order.
   */
  lemma AppliedInSubmissionOrder(run: seq<Cell>, events: seq<Event>, i: nat)
    requires IsRun(run, events) && i < |run|
    ensures forall a, b | 0 <= a < b < |run[i].order| && RowAt(run[i], a).instance == RowAt(run[i], b).instance ::
              run[i].order[a] < run[i].order[b] && RowAt(run[i], a).actionId < RowAt(run[i], b).actionId
    ensures forall x, p, q | x in run[i].kits && 0 <= p < q < |run[i].kits[x].invoked|
              && run[i].kits[x].invoked[p].verb == run[i].kits[x].invoked[q].verb == Apply ::
              run[i].kits[x].invoked[p].id < run[i].kits[x].invoked[q].id
  {
    RunGood(run, events, i);
    hide IsRun, CellGood;
    forall a, b | 0 <= a < b < |run[i].order| && RowAt(run[i], a).instance == RowAt(run[i], b).instance
      ensures run[i].order[a] < run[i].order[b] && RowAt(run[i], a).actionId < RowAt(run[i], b).actionId
    {
      VerdictsInOrder(run[i], a, b);
    }
    forall x, p, q | x in run[i].kits && 0 <= p < q < |run[i].kits[x].invoked|
              && run[i].kits[x].invoked[p].verb == run[i].kits[x].invoked[q].verb == Apply
      ensures run[i].kits[x].invoked[p].id < run[i].kits[x].invoked[q].id
    {
      CallsInOrder(run[i], x, p, q);
    }
  }

  lemma CallsInOrder(c: Cell, x: Instance, p: nat, q: nat)
    requires CellGood(c) && x in c.kits && p < q < |c.kits[x].invoked|
    requires c.kits[x].invoked[p].verb == c.kits[x].invoked[q].verb == Apply
    ensures c.kits[x].invoked[p].id < c.kits[x].invoked[q].id
  {
    assert DiskGood(c.kits[x]);
    hide KitsGood, RowsGood, RowsOrdered, FlightsGood, OrderKept, IdsFresh, CallsRecorded, OverlayKnown;
  }

  lemma RowsInOrder(c: Cell, s: nat, r: nat)
    requires CellGood(c) && s < r < |c.rows| && c.rows[s].instance == c.rows[r].instance
    ensures c.rows[s].actionId < c.rows[r].actionId
  {
    hide KitsGood, RowsGood, FlightsGood, OrderKept;
  }

  /** The row of the `a`th recorded application. */
  function RowAt(c: Cell, a: nat): Row
    requires a < |c.order|
  {
    if c.order[a] < |c.rows| then c.rows[c.order[a]]
    else Row("", 0, Description("", false, false, false, None), RowFailed)
  }

  lemma VerdictKnown(c: Cell, a: nat)
    requires CellGood(c) && a < |c.order|
    ensures c.order[a] < |c.rows| && RowAt(c, a) == c.rows[c.order[a]]
  {
    assert c.order[a] in c.order;
    hide KitsGood, RowsGood, RowsOrdered, FlightsGood, OrderIncreases;
  }

  lemma VerdictsIncrease(c: Cell, a: nat, b: nat)
    requires CellGood(c) && a < b < |c.order| && c.order[a] < |c.rows| && c.order[b] < |c.rows|
    requires c.rows[c.order[a]].instance == c.rows[c.order[b]].instance
    ensures c.order[a] < c.order[b]
  {
    hide KitsGood, RowsGood, RowsOrdered, FlightsGood, NonePendingBefore;
  }

  lemma VerdictsInOrder(c: Cell, a: nat, b: nat)
    requires CellGood(c) && a < b < |c.order| && RowAt(c, a).instance == RowAt(c, b).instance
    ensures c.order[a] < c.order[b] < |c.rows| && RowAt(c, a).actionId < RowAt(c, b).actionId
  {
    VerdictKnown(c, a);
    VerdictKnown(c, b);
    VerdictsIncrease(c, a, b);
    hide CellGood;
    RowsInOrder(c, c.order[a], c.order[b]);
  }

  /** The `p`th call into the driver of `x` was to apply the action of row `r`. */
  predicate CallOfRow(c: Cell, x: Instance, p: nat, r: nat) {
    && x in c.kits && p < |c.kits[x].invoked| && r < |c.rows| && c.rows[r].instance == x
    && c.kits[x].invoked[p] == Invocation(Apply, c.rows[r].actionId)
  }

  lemma CallsFollowRowsHere(c: Cell, x: Instance, p: nat, q: nat, r: nat, s: nat)
    requires CellGood(c) && CallOfRow(c, x, p, r) && CallOfRow(c, x, q, s) && p < q
    ensures r < s
  {
    hide CellGood;
    CallsInOrder(c, x, p, q);
    if s < r { RowsInOrder(c, s, r); }
  }

  /** The driver's calls to apply follow the rows of their actions. */
  lemma CallsFollowRows(run: seq<Cell>, events: seq<Event>, i: nat, x: Instance, p: nat, q: nat, r: nat, s: nat)
    requires IsRun(run, events) && i < |run| && CallOfRow(run[i], x, p, r) && CallOfRow(run[i], x, q, s) && p < q
    ensures r < s
  {
    hide IsRun, CellGood, CallOfRow;
    RunGood(run, events, i);
    CallsFollowRowsHere(run[i], x, p, q, r, s);
  }

  /** What was approved is what gets applied: a row's description is, then and forever, that of its driver's record. */
  lemma ApprovedIsApplied(run: seq<Cell>, events: seq<Event>, i: nat, j: nat, r: nat)
    requires IsRun(run, events) && i <= j < |run| && r < |run[i].rows|
    ensures r < |run[j].rows|
    ensures var row := run[i].rows[r];
            && run[j].rows[r] == row.(status := run[j].rows[r].status)
            && row.instance in run[j].kits && row.actionId in run[j].kits[row.instance].records
            && run[j].kits[row.instance].records[row.actionId].description == row.description
  {
    RunGood(run, events, j);
    RunExtends(run, events, i, j);
    assert RowKnown(run[j], run[j].rows[r]);
  }
}
