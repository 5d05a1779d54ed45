/**
 * The durable state of one resource driver: action journal, id sequence, overlay (kit-gatekeeper.ts,
 * action-sequencer.ts, overlay-store.ts).
 */
module KitJournal {
  import opened Wrappers

  datatype Description = Description(title: string, awaitDecision: bool, autoApprovable: bool, implementsRevert: bool,
                                     actionKind: Option<string>)

  datatype Status = Submitting | Pending | Applying | Applied | Rejected | Reverting | Reverted | Uncertain

  datatype ActionRecord = ActionRecord(tool: string, params: string, description: Description, status: Status,
                                       callKey: Option<string>)

  datatype Verb = Apply | Revert
  /** History: the driver's `apply` or `revert` was invoked for an action. */
  datatype Invocation = Invocation(verb: Verb, id: nat)

  /**
   * `next` is the sequence file, `overlay` the action ids of the overlay file. `invoked` and `completed` are
   * histories of the calls into the driver and of those that returned normally.
   */
  datatype Disk = Disk(records: map<nat, ActionRecord>, next: nat, overlay: set<nat>, invoked: seq<Invocation>,
                       completed: set<Invocation>)

  predicate InDoubt(s: Status) {
    s in {Submitting, Applying, Reverting, Uncertain}
  }

  predicate Decided(s: Status) {
    s in {Applied, Rejected, Reverted}
  }

  /** kit-gatekeeper.ts:54-56. */
  predicate Settled(records: map<nat, ActionRecord>) {
    forall id | id in records :: !InDoubt(records[id].status)
  }

  /** kit-gatekeeper.ts:138-139. */
  predicate CanApply(records: map<nat, ActionRecord>, id: nat) {
    && id in records && records[id].status == Pending
    && forall j | j in records && j < id :: Decided(records[j].status)
  }

  /** What one status may ever become. */
  predicate Reaches(s: Status, t: Status) {
    match s
    case Submitting => true
    case Pending => t != Submitting
    case Applying => t !in {Submitting, Pending, Rejected}
    case Applied => t in {Applied, Reverting, Reverted, Uncertain}
    case Reverting => t in {Reverting, Reverted, Uncertain}
    case Rejected => t == Rejected
    case Reverted => t == Reverted
    case Uncertain => t == Uncertain
  }

  predicate SameAction(r: ActionRecord, r': ActionRecord) {
    r' == r.(status := r'.status)
  }

  // ---- the invariant of every durable state ----------------------------------------------------

  /** Ids come from the sequence, and a submission in doubt is the newest action. */
  predicate IdsFresh(d: Disk) {
    && d.next >= 1
    && (forall id | id in d.records :: 1 <= id < d.next)
    && (forall id, j | id in d.records && j in d.records && d.records[id].status == Submitting :: j <= id)
  }

  predicate StatusTellsCalls(d: Disk, id: nat)
    requires id in d.records
  {
    var s := d.records[id].status;
    && (Invocation(Apply, id) in d.invoked ==> s !in {Submitting, Pending, Rejected})
    && (s in {Applied, Reverting, Reverted} ==> Invocation(Apply, id) in d.completed)
    && (Invocation(Revert, id) in d.invoked ==>
         s in {Reverting, Reverted, Uncertain} && Invocation(Apply, id) in d.completed)
    && (s == Reverted ==> Invocation(Revert, id) in d.completed)
    && (Invocation(Revert, id) in d.completed ==> s in {Reverting, Reverted, Uncertain})
  }

  /** Each invocation happened once, for a recorded action, and the statuses tell which. */
  predicate CallsRecorded(d: Disk) {
    && (forall i, j | 0 <= i < j < |d.invoked| :: d.invoked[i] != d.invoked[j])
    && (forall c | c in d.invoked :: c.id in d.records)
    && (forall c | c in d.completed :: c in d.invoked)
    && (forall id | id in d.records :: StatusTellsCalls(d, id))
  }

  predicate AppliesIncrease(invoked: seq<Invocation>) {
    forall i, j | 0 <= i < j < |invoked| && invoked[i].verb == Apply && invoked[j].verb == Apply ::
      invoked[i].id < invoked[j].id
  }

  /** Nothing earlier than an applied action is still open. */
  predicate NoneOpenBefore(d: Disk) {
    forall c, j | c in d.invoked && c.verb == Apply && j in d.records && j < c.id ::
      d.records[j].status !in {Submitting, Pending, Applying}
  }

  /** Applications happened in id order. */
  predicate AppliedInOrder(d: Disk) {
    AppliesIncrease(d.invoked) && NoneOpenBefore(d)
  }

  predicate OverlayKnown(d: Disk) {
    forall id | id in d.overlay :: id in d.records && !d.records[id].description.awaitDecision
  }

  predicate DiskGood(d: Disk) {
    IdsFresh(d) && CallsRecorded(d) && AppliedInOrder(d) && OverlayKnown(d)
  }

  const EMPTY_DISK := Disk(map[], 1, {}, [], {})

  type GoodDisk = d: Disk | DiskGood(d) witness EMPTY_DISK

  /** The actions whose effect is simulated until they are decided. */
  function Queued(d: Disk): set<nat> {
    set id | id in d.records && d.records[id].status == Pending && !d.records[id].description.awaitDecision
  }

  /** The overlay shows exactly the queued effects. */
  predicate Agrees(d: Disk) {
    d.overlay == Queued(d)
  }

  /** Queued effects the overlay does not show: what recovery has simulated again (kit-gatekeeper.ts:62-63). */
  function Missing(d: Disk): set<nat> {
    Queued(d) - d.overlay
  }

  /** What any number of steps, crashes and restarts can turn one durable state into. */
  predicate Leads(d: Disk, d': Disk) {
    && d.next <= d'.next
    && (forall id | id in d.records :: id in d'.records && SameAction(d.records[id], d'.records[id])
                                       && Reaches(d.records[id].status, d'.records[id].status))
    && (forall id | id in d'.records && id !in d.records :: d.next <= id)
    && d.invoked <= d'.invoked && d.completed <= d'.completed
  }

  lemma LeadsTwice(d: Disk, d1: Disk, d2: Disk)
    requires Leads(d, d1) && Leads(d1, d2)
    ensures Leads(d, d2)
  {
    forall id | id in d.records
      ensures id in d2.records && SameAction(d.records[id], d2.records[id])
      ensures Reaches(d.records[id].status, d2.records[id].status)
    {
      assert id in d1.records;
    }
    forall id | id in d2.records && id !in d.records ensures d.next <= id {
      if id in d1.records { assert d.next <= id; } else { assert d1.next <= id; }
    }
  }

  // ---- steps -----------------------------------------------------------------------------------

  function SetStatus(d: Disk, id: nat, s: Status): Disk
    requires id in d.records
  {
    d.(records := d.records[id := d.records[id].(status := s)])
  }

  /** Journal writes the driver makes; each is one edge of the status graph with its guard. */
  predicate StatusEdge(d: Disk, id: nat, t: Status)
    requires id in d.records
  {
    match d.records[id].status
    case Submitting => t in {Pending, Uncertain}
    case Pending => t in {Rejected, Uncertain} || (t == Applying && CanApply(d.records, id))
    case Applying => t == Uncertain || (t == Applied && Invocation(Apply, id) in d.completed)
    case Applied => t == Reverting
    case Reverting => t == Uncertain || (t == Reverted && Invocation(Revert, id) in d.completed)
    case _ => false
  }

  lemma SetStatusLeads(d: Disk, id: nat, t: Status)
    requires id in d.records && StatusEdge(d, id, t)
    ensures Leads(d, SetStatus(d, id, t))
  {
  }

  lemma SetStatusKeepsCalls(d: Disk, id: nat, t: Status)
    requires CallsRecorded(d) && id in d.records && StatusEdge(d, id, t)
    ensures CallsRecorded(SetStatus(d, id, t))
  {
    var d' := SetStatus(d, id, t);
    forall j | j in d'.records ensures StatusTellsCalls(d', j) { assert StatusTellsCalls(d, j); }
  }

  lemma SetStatusKeepsOrder(d: Disk, id: nat, t: Status)
    requires AppliedInOrder(d) && id in d.records && StatusEdge(d, id, t)
    ensures AppliedInOrder(SetStatus(d, id, t))
  {
    var d' := SetStatus(d, id, t);
    forall c, j | c in d'.invoked && c.verb == Apply && j in d'.records && j < c.id
      ensures d'.records[j].status !in {Submitting, Pending, Applying}
    {
      assert d.records[j].status !in {Submitting, Pending, Applying};
    }
  }

  lemma SetStatusKeepsGood(d: Disk, id: nat, t: Status)
    requires DiskGood(d) && id in d.records && StatusEdge(d, id, t)
    ensures DiskGood(SetStatus(d, id, t)) && Leads(d, SetStatus(d, id, t))
  {
    SetStatusLeads(d, id, t);
    SetStatusKeepsCalls(d, id, t);
    SetStatusKeepsOrder(d, id, t);
  }

  function AddRecord(d: Disk, id: nat, r: ActionRecord): Disk {
    d.(records := d.records[id := r])
  }

  lemma AddRecordKeepsCalls(d: Disk, id: nat, r: ActionRecord)
    requires CallsRecorded(d) && id !in d.records && r.status == Submitting
    ensures CallsRecorded(AddRecord(d, id, r))
  {
    var d' := AddRecord(d, id, r);
    forall c | c in d'.invoked ensures c.id != id { assert c.id in d.records; }
    forall j | j in d'.records ensures StatusTellsCalls(d', j) {
      if j != id { assert StatusTellsCalls(d, j); }
    }
  }

  lemma AddRecordKeepsOrder(d: Disk, id: nat, r: ActionRecord)
    requires CallsRecorded(d) && AppliedInOrder(d) && forall j | j in d.records :: j < id
    ensures AppliedInOrder(AddRecord(d, id, r))
  {
    forall c | c in d.invoked ensures c.id < id { assert c.id in d.records; }
    hide CallsRecorded, AppliesIncrease;
  }

  lemma AddRecordKeepsIds(d: Disk, id: nat, r: ActionRecord)
    requires IdsFresh(d) && Settled(d.records) && 1 <= id < d.next && forall j | j in d.records :: j < id
    ensures IdsFresh(AddRecord(d, id, r))
  {
    assert forall j | j in d.records :: d.records[j].status != Submitting;
  }

  lemma AddRecordKeepsGood(d: Disk, id: nat, r: ActionRecord)
    requires DiskGood(d) && Settled(d.records) && r.status == Submitting
    requires 1 <= id < d.next && forall j | j in d.records :: j < id
    ensures DiskGood(AddRecord(d, id, r))
  {
    AddRecordKeepsCalls(d, id, r);
    AddRecordKeepsOrder(d, id, r);
    AddRecordKeepsIds(d, id, r);
    hide CallsRecorded, AppliedInOrder, StatusTellsCalls, IdsFresh;
  }

  function Invoke(d: Disk, v: Verb, id: nat): Disk {
    d.(invoked := d.invoked + [Invocation(v, id)])
  }

  lemma InvokeKeepsCalls(d: Disk, v: Verb, id: nat)
    requires CallsRecorded(d) && id in d.records && Invocation(v, id) !in d.invoked
    requires d.records[id].status == if v == Apply then Applying else Reverting
    ensures CallsRecorded(Invoke(d, v, id))
  {
    var d' := Invoke(d, v, id);
    assert forall c :: c in d'.invoked <==> c in d.invoked || c == Invocation(v, id);
    forall j | j in d'.records ensures StatusTellsCalls(d', j) { assert StatusTellsCalls(d, j); }
  }

  lemma InvokeKeepsIncrease(d: Disk, v: Verb, id: nat)
    requires AppliedInOrder(d) && id in d.records && Invocation(v, id) !in d.invoked
    requires v == Apply ==> d.records[id].status == Applying
    ensures AppliesIncrease(Invoke(d, v, id).invoked)
  {
    if v == Apply { EarlierApplies(d, id); }
    hide NoneOpenBefore;
  }

  lemma InvokeLeavesNoneOpen(d: Disk, v: Verb, id: nat)
    requires NoneOpenBefore(d)
    requires v == Apply ==> forall j | j in d.records && j < id :: Decided(d.records[j].status)
    ensures NoneOpenBefore(Invoke(d, v, id))
  {
    assert forall c :: c in Invoke(d, v, id).invoked <==> c in d.invoked || c == Invocation(v, id);
  }

  lemma InvokeKeepsOrder(d: Disk, v: Verb, id: nat)
    requires CallsRecorded(d) && AppliedInOrder(d) && id in d.records && Invocation(v, id) !in d.invoked
    requires v == Apply ==>
               d.records[id].status == Applying && forall j | j in d.records && j < id :: Decided(d.records[j].status)
    ensures AppliedInOrder(Invoke(d, v, id))
  {
    InvokeKeepsIncrease(d, v, id);
    InvokeLeavesNoneOpen(d, v, id);
    hide CallsRecorded, AppliesIncrease, NoneOpenBefore;
  }

  /** A later application would have left nothing open before it. */
  lemma EarlierApplies(d: Disk, id: nat)
    requires NoneOpenBefore(d) && id in d.records && d.records[id].status == Applying
    requires Invocation(Apply, id) !in d.invoked
    ensures forall i | 0 <= i < |d.invoked| && d.invoked[i].verb == Apply :: d.invoked[i].id < id
  {
    forall i | 0 <= i < |d.invoked| && d.invoked[i].verb == Apply ensures d.invoked[i].id < id {
      assert d.invoked[i] in d.invoked && d.invoked[i] != Invocation(Apply, id);
    }
  }

  /** The driver is called only for an action just marked, and only if it never was before. */
  lemma InvokeKeepsGood(d: Disk, v: Verb, id: nat)
    requires DiskGood(d) && id in d.records && Invocation(v, id) !in d.invoked
    requires d.records[id].status == if v == Apply then Applying else Reverting
    requires v == Apply ==> forall j | j in d.records && j < id :: Decided(d.records[j].status)
    ensures DiskGood(Invoke(d, v, id)) && Leads(d, Invoke(d, v, id))
  {
    InvokeKeepsCalls(d, v, id);
    InvokeKeepsOrder(d, v, id);
    SameIds(d, Invoke(d, v, id));
    HistoryLeads(d, Invoke(d, v, id));
    hide Leads, IdsFresh, CallsRecorded, AppliedInOrder, StatusTellsCalls;
  }

  function Complete(d: Disk, v: Verb, id: nat): Disk {
    d.(completed := d.completed + {Invocation(v, id)})
  }

  lemma CompleteKeepsCalls(d: Disk, v: Verb, id: nat)
    requires CallsRecorded(d) && id in d.records && Invocation(v, id) in d.invoked
    requires d.records[id].status == if v == Apply then Applying else Reverting
    ensures CallsRecorded(Complete(d, v, id))
  {
    var d' := Complete(d, v, id);
    forall j | j in d'.records ensures StatusTellsCalls(d', j) { assert StatusTellsCalls(d, j); }
    hide StatusTellsCalls;
  }

  lemma HistoryLeads(d: Disk, d': Disk)
    requires d'.records == d.records && d'.next == d.next && d.invoked <= d'.invoked && d.completed <= d'.completed
    ensures Leads(d, d')
  {
  }

  lemma SameIds(d: Disk, d': Disk)
    requires IdsFresh(d) && d'.records == d.records && d'.next == d.next
    ensures IdsFresh(d')
  {
  }

  lemma SameOrder(d: Disk, d': Disk)
    requires AppliedInOrder(d) && d'.records == d.records && d'.invoked == d.invoked
    ensures AppliedInOrder(d')
  {
    hide AppliesIncrease;
  }

  lemma CompleteKeepsGood(d: Disk, v: Verb, id: nat)
    requires DiskGood(d) && id in d.records && Invocation(v, id) in d.invoked
    requires d.records[id].status == if v == Apply then Applying else Reverting
    ensures DiskGood(Complete(d, v, id)) && Leads(d, Complete(d, v, id))
  {
    CompleteKeepsCalls(d, v, id);
    SameOrder(d, Complete(d, v, id));
    SameIds(d, Complete(d, v, id));
    HistoryLeads(d, Complete(d, v, id));
    hide Leads, IdsFresh, CallsRecorded, AppliedInOrder, StatusTellsCalls;
  }

  // ---- what the invariant says over a whole life -----------------------------------------------

  /** Journal and histories decide most of the invariant. */
  lemma SameJournalGood(d: Disk, d': Disk)
    requires d'.records == d.records && d'.invoked == d.invoked && d'.completed == d.completed
    ensures CallsRecorded(d) ==> CallsRecorded(d')
    ensures AppliedInOrder(d) ==> AppliedInOrder(d')
  {
    if CallsRecorded(d) {
      forall id | id in d'.records ensures StatusTellsCalls(d', id) { assert StatusTellsCalls(d, id); }
    }
    hide StatusTellsCalls, AppliesIncrease;
  }

  /** An action's `apply` and its `revert` are each invoked at most once, over every run. */
  lemma InvokedAtMostOnce(d: Disk, c: Invocation)
    requires DiskGood(d)
    ensures multiset(d.invoked)[c] <= 1
  {
    OnceInDistinct(d.invoked, c);
  }

  lemma {:induction false} OnceInDistinct<T>(s: seq<T>, x: T)
    requires forall i, j | 0 <= i < j < |s| :: s[i] != s[j]
    ensures multiset(s)[x] <= 1
  {
    if s != [] {
      assert s == s[..|s| - 1] + [s[|s| - 1]];
      OnceInDistinct(s[..|s| - 1], x);
      if x == s[|s| - 1] {
        assert x !in s[..|s| - 1];
        assert multiset(s[..|s| - 1])[x] == 0;
      }
    }
  }

  /** A rejected action was never applied, and never will be, whatever happens later. */
  lemma RejectedNeverApplies(d: Disk, d': Disk, id: nat)
    requires DiskGood(d) && DiskGood(d') && Leads(d, d') && id in d.records && d.records[id].status == Rejected
    ensures Invocation(Apply, id) !in d'.invoked && id in d'.records && d'.records[id].status == Rejected
  {
    assert StatusTellsCalls(d', id);
  }

  /** An uncertain action stays uncertain, and the driver is never called for it again. */
  lemma UncertainIsAbsorbing(d: Disk, d': Disk, id: nat)
    requires DiskGood(d) && DiskGood(d') && Leads(d, d') && id in d.records && d.records[id].status == Uncertain
    ensures id in d'.records && d'.records[id].status == Uncertain && !Settled(d'.records) && !CanApply(d'.records, id)
  {
  }

  /**
   * While an action is in doubt, no later one can be applied; an earlier pending one still can. The kit by itself
   * therefore blocks exactly the actions at or after the oldest one in doubt.
   */
  lemma InDoubtBlocksLater(d: Disk, stuck: nat, id: nat)
    requires DiskGood(d) && stuck in d.records && InDoubt(d.records[stuck].status)
    ensures CanApply(d.records, id) ==> id < stuck
  {
  }

  /** The earlier action really can: two queued writes, the second of which failed at submission. */
  lemma InDoubtDoesNotBlockEarlier() returns (d: Disk)
    ensures DiskGood(d) && d.records.Keys == {1, 2} && d.records[2].status == Uncertain && CanApply(d.records, 1)
  {
    var describe := Description("write", false, false, false, None);
    d := Disk(map[1 := ActionRecord("w", "", describe, Pending, None),
        2 := ActionRecord("w", "", describe, Uncertain, None)], 3, {1}, [], {});
  }
}
