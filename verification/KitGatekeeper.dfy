/** The base resource driver: submission, application, rejection and revert over one journal (kit-gatekeeper.ts). */
module KitGatekeeper {
  import opened Wrappers
  import opened KitJournal

  /** 2^53 - 1, the largest id the sequence can hold (action-sequencer.ts:22). */
  const MAX_SAFE_INTEGER: nat := 0x1F_FFFF_FFFF_FFFF

  /** A durable write, or a call into the driver, is done, throws without effect, or is where the process dies. */
  datatype Fate = Done | Failed | Crashed

  /** Simulation adds the overlay entry or not, and returns or throws. */
  datatype Simulation = Simulation(adds: bool, fate: Fate)

  /** Everything outside the kit: a result about every host covers every fault and every crash point. */
  datatype KitHost = KitHost(journal: nat -> Fate, overlay: nat -> Fate, queue: nat -> Fate, driver: nat -> Fate,
                             simulate: nat -> Simulation, closed: nat -> bool)

  function Max(a: nat, b: nat): nat {
    if a > b then a else b
  }

  datatype Outcome = Returned | Threw | Died

  /** No durable write throws; any of them may still be where the process dies. */
  ghost predicate WritesSucceed(h: KitHost) {
    forall t: nat :: h.overlay(t) != Failed && h.journal(t) != Failed
  }

  /** A driver whose simulation returns has recorded its overlay entry. */
  ghost predicate SimulationsRecord(h: KitHost) {
    forall t: nat :: h.simulate(t).fate == Done ==> h.simulate(t).adds
  }

  /** Journal, queue and driver work, and no session is closed meanwhile. */
  ghost predicate Working(h: KitHost) {
    forall t: nat :: h.journal(t) == Done && h.queue(t) == Done && h.driver(t) == Done && !h.closed(t)
  }

  ghost predicate OverlayWorks(h: KitHost) {
    forall t: nat :: h.overlay(t) == Done
  }

  ghost predicate OverlayFails(h: KitHost) {
    forall t: nat :: h.overlay(t) == Failed
  }

  ghost predicate Simulating(h: KitHost, s: Simulation) {
    forall t: nat :: h.simulate(t) == s
  }

  /** Nothing fails, nothing dies, and no session is closed meanwhile. */
  ghost predicate Faultless(h: KitHost) {
    Working(h) && OverlayWorks(h) && Simulating(h, Simulation(true, Done))
  }

  /** Nothing fails, but simulations return without having recorded their entry. */
  ghost predicate Forgetful(h: KitHost) {
    Working(h) && OverlayWorks(h) && Simulating(h, Simulation(false, Done))
  }

  /** Simulations throw, and the overlay file cannot be written. */
  ghost predicate Hostile(h: KitHost) {
    Working(h) && OverlayFails(h) && Simulating(h, Simulation(false, Failed))
  }

  const FORGETFUL := KitHost(_ => Done, _ => Done, _ => Done, _ => Done, _ => Simulation(false, Done), _ => false)

  const HOSTILE := KitHost(_ => Done, _ => Failed, _ => Done, _ => Done, _ => Simulation(false, Failed), _ => false)

  /** The ids among `runs`, each simulated at the tick given, whose simulation recorded an entry. */
  ghost function Recorded(h: KitHost, runs: map<nat, nat>): set<nat> {
    set id | id in runs && h.simulate(runs[id]).adds
  }

  /** Only the record of `id` may differ. */
  predicate OnlyRecord(d: Disk, d': Disk, id: nat) {
    && d'.records.Keys == d.records.Keys && d'.next == d.next
    && forall j | j in d.records && j != id :: d'.records[j] == d.records[j]
  }

  lemma NothingChanged(d: Disk, id: nat)
    requires DiskGood(d)
    ensures Leads(d, d) && OnlyRecord(d, d, id)
    ensures id in d.records && d.records[id].status == Applied ==> Invocation(Apply, id) in d.completed
    ensures id in d.records && d.records[id].status == Reverted ==> Invocation(Revert, id) in d.completed
  {
    if id in d.records { assert StatusTellsCalls(d, id); }
  }

  lemma OneStatus(d: Disk, d': Disk, id: nat, t: Status)
    requires id in d.records && (d' == d || d' == SetStatus(d, id, t))
    ensures OnlyRecord(d, d', id)
  {
  }

  lemma NextKeepsIds(d: Disk)
    requires IdsFresh(d)
    ensures IdsFresh(d.(next := d.next + 1)) && Leads(d, d.(next := d.next + 1))
    ensures 1 <= d.next && forall j | j in d.records :: j < d.next
  {
  }

  lemma NextKeepsGood(d: Disk)
    requires DiskGood(d)
    ensures DiskGood(d.(next := d.next + 1)) && Leads(d, d.(next := d.next + 1))
    ensures 1 <= d.next && forall j | j in d.records :: j < d.next
  {
    var d' := d.(next := d.next + 1);
    SameJournalGood(d, d');
    NextKeepsIds(d);
    hide IdsFresh, CallsRecorded, AppliedInOrder, Leads;
  }

  lemma OverlayOnly(d: Disk, d': Disk, id: nat)
    requires d' == d.(overlay := d'.overlay)
    ensures OnlyRecord(d, d', id)
  {
  }

  lemma LeadsSame(d: Disk, d': Disk, id: nat)
    requires Leads(d, d') && id in d.records
    ensures id in d'.records && SameAction(d.records[id], d'.records[id])
  {
  }

  lemma Added(d: Disk, d': Disk, id: nat, r: ActionRecord)
    requires DiskGood(d) && d' == AddRecord(d.(next := id + 1), id, r) && id == d.next
    ensures Leads(d, d')
  {
  }

  lemma Submitted(d: Disk, d1: Disk, d2: Disk, id: nat)
    requires Leads(d, d1) && Leads(d1, d2) && OnlyRecord(d1, d2, id) && id in d1.records && id !in d.records
    requires d1.records == d.records[id := d1.records[id]]
    ensures Leads(d, d2) && id in d2.records && SameAction(d1.records[id], d2.records[id])
    ensures forall j | j in d.records :: j in d2.records && d2.records[j] == d.records[j]
    ensures forall j | j in d2.records && j !in d.records :: j == id
  {
    LeadsTwice(d, d1, d2);
  }

  /** A settled submission breaks the agreement only by leaving its action pending without an entry. */
  lemma AgreesAfterSubmission(d: Disk, d': Disk, id: nat)
    requires Agrees(d) && id !in d.records && id in d'.records && Settled(d'.records)
    requires forall j | j in d.records :: j in d'.records && d'.records[j] == d.records[j]
    requires forall j | j in d'.records && j !in d.records :: j == id
    requires OverlayStep(d, d', id)
    requires var r := d'.records[id]; r.description.awaitDecision || r.status == Pending || InDoubt(r.status)
    ensures Agrees(d') <==> ShownIfQueued(d', id)
  {
    assert id !in d.overlay;
  }

  /** A submission may add and may drop the entry of its own id, and adds none for an action applied at once. */
  predicate OverlayStep(d: Disk, d': Disk, id: nat)
    requires id in d'.records
  {
    || d'.overlay == d.overlay || d'.overlay == d.overlay - {id}
    || (!d'.records[id].description.awaitDecision && d'.overlay == d.overlay + {id})
  }

  lemma LeadsItself(d: Disk)
    ensures Leads(d, d)
  {
  }

  lemma SetOverlayKeepsGood(d: Disk, overlay: set<nat>)
    requires DiskGood(d) && forall id | id in overlay :: id in d.records && !d.records[id].description.awaitDecision
    ensures DiskGood(d.(overlay := overlay)) && Leads(d, d.(overlay := overlay))
  {
    SameJournalGood(d, d.(overlay := overlay));
    hide CallsRecorded, AppliedInOrder;
  }

  /** An action that is no longer pending breaks the agreement exactly by leaving its entry behind. */
  lemma AgreesWithout(d: Disk, d': Disk, id: nat)
    requires Agrees(d) && OnlyRecord(d, d', id) && id in d'.records && d'.records[id].status != Pending
    requires d'.overlay == d.overlay - {id} || d'.overlay == d.overlay
    ensures Agrees(d') <==> id !in d'.overlay
  {
  }

  /** An action that was not pending and is not pending leaves the agreement alone. */
  lemma AgreesKept(d: Disk, d': Disk, id: nat)
    requires Agrees(d) && OnlyRecord(d, d', id) && id in d.records && d'.overlay == d.overlay
    requires d.records[id].status != Pending && d'.records[id].status != Pending
    ensures Agrees(d')
  {
  }

  lemma NotYetInvoked(d: Disk, id: nat)
    requires DiskGood(d) && id in d.records
    ensures d.records[id].status == Pending ==> Invocation(Apply, id) !in d.invoked
    ensures d.records[id].status == Applied ==> Invocation(Revert, id) !in d.invoked
  {
    assert StatusTellsCalls(d, id);
  }

  lemma OnlyRecordTwice(d: Disk, d1: Disk, d2: Disk, id: nat)
    requires OnlyRecord(d, d1, id) && (OnlyRecord(d1, d2, id) || (d1.records == d2.records && d1.next == d2.next))
    ensures OnlyRecord(d, d2, id)
    ensures id in d.records <==> id in d2.records
  {
  }

  predicate HasStatus(d: Disk, id: nat, s: Status) {
    id in d.records && d.records[id].status == s
  }

  /** Applied, and described as revertible. */
  predicate Revertible(d: Disk, id: nat) {
    id in d.records && d.records[id].status == Applied && d.records[id].description.implementsRevert
  }

  predicate OthersSettled(d: Disk, id: nat) {
    forall j | j in d.records && j != id :: !InDoubt(d.records[j].status)
  }

  predicate EarlierDecided(d: Disk, id: nat) {
    forall j | j in d.records && j < id :: Decided(d.records[j].status)
  }

  lemma StillSettled(d: Disk, d': Disk, id: nat)
    requires OnlyRecord(d, d', id) && Settled(d.records) && id in d'.records && !InDoubt(d'.records[id].status)
    ensures Settled(d'.records)
  {
  }

  lemma QueuedState(d: Disk, d': Disk, id: nat)
    requires id in d.records && d' == SetStatus(d, id, Pending)
    ensures OthersSettled(d, id) ==> Settled(d'.records)
    ensures EarlierDecided(d, id) <==> CanApply(d'.records, id)
  {
    assert forall j | j in d.records && j != id :: d'.records[j] == d.records[j];
    if CanApply(d'.records, id) {
      forall j | j in d.records && j < id ensures Decided(d.records[j].status) { assert d'.records[j] == d.records[j]; }
    }
  }

  /**
   * A submission with working storage and driver goes through: nothing in doubt, a new call, an id left, and its turn
   * if it is applied at once.
   */
  predicate Accepts(d: Disk, description: Description, callKey: Option<string>) {
    && Settled(d.records) && d.next < MAX_SAFE_INTEGER
    && (callKey.Some? ==> forall j | j in d.records :: d.records[j].callKey != callKey)
    && (description.awaitDecision ==> forall j | j in d.records :: Decided(d.records[j].status))
  }

  predicate ShownIfQueued(d: Disk, id: nat) {
    id in d.records && d.records[id].status == Pending && !d.records[id].description.awaitDecision ==> id in d.overlay
  }

  /** Recovery agrees with the journal exactly when every entry it missed was recorded again. */
  lemma AgreesAfterRecovery(d: Disk, d': Disk, recorded: set<nat>)
    requires d' == d.(overlay := d.overlay * Queued(d) + recorded) && recorded <= Missing(d)
    ensures Agrees(d') <==> recorded == Missing(d)
  {
    assert Queued(d') == Queued(d) && Queued(d) == d.overlay * Queued(d) + Missing(d);
  }

  /** Its turn to be applied, and simulated until then. */
  predicate ShownAndNext(d: Disk, id: nat) {
    CanApply(d.records, id) && id in d.overlay
  }

  lemma NextIsPending(d: Disk, id: nat)
    ensures CanApply(d.records, id) ==> id in d.records && d.records[id].status == Pending
  {
  }

  lemma NotSettled(d: Disk, id: nat)
    ensures id in d.records && InDoubt(d.records[id].status) ==> !Settled(d.records)
  {
  }

  lemma ShownIsQueued(d: Disk, id: nat)
    ensures Agrees(d) && id in d.overlay ==>
              id in d.records && d.records[id].status == Pending && !d.records[id].description.awaitDecision
  {
  }

  lemma OnlyMissing(d: Disk, d': Disk, id: nat)
    requires Agrees(d) && id !in d.records && id in d'.records && d'.overlay == d.overlay
    requires forall j | j in d.records :: j in d'.records && d'.records[j] == d.records[j]
    requires forall j | j in d'.records && j !in d.records :: j == id
    ensures !ShownIfQueued(d', id) ==> Missing(d') == {id}
  {
  }

  /**
   * What a submission does to the agreement. A normal return keeps it; settled, it is broken exactly by an action left
   * pending without its entry; that takes an accepted submission with a simulated effect, and some host leads to it.
   */
  ghost predicate AgreesUnlessStranded(h: KitHost, d: Disk, d': Disk, id: nat, o: Outcome, description: Description,
                                       callKey: Option<string>) {
    && (o == Returned ==> Agrees(d'))
    && (o == Threw && WritesSucceed(h) && Settled(d'.records) ==> Agrees(d'))
    && (Settled(d'.records) ==> (Agrees(d') <==> ShownIfQueued(d', id)))
    && (Settled(d'.records) && (description.awaitDecision || !Accepts(d, description, callKey)) ==> Agrees(d'))
    && (Hostile(h) && !description.awaitDecision && Accepts(d, description, callKey) ==>
          o == Threw && Settled(d'.records) && Missing(d') == {id})
  }

  lemma NotSubmitted(h: KitHost, d: Disk, d': Disk, o: Outcome, description: Description, callKey: Option<string>)
    requires d' == d.(next := d'.next) && DiskGood(d)
    ensures Agrees(d) && (Hostile(h) && !description.awaitDecision ==> !Accepts(d, description, callKey)) ==>
              AgreesUnlessStranded(h, d, d', d.next, o, description, callKey)
  {
    hide CallsRecorded, AppliedInOrder, WritesSucceed, Hostile, Accepts;
  }

  /** What is left of the admission once the record is durable. */
  lemma AcceptedSoFar(d: Disk, d': Disk, id: nat, description: Description, callKey: Option<string>)
    requires Settled(d.records) && !KeyUsed(d, callKey) && d.next < MAX_SAFE_INTEGER
    requires id in d'.records && d'.records == d.records[id := d'.records[id]] && forall j | j in d.records :: j < id
    ensures OthersSettled(d', id)
    ensures Accepts(d, description, callKey) <==> !description.awaitDecision || EarlierDecided(d', id)
  {
    if EarlierDecided(d', id) {
      forall j | j in d.records ensures Decided(d.records[j].status) { assert d'.records[j] == d.records[j]; }
    }
  }

  lemma AfterSubmission(h: KitHost, d: Disk, d': Disk, id: nat, o: Outcome, description: Description,
                        callKey: Option<string>)
    requires id !in d.records && id in d'.records && d'.records[id].description == description
    requires forall j | j in d.records :: j in d'.records && d'.records[j] == d.records[j]
    requires forall j | j in d'.records && j !in d.records :: j == id
    requires OverlayStep(d, d', id)
    requires description.awaitDecision || d'.records[id].status in {Submitting, Pending, Uncertain}
    requires o == Returned ==> if description.awaitDecision then d'.records[id].status == Applied
                               else d'.records[id].status == Pending && id in d'.overlay
    requires o == Threw && WritesSucceed(h) && Settled(d'.records) ==> d'.records[id].status != Pending
    requires Hostile(h) && !description.awaitDecision ==>
               o == Threw && d'.overlay == d.overlay && d'.records[id].status == Pending
    requires Settled(d.records) && (description.awaitDecision || Accepts(d, description, callKey))
    ensures Agrees(d) ==> AgreesUnlessStranded(h, d, d', id, o, description, callKey)
  {
    hide Agrees, Accepts, Hostile, WritesSucceed, Missing, Queued;
    if Agrees(d) {
      ShownIsQueued(d, id);
      if Settled(d'.records) { AgreesAfterSubmission(d, d', id); }
      if d'.overlay == d.overlay { OnlyMissing(d, d', id); }
    }
  }

  predicate KeyUsed(d: Disk, callKey: Option<string>) {
    callKey.Some? && exists j | j in d.records :: d.records[j].callKey == callKey
  }

  /** `d1` is a durable state on the way from `d` to `d'`, and has `r` under `id`. */
  predicate Between(d: Disk, d1: Disk, d': Disk, id: nat, r: ActionRecord) {
    DiskGood(d1) && Leads(d, d1) && Leads(d1, d') && id in d1.records && d1.records[id] == r
  }

  /** Entries of decided actions below `id` are gone, and no other. */
  predicate StaleBelow(d: Disk, d': Disk, id: nat) {
    d'.overlay == set j | j in d.overlay && (j < id ==> j in Queued(d))
  }

  lemma AllKnown(d: Disk)
    requires DiskGood(d)
    ensures StaleBelow(d, d, 1) && OverlayKnown(d) && d.next >= 1
  {
    hide CallsRecorded, AppliedInOrder;
  }

  lemma OneStaleLess(d: Disk, d1: Disk, d2: Disk, id: nat)
    requires OverlayKnown(d) && StaleBelow(d, d1, id) && d1.records == d.records
    requires d2.overlay == if id in d1.overlay && d.records[id].status != Pending then d1.overlay - {id} else d1.overlay
    ensures StaleBelow(d, d2, id + 1)
  {
  }

  lemma NoStaleLeft(d: Disk, d': Disk)
    requires DiskGood(d) && StaleBelow(d, d', d.next)
    ensures d'.overlay == d.overlay * Queued(d)
  {
    hide CallsRecorded, AppliedInOrder;
  }

  /** Recovery of `d` got below `id`: stale entries are dropped, and what was missing so far was simulated. */
  ghost predicate Recovering(h: KitHost, d: Disk, d': Disk, runs: map<nat, nat>, id: nat) {
    && d' == d.(overlay := d.overlay * Queued(d) + Recorded(h, runs))
    && (forall j: nat :: j in runs <==> j in Missing(d) && j < id)
    && (forall j | j in runs :: h.simulate(runs[j]).fate == Done)
  }

  lemma RecoveryBegins(h: KitHost, d: Disk, d': Disk)
    requires DiskGood(d) && d' == d.(overlay := d.overlay * Queued(d))
    ensures Recovering(h, d, d', map[], 1) && d.next >= 1
  {
    hide CallsRecorded, AppliedInOrder, OverlayKnown;
  }

  lemma RecoveryGoesOn(h: KitHost, d: Disk, d1: Disk, d2: Disk, runs: map<nat, nat>, id: nat, at: nat)
    requires Recovering(h, d, d1, runs, id)
    requires id !in Missing(d1) ==> d2 == d1
    requires id in Missing(d1) ==> h.simulate(at).fate == Done
    requires id in Missing(d1) ==> d2 == if h.simulate(at).adds then d1.(overlay := d1.overlay + {id}) else d1
    ensures Recovering(h, d, d2, if id in Missing(d) then runs[id := at] else runs, id + 1)
  {
    assert id in Missing(d1) <==> id in Missing(d);
    var more := runs[id := at];
    assert id in Missing(d) ==> Recorded(h, more) == Recorded(h, runs) + if h.simulate(at).adds then {id} else {};
  }

  lemma RecoveryEnds(h: KitHost, d: Disk, d': Disk, runs: map<nat, nat>)
    requires DiskGood(d) && Recovering(h, d, d', runs, d.next)
    ensures runs.Keys == Missing(d) && forall id | id in runs :: h.simulate(runs[id]).fate == Done
    ensures d'.overlay == d.overlay * Queued(d) + Recorded(h, runs)
    ensures Agrees(d') <==> forall id | id in runs :: h.simulate(runs[id]).adds
    ensures SimulationsRecord(h) || Missing(d) == {} ==> Agrees(d')
    ensures Forgetful(h) ==> (Agrees(d') <==> Missing(d) == {})
  {
    hide CallsRecorded, AppliedInOrder, OverlayKnown, Agrees;
    assert forall j | j in Missing(d) :: j < d.next;
    assert runs.Keys == Missing(d);
    AgreesAfterRecovery(d, d', Recorded(h, runs));
    assert Recorded(h, runs) == runs.Keys <==> forall id | id in runs :: id in Recorded(h, runs);
  }

  class KitGatekeeper {
    const host: KitHost
    var tick: nat
    /** Every value this field ever takes is good. */
    var disk: GoodDisk
    /** The in-memory journal and the next id. */
    var records: map<nat, ActionRecord>
    var nextId: nat

    ghost predicate Valid()
      reads this
    {
      records == disk.records && nextId == disk.next
    }

    /** Load the journal; the sequence starts above every recorded id (kit-gatekeeper.ts:32-47). */
    constructor (found: GoodDisk, host: KitHost)
      ensures Valid() && disk == found && this.host == host
    {
      this.host := host;
      disk := found;
      tick := 0;
      records := found.records;
      new;
      var minimum := 1;
      var left := found.records.Keys;
      while left != {}
        invariant disk == found && records == found.records && left <= found.records.Keys && 1 <= minimum <= found.next
        decreases left
      {
        var id :| id in left;
        minimum := if id >= minimum then id + 1 else minimum;
        left := left - {id};
      }
      nextId := Max(minimum, found.next);
    }

    method SaveStatus(id: nat, t: Status) returns (o: Outcome)
      requires Valid() && id in disk.records && StatusEdge(disk, id, t)
      modifies this
      ensures disk == if o == Returned then SetStatus(old(disk), id, t) else old(disk)
      ensures Valid() && Leads(old(disk), disk)
      ensures WritesSucceed(host) ==> o != Threw
      ensures Working(host) ==> o == Returned
    {
      hide Leads, DiskGood, StatusEdge, CanApply;
      LeadsItself(disk);
      SetStatusKeepsGood(disk, id, t);
      var fate := host.journal(tick);
      tick := tick + 1;
      if fate == Done {
        disk := SetStatus(disk, id, t);
        records := records[id := records[id].(status := t)];
      }
      o := match fate case Done => Returned case Failed => Threw case Crashed => Died;
    }

    /** Retire an overlay entry; a missing one is harmless (overlay-store.ts:38). */
    method OverlayRemove(id: nat) returns (o: Outcome)
      requires Valid()
      modifies this
      ensures disk == if o == Returned then old(disk).(overlay := old(disk).overlay - {id}) else old(disk)
      ensures Valid() && Leads(old(disk), disk)
      ensures WritesSucceed(host) ==> o != Threw
      ensures OverlayWorks(host) ==> o == Returned
      ensures OverlayFails(host) ==> o == Threw
    {
      LeadsItself(disk);
      var fate := host.overlay(tick);
      tick := tick + 1;
      if fate != Done { return if fate == Failed then Threw else Died; }
      SetOverlayKeepsGood(disk, disk.overlay - {id});
      hide Leads, IdsFresh, CallsRecorded, AppliedInOrder, OverlayKnown;
      disk := disk.(overlay := disk.overlay - {id});
      o := Returned;
    }

    /** One call into the driver for an action just marked `applying` or `reverting`. */
    method CallDriver(v: Verb, id: nat) returns (fate: Fate)
      requires Valid() && id in disk.records && Invocation(v, id) !in disk.invoked
      requires disk.records[id].status == if v == Apply then Applying else Reverting
      requires v == Apply ==> forall j | j in disk.records && j < id :: Decided(disk.records[j].status)
      modifies this
      ensures Valid() && Leads(old(disk), disk)
      ensures disk == if fate == Done then Complete(Invoke(old(disk), v, id), v, id) else Invoke(old(disk), v, id)
      ensures Working(host) ==> fate == Done
    {
      hide Leads, IdsFresh, CallsRecorded, AppliedInOrder, OverlayKnown;
      fate := host.driver(tick);
      tick := tick + 1;
      InvokeKeepsGood(disk, v, id);
      disk := Invoke(disk, v, id);
      if fate == Done {
        ghost var called := disk;
        CompleteKeepsGood(disk, v, id);
        disk := Complete(disk, v, id);
        LeadsTwice(old(disk), called, disk);
      }
    }

    method MarkApplying(id: nat) returns (o: Outcome)
      requires Valid() && CanApply(disk.records, id)
      modifies this
      ensures Valid() && Leads(old(disk), disk) && OnlyRecord(old(disk), disk, id)
      ensures disk.invoked == old(disk).invoked && disk.completed == old(disk).completed
      ensures disk.overlay == old(disk).overlay
      ensures o != Returned ==> disk == old(disk)
      ensures o == Returned ==>
                disk.records[id].status == Applying && forall j | j in disk.records && j < id ::
                  Decided(disk.records[j].status)
      ensures Working(host) ==> o == Returned
    {
      hide Leads, IdsFresh, CallsRecorded, AppliedInOrder, OverlayKnown;
      o := SaveStatus(id, Applying);
    }

    /** Mark, call the driver, record (kit-gatekeeper.ts:140-144). */
    method ApplyPending(id: nat) returns (o: Outcome)
      requires Valid() && CanApply(disk.records, id)
      modifies this
      ensures Valid() && id in disk.records && Leads(old(disk), disk) && OnlyRecord(old(disk), disk, id)
      ensures disk.overlay == old(disk).overlay
      ensures disk.invoked == old(disk).invoked || disk.invoked == old(disk).invoked + [Invocation(Apply, id)]
      ensures o == Returned ==> disk.records[id].status == Applied && Invocation(Apply, id) in disk.completed
      ensures o != Returned ==> disk == old(disk) || InDoubt(disk.records[id].status)
      ensures Working(host) ==> o == Returned
    {
      NotYetInvoked(disk, id);
      hide Leads, IdsFresh, CallsRecorded, AppliedInOrder, OverlayKnown, CanApply, OnlyRecord;
      o := MarkApplying(id);
      if o != Returned { return; }
      ghost var marked := disk;
      o := Effect(Apply, id);
      LeadsTwice(old(disk), marked, disk);
      OnlyRecordTwice(old(disk), marked, disk, id);
    }

    /** Apply one pending action, once; an applied one only loses a stale overlay entry (kit-gatekeeper.ts:135-146). */
    method ApplyRecorded(id: nat) returns (o: Outcome)
      requires Valid()
      modifies this
      ensures Valid() && Leads(old(disk), disk) && OnlyRecord(old(disk), disk, id)
      ensures o == Returned ==>
                id in disk.records && disk.records[id].status == Applied && Invocation(Apply, id) in disk.completed
      ensures o == Returned ==> id in old(disk).records && old(disk).records[id].status in {Pending, Applied}
      ensures disk.invoked == old(disk).invoked || (CanApply(old(disk).records, id)
              && disk.invoked == old(disk).invoked + [Invocation(Apply, id)])
      ensures disk.overlay == old(disk).overlay || disk.overlay == old(disk).overlay - {id}
      ensures o == Returned && Agrees(old(disk)) ==> Agrees(disk)
      ensures WritesSucceed(host) && o == Threw && Agrees(old(disk)) && Settled(disk.records) ==> Agrees(disk)
      ensures Agrees(old(disk)) && Settled(disk.records) ==>
                (Agrees(disk) <==> !(id in disk.overlay && disk.records[id].status == Applied))
      ensures Agrees(old(disk)) && Settled(disk.records) && !ShownAndNext(old(disk), id) ==> Agrees(disk)
      ensures Hostile(host) && Agrees(old(disk)) && Settled(old(disk).records) && ShownAndNext(old(disk), id) ==>
                o == Threw && Settled(disk.records) && !Agrees(disk)
      ensures o == Returned ==> disk.overlay == old(disk).overlay - {id}
      ensures Faultless(host) ==>
                (o == Returned <==> CanApply(old(disk).records, id) || HasStatus(old(disk), id, Applied))
    {
      hide Leads, IdsFresh, CallsRecorded, AppliedInOrder, OverlayKnown, Agrees, StatusTellsCalls, OnlyRecord, CanApply;
      hide Settled;
      NothingChanged(disk, id);
      ShownIsQueued(disk, id);
      NextIsPending(disk, id);
      if id !in records { return Threw; }
      if records[id].status != Applied {
        if !CanApply(records, id) { return Threw; }
        o := ApplyPending(id);
        if o != Returned { NotSettled(disk, id); return; }
      }
      ghost var applied := disk;
      o := OverlayRemove(id);
      LeadsTwice(old(disk), applied, disk);
      OnlyRecordTwice(old(disk), applied, disk, id);
      if Agrees(old(disk)) { AgreesWithout(old(disk), disk, id); }
      if Settled(old(disk).records) { StillSettled(old(disk), disk, id); }
    }

    /** The driver call between the two journal writes; a throw marks the action `uncertain`. */
    method Effect(v: Verb, id: nat) returns (o: Outcome)
      requires Valid() && id in disk.records && Invocation(v, id) !in disk.invoked
      requires disk.records[id].status == if v == Apply then Applying else Reverting
      requires v == Apply ==> forall j | j in disk.records && j < id :: Decided(disk.records[j].status)
      modifies this
      ensures Valid() && Leads(old(disk), disk) && OnlyRecord(old(disk), disk, id)
      ensures disk.invoked == old(disk).invoked + [Invocation(v, id)] && disk.overlay == old(disk).overlay
      ensures o == Returned ==>
                disk.records[id].status == (if v == Apply then Applied else Reverted)
                && Invocation(v, id) in disk.completed
      ensures o != Returned ==> InDoubt(disk.records[id].status)
      ensures Working(host) ==> o == Returned
    {
      hide Leads, IdsFresh, CallsRecorded, AppliedInOrder, OverlayKnown;
      var fate := CallDriver(v, id);
      ghost var called := disk;
      if fate == Crashed { return Died; }
      if fate == Failed {
        o := SaveStatus(id, Uncertain);
        LeadsTwice(old(disk), called, disk);
        return if o == Died then Died else Threw;
      }
      o := SaveStatus(id, if v == Apply then Applied else Reverted);
      LeadsTwice(old(disk), called, disk);
    }

    /** Remove a pending effect without calling the driver (kit-gatekeeper.ts:153-160). */
    method RejectAction(id: nat) returns (o: Outcome)
      requires Valid()
      modifies this
      ensures Valid() && Leads(old(disk), disk) && OnlyRecord(old(disk), disk, id) && disk.invoked == old(disk).invoked
      ensures o == Returned ==> id in disk.records && disk.records[id].status == Rejected
      ensures o == Returned && Agrees(old(disk)) ==> Agrees(disk)
      ensures WritesSucceed(host) && o == Threw ==> disk == old(disk)
      ensures Agrees(old(disk)) ==> (Agrees(disk) <==> !(id in disk.overlay && disk.records[id].status == Rejected))
      ensures Agrees(old(disk)) && id !in old(disk).overlay ==> Agrees(disk)
      ensures Hostile(host) && Agrees(old(disk)) && id in old(disk).overlay ==> o == Threw && !Agrees(disk)
      ensures Settled(old(disk).records) ==> Settled(disk.records)
      ensures o == Returned ==> disk.overlay == old(disk).overlay - {id}
      ensures Faultless(host) ==>
                (o == Returned <==> id in old(disk).records && old(disk).records[id].status in {Pending, Rejected})
    {
      hide Leads, IdsFresh, CallsRecorded, AppliedInOrder, OverlayKnown, Agrees, StatusTellsCalls, OnlyRecord, CanApply;
      NothingChanged(disk, id);
      ShownIsQueued(disk, id);
      if id !in records { return Threw; }
      if records[id].status != Rejected {
        if records[id].status != Pending { return Threw; }
        o := SaveStatus(id, Rejected);
        if o != Returned { return; }
      }
      ghost var rejected := disk;
      OneStatus(old(disk), disk, id, Rejected);
      o := OverlayRemove(id);
      LeadsTwice(old(disk), rejected, disk);
      OnlyRecordTwice(old(disk), rejected, disk, id);
      if Agrees(old(disk)) { AgreesWithout(old(disk), disk, id); }
      if Settled(old(disk).records) { StillSettled(old(disk), disk, id); }
    }

    /** Revert an applied action, once (kit-gatekeeper.ts:162-175). */
    method RevertAction(id: nat) returns (o: Outcome)
      requires Valid()
      modifies this
      ensures Valid() && Leads(old(disk), disk) && OnlyRecord(old(disk), disk, id) && disk.overlay == old(disk).overlay
      ensures o == Returned ==>
                id in disk.records && disk.records[id].status == Reverted && Invocation(Revert, id) in disk.completed
      ensures disk.invoked == old(disk).invoked || disk.invoked == old(disk).invoked + [Invocation(Revert, id)]
      ensures Agrees(old(disk)) && Settled(disk.records) ==> Agrees(disk)
      ensures disk != old(disk) ==> Revertible(old(disk), id)
      ensures Working(host) ==>
                (o == Returned <==> Revertible(old(disk), id) || HasStatus(old(disk), id, Reverted))
    {
      hide Leads, IdsFresh, CallsRecorded, AppliedInOrder, OverlayKnown, Agrees, StatusTellsCalls, OnlyRecord, CanApply;
      NothingChanged(disk, id);
      if id !in records { return Threw; }
      if records[id].status == Reverted { return Returned; }
      if records[id].status != Applied || !records[id].description.implementsRevert { return Threw; }
      o := RevertApplied(id);
      if Agrees(old(disk)) && Settled(disk.records) { AgreesKept(old(disk), disk, id); }
    }

    method RevertApplied(id: nat) returns (o: Outcome)
      requires Valid() && id in disk.records && disk.records[id].status == Applied
      modifies this
      ensures Valid() && Leads(old(disk), disk) && OnlyRecord(old(disk), disk, id) && disk.overlay == old(disk).overlay
      ensures id in disk.records && disk.records[id].status != Pending
      ensures o == Returned ==> disk.records[id].status == Reverted && Invocation(Revert, id) in disk.completed
      ensures disk.invoked == old(disk).invoked || disk.invoked == old(disk).invoked + [Invocation(Revert, id)]
      ensures Working(host) ==> o == Returned
    {
      hide Leads, IdsFresh, CallsRecorded, AppliedInOrder, OverlayKnown, Agrees, StatusTellsCalls, OnlyRecord, CanApply;
      NotYetInvoked(disk, id);
      o := SaveStatus(id, Reverting);
      OneStatus(old(disk), disk, id, Reverting);
      if o != Returned { return; }
      ghost var marked := disk;
      o := Effect(Revert, id);
      LeadsTwice(old(disk), marked, disk);
      OnlyRecordTwice(old(disk), marked, disk, id);
    }

    /** The driver's simulation of one queued action. */
    method Simulate(id: nat) returns (o: Outcome)
      requires Valid() && id in disk.records && !disk.records[id].description.awaitDecision
      modifies this
      ensures Valid() && Leads(old(disk), disk)
      ensures disk == if host.simulate(old(tick)).adds then old(disk).(overlay := old(disk).overlay + {id})
              else old(disk)
      ensures o == Returned <==> host.simulate(old(tick)).fate == Done
      ensures Simulating(host, Simulation(false, Failed)) ==> o == Threw
      ensures o == Returned && SimulationsRecord(host) ==> id in disk.overlay
      ensures Faultless(host) ==> o == Returned && id in disk.overlay
    {
      LeadsItself(disk);
      var s := host.simulate(tick);
      tick := tick + 1;
      if s.adds {
        assert OverlayKnown(disk);
        SetOverlayKeepsGood(disk, disk.overlay + {id});
        hide Leads, IdsFresh, CallsRecorded, AppliedInOrder, OverlayKnown;
        disk := disk.(overlay := disk.overlay + {id});
      }
      o := match s.fate case Done => Returned case Failed => Threw case Crashed => Died;
    }

    /** Drop entries of actions that are no longer pending (kit-gatekeeper.ts:59-61). */
    method DropStale() returns (o: Outcome)
      requires Valid()
      modifies this
      ensures Valid() && Leads(old(disk), disk) && disk == old(disk).(overlay := disk.overlay)
      ensures o == Returned ==> disk.overlay == old(disk).overlay * Queued(old(disk))
      ensures OverlayWorks(host) ==> o == Returned
    {
      hide Leads, IdsFresh, CallsRecorded, AppliedInOrder, OverlayWorks, OverlayFails, WritesSucceed, StaleBelow;
      LeadsItself(disk);
      AllKnown(disk);
      for id := 1 to nextId
        invariant Valid() && Leads(old(disk), disk) && disk == old(disk).(overlay := disk.overlay)
        invariant StaleBelow(old(disk), disk, id)
      {
        ghost var d := disk;
        if id in disk.overlay && records[id].status != Pending {
          o := OverlayRemove(id);
          LeadsTwice(old(disk), d, disk);
          if o != Returned { return; }
        }
        OneStaleLess(old(disk), d, disk, id);
      }
      NoStaleLeft(old(disk), disk);
      o := Returned;
    }

    /**
     * Rebuild the overlay from the journal before a session opens (kit-gatekeeper.ts:57-69), wherever the last crash
     * fell. The journal is not touched and the driver's `apply` and `revert` are not called. `runs` tells at which tick
     * each action was simulated. A normal return does not mean agreement: that takes every simulation that ran to have
     * recorded its entry, which the code does not check.
     */
    method RecoverOverlay() returns (o: Outcome, ghost runs: map<nat, nat>)
      requires Valid()
      modifies this
      ensures Valid() && Leads(old(disk), disk) && disk == old(disk).(overlay := disk.overlay)
      ensures o == Returned ==> Settled(disk.records) && runs.Keys == Missing(old(disk))
      ensures o == Returned ==> forall id | id in runs :: host.simulate(runs[id]).fate == Done
      ensures o == Returned ==> disk.overlay == old(disk).overlay * Queued(old(disk)) + Recorded(host, runs)
      ensures o == Returned ==> (Agrees(disk) <==> forall id | id in runs :: host.simulate(runs[id]).adds)
      ensures o == Returned && (SimulationsRecord(host) || Missing(old(disk)) == {}) ==> Agrees(disk)
      ensures Faultless(host) || Forgetful(host) ==> (o == Returned <==> Settled(old(disk).records))
      ensures Forgetful(host) && o == Returned ==> (Agrees(disk) <==> Missing(old(disk)) == {})
    {
      hide Leads, DiskGood, SimulationsRecord, Agrees, Working, OverlayWorks, Settled, Recorded, Recovering, Missing;
      runs := map[];
      LeadsItself(disk);
      if !Settled(records) { return Threw, runs; }
      o := DropStale();
      if o != Returned { return; }
      RecoveryBegins(host, old(disk), disk);
      for id := 1 to nextId
        invariant Valid() && Leads(old(disk), disk) && disk == old(disk).(overlay := disk.overlay)
        invariant Recovering(host, old(disk), disk, runs, id)
      {
        ghost var d, at := disk, tick;
        o := RecoverOne(id);
        LeadsTwice(old(disk), d, disk);
        if o != Returned { return; }
        RecoveryGoesOn(host, old(disk), d, disk, runs, id, at);
        if id in Missing(old(disk)) { runs := runs[id := at]; }
      }
      o := Returned;
      RecoveryEnds(host, old(disk), disk, runs);
    }

    /** A pending action without its overlay entry is simulated again (kit-gatekeeper.ts:62-67). */
    method RecoverOne(id: nat) returns (o: Outcome)
      requires Valid()
      modifies this
      ensures Valid() && Leads(old(disk), disk)
      ensures id !in Missing(old(disk)) ==> o == Returned && disk == old(disk)
      ensures id in Missing(old(disk)) ==>
                && (o == Returned <==> host.simulate(old(tick)).fate == Done)
                && disk == if host.simulate(old(tick)).adds then old(disk).(overlay := old(disk).overlay + {id})
                   else old(disk)
    {
      LeadsItself(disk);
      o := Returned;
      if id in records && records[id].status == Pending && !records[id].description.awaitDecision
         && id !in disk.overlay {
        hide Leads, DiskGood;
        o := Simulate(id);
      }
    }

    /** Reserve the next id durably before anything can be submitted under it (action-sequencer.ts:20-26). */
    method Reserve() returns (o: Outcome, id: nat)
      requires Valid()
      modifies this
      ensures Valid() && Leads(old(disk), disk) && disk == old(disk).(next := disk.next)
      ensures id == old(disk).next && (o == Returned ==> disk.next == id + 1)
      ensures old(disk).next <= disk.next && (old(disk).next >= MAX_SAFE_INTEGER ==> o == Threw && disk == old(disk))
      ensures Working(host) ==> (o == Returned <==> old(disk).next < MAX_SAFE_INTEGER)
    {
      hide Leads, DiskGood;
      id := nextId;
      LeadsItself(disk);
      NextKeepsGood(disk);
      if nextId >= MAX_SAFE_INTEGER { return Threw, id; }
      var fate := host.journal(tick);
      tick := tick + 1;
      if fate == Done {
        disk := disk.(next := id + 1);
        nextId := id + 1;
      }
      o := match fate case Done => Returned case Failed => Threw case Crashed => Died;
    }

    method SaveNew(id: nat, r: ActionRecord) returns (o: Outcome)
      requires Valid() && Settled(disk.records) && r.status == Submitting
      requires 1 <= id < disk.next && forall j | j in disk.records :: j < id
      modifies this
      ensures Valid() && disk == if o == Returned then AddRecord(old(disk), id, r) else old(disk)
      ensures Working(host) ==> o == Returned
    {
      AddRecordKeepsGood(disk, id, r);
      hide Leads, IdsFresh, CallsRecorded, AppliedInOrder, OverlayKnown, Agrees, StatusTellsCalls, OnlyRecord, CanApply;
      var fate := host.journal(tick);
      tick := tick + 1;
      if fate != Done { return if fate == Failed then Threw else Died; }
      disk := AddRecord(disk, id, r);
      records := records[id := r];
      o := Returned;
    }

    /** The simulated or immediate effect of a submission the queue accepted (kit-gatekeeper.ts:116-123). */
    method Perform(id: nat) returns (o: Outcome)
      requires Valid() && id in disk.records && disk.records[id].status == Pending
      modifies this
      ensures Valid() && Leads(old(disk), disk) && OnlyRecord(old(disk), disk, id) && id in disk.records
      ensures OverlayStep(old(disk), disk, id)
      ensures disk.records[id].description.awaitDecision || disk.records[id].status == Pending
      ensures Hostile(host) && !old(disk).records[id].description.awaitDecision ==> o == Threw && disk == old(disk)
      ensures disk.records[id].description == old(disk).records[id].description
      ensures o == Returned ==>
                if disk.records[id].description.awaitDecision
                then disk.records[id].status == Applied && Invocation(Apply, id) in disk.completed
                else disk.records[id].status == Pending && id in disk.overlay
      ensures disk.records[id].description.awaitDecision || disk.invoked == old(disk).invoked
      ensures disk.invoked == old(disk).invoked || disk.invoked == old(disk).invoked + [Invocation(Apply, id)]
      ensures Faultless(host) && Settled(old(disk).records) ==>
                (o == Returned <==> !old(disk).records[id].description.awaitDecision || CanApply(old(disk).records, id))
    {
      hide Leads, IdsFresh, CallsRecorded, AppliedInOrder, OverlayKnown, Agrees, StatusTellsCalls, OnlyRecord, CanApply;
      NothingChanged(disk, id);
      if host.closed(tick) || !Settled(records) { return Threw; }
      if records[id].description.awaitDecision {
        o := ApplyRecorded(id);
      } else {
        o := Simulate(id);
        OverlayOnly(old(disk), disk, id);
        if o == Returned && id !in disk.overlay { o := Threw; }
      }
      LeadsSame(old(disk), disk, id);
      if o == Returned && Settled(old(disk).records) { StillSettled(old(disk), disk, id); }
      if o == Returned && (host.closed(tick) || !Settled(records)) { o := Threw; }
    }

    /**
     * The effect did not come about: retire its overlay entry and never offer the action again
     * (kit-gatekeeper.ts:124-129).
     */
    method Abandon(id: nat) returns (o: Outcome)
      requires Valid() && id in disk.records
      modifies this
      ensures Valid() && Leads(old(disk), disk) && OnlyRecord(old(disk), disk, id) && disk.invoked == old(disk).invoked
      ensures id in disk.records
      ensures o != Returned && (disk.overlay == old(disk).overlay || disk.overlay == old(disk).overlay - {id})
      ensures o == Threw && WritesSucceed(host) ==>
                disk.overlay == old(disk).overlay - {id} && disk.records[id].status != Pending
      ensures disk.records[id].status == old(disk).records[id].status || disk.records[id].status == Uncertain
      ensures Hostile(host) ==> o == Threw && disk == old(disk)
    {
      hide Leads, IdsFresh, CallsRecorded, AppliedInOrder, OverlayKnown, Agrees, StatusTellsCalls, OnlyRecord, CanApply;
      NothingChanged(disk, id);
      o := OverlayRemove(id);
      OverlayOnly(old(disk), disk, id);
      if o != Returned { return; }
      ghost var removed := disk;
      if records[id].status == Pending {
        o := SaveStatus(id, Uncertain);
        OneStatus(removed, disk, id, Uncertain);
        LeadsTwice(old(disk), removed, disk);
        OnlyRecordTwice(old(disk), removed, disk, id);
      }
      if o == Returned { o := Threw; }
    }

    /** The effect of a submission the queue accepted, abandoned when it throws (kit-gatekeeper.ts:116-129). */
    method TakeEffect(id: nat) returns (o: Outcome)
      requires Valid() && id in disk.records && disk.records[id].status == Pending
      modifies this
      ensures Valid() && Leads(old(disk), disk) && OnlyRecord(old(disk), disk, id) && id in disk.records
      ensures disk.records[id].description == old(disk).records[id].description
      ensures o == Returned ==>
                if disk.records[id].description.awaitDecision
                then disk.records[id].status == Applied && Invocation(Apply, id) in disk.completed
                else disk.records[id].status == Pending && id in disk.overlay
      ensures OverlayStep(old(disk), disk, id)
      ensures disk.records[id].description.awaitDecision || disk.records[id].status in {Pending, Uncertain}
      ensures Hostile(host) && !old(disk).records[id].description.awaitDecision ==> o == Threw && disk == old(disk)
      ensures o == Threw && WritesSucceed(host) && Settled(disk.records) ==>
                disk.records[id].status != Pending && id !in disk.overlay
      ensures disk.invoked == old(disk).invoked || disk.invoked == old(disk).invoked + [Invocation(Apply, id)]
      ensures Faultless(host) && Settled(old(disk).records) ==>
                (o == Returned <==> !old(disk).records[id].description.awaitDecision || CanApply(old(disk).records, id))
    {
      hide Leads, IdsFresh, CallsRecorded, AppliedInOrder, OverlayKnown, Agrees, StatusTellsCalls, OnlyRecord, CanApply;
      hide Settled;
      o := Perform(id);
      ghost var performed := disk;
      if o == Threw {
        o := Abandon(id);
        LeadsSame(performed, disk, id);
        assert old(disk).overlay + {id} - {id} == old(disk).overlay - {id};
        assert old(disk).overlay - {id} - {id} == old(disk).overlay - {id};
        LeadsTwice(old(disk), performed, disk);
        OnlyRecordTwice(old(disk), performed, disk, id);
      }
    }

    /** Everything after the new record is durable (kit-gatekeeper.ts:113-129). */
    method Proceed(id: nat) returns (o: Outcome)
      requires Valid() && id in disk.records && disk.records[id].status == Submitting
      modifies this
      ensures Valid() && Leads(old(disk), disk) && OnlyRecord(old(disk), disk, id) && id in disk.records
      ensures disk.records[id].description == old(disk).records[id].description
      ensures o == Returned ==>
                if disk.records[id].description.awaitDecision
                then disk.records[id].status == Applied && Invocation(Apply, id) in disk.completed
                else disk.records[id].status == Pending && id in disk.overlay
      ensures OverlayStep(old(disk), disk, id)
      ensures disk.records[id].description.awaitDecision || disk.records[id].status in {Submitting, Pending, Uncertain}
      ensures Hostile(host) && !old(disk).records[id].description.awaitDecision ==>
                o == Threw && disk == SetStatus(old(disk), id, Pending)
      ensures o == Threw && WritesSucceed(host) && Settled(disk.records) ==>
                disk.records[id].status != Pending && id !in disk.overlay
      ensures disk.invoked == old(disk).invoked || disk.invoked == old(disk).invoked + [Invocation(Apply, id)]
      ensures Faultless(host) && OthersSettled(old(disk), id) ==>
                (o == Returned <==> !old(disk).records[id].description.awaitDecision || EarlierDecided(old(disk), id))
    {
      hide Leads, IdsFresh, CallsRecorded, AppliedInOrder, OverlayKnown, Agrees, StatusTellsCalls, OnlyRecord, CanApply;
      NothingChanged(disk, id);
      var fate := host.queue(tick);
      tick := tick + 1;
      if fate == Crashed { return Died; }
      o := SaveStatus(id, if fate == Done then Pending else Uncertain);
      OneStatus(old(disk), disk, id, if fate == Done then Pending else Uncertain);
      if o != Returned { return; }
      if fate == Failed { return Threw; }
      ghost var queued := disk;
      QueuedState(old(disk), queued, id);
      hide OthersSettled, EarlierDecided, Settled;
      o := TakeEffect(id);
      LeadsTwice(old(disk), queued, disk);
      OnlyRecordTwice(old(disk), queued, disk, id);
    }

    /**
     * One action call, from the reservation of its id to its effect (kit-gatekeeper.ts:106-130). The record of the
     * new id is the only one that changes, and its id was never used before. `offered` is the durable state in which
     * the queue was asked, if it came to that.
     */
    method Submit(tool: string, params: string, description: Description, callKey: Option<string>)
      returns (o: Outcome, id: nat, ghost offered: Option<Disk>)
      requires Valid()
      modifies this
      ensures Valid() && Leads(old(disk), disk) && id == old(disk).next && id !in old(disk).records
      ensures forall j | j in old(disk).records :: j in disk.records && disk.records[j] == old(disk).records[j]
      ensures forall j | j in disk.records && j !in old(disk).records :: j == id
      ensures !Settled(old(disk).records) ==> o == Threw && disk == old(disk)
      ensures KeyUsed(old(disk), callKey) ==> o == Threw && disk == old(disk)
      ensures o == Returned ==>
                && id in disk.records
                && disk.records[id] == ActionRecord(tool, params, description,
                     if description.awaitDecision then Applied else Pending, callKey)
      ensures o == Returned && description.awaitDecision ==> Invocation(Apply, id) in disk.completed
      ensures Agrees(old(disk)) ==> AgreesUnlessStranded(host, old(disk), disk, id, o, description, callKey)
      ensures Faultless(host) ==> (o == Returned <==> Accepts(old(disk), description, callKey))
      ensures offered.Some? ==>
                Between(old(disk), offered.value, disk, id,
                    ActionRecord(tool, params, description, Submitting, callKey))
      ensures offered == None ==> o != Returned && disk.records == old(disk).records
    {
      hide Leads, IdsFresh, CallsRecorded, AppliedInOrder, OverlayKnown, Agrees, StatusTellsCalls, OnlyRecord, CanApply;
      hide WritesSucceed, OverlayWorks, OverlayFails, Simulating, AgreesUnlessStranded;
      id := nextId;
      offered := None;
      NothingChanged(disk, id);
      NextKeepsGood(disk);
      NotSubmitted(host, disk, disk, Threw, description, callKey);
      if host.closed(tick) || !Settled(records) { return Threw, id, None; }
      if callKey.Some? && exists j | j in records :: records[j].callKey == callKey { return Threw, id, None; }
      o, id := Reserve();
      NotSubmitted(host, old(disk), disk, o, description, callKey);
      if o != Returned { return; }
      var record := ActionRecord(tool, params, description, Submitting, callKey);
      o := SaveNew(id, record);
      if o != Returned {
        NotSubmitted(host, old(disk), disk, o, description, callKey);
        return;
      }
      Added(old(disk), disk, id, record);
      AcceptedSoFar(old(disk), disk, id, description, callKey);
      offered := Some(disk);
      hide Accepts, OthersSettled, EarlierDecided, Settled, KeyUsed, ShownIfQueued;
      o := Proceed(id);
      Submitted(old(disk), offered.value, disk, id);
      AfterSubmission(host, old(disk), disk, id, o, description, callKey);
    }
  }

  // ---- agreement lost and not restored -----------------------------------------------------------

  lemma FaultyHosts()
    ensures Forgetful(FORGETFUL) && Hostile(HOSTILE)
  {
  }

  /** Whatever recovery missed, some host lets it return without the entries. */
  method SomeHostForgets(found: GoodDisk) returns (k: KitGatekeeper, o: Outcome)
    requires Settled(found.records) && Missing(found) != {}
    ensures fresh(k) && k.disk.records == found.records && o == Returned && !Agrees(k.disk)
  {
    hide Leads, DiskGood, Agrees, SimulationsRecord, Forgetful, Faultless;
    FaultyHosts();
    k := new KitGatekeeper(found, FORGETFUL);
    var outcome, _ := k.RecoverOverlay();
    o := outcome;
  }

  /** Any action that is shown and next can be applied and leave its entry behind. */
  method SomeHostStrands(found: GoodDisk, id: nat) returns (k: KitGatekeeper, o: Outcome)
    requires Agrees(found) && Settled(found.records) && ShownAndNext(found, id)
    ensures fresh(k) && o == Threw && Settled(k.disk.records) && !Agrees(k.disk)
  {
    hide Leads, DiskGood, Agrees, OnlyRecord, CanApply, WritesSucceed, Hostile, Faultless;
    FaultyHosts();
    k := new KitGatekeeper(found, HOSTILE);
    o := k.ApplyRecorded(id);
  }

  /** One life from the empty journal: a submission leaves its action without an entry, and recovery returns over it. */
  method AgreementLostForGood() returns (k: KitGatekeeper, d: GoodDisk, o: Outcome)
    ensures Settled(d.records) && Missing(d) == {1}
    ensures fresh(k) && k.disk.records == d.records && o == Returned && !Agrees(k.disk)
  {
    assert DiskGood(EMPTY_DISK);
    hide Leads, DiskGood, CanApply, WritesSucceed, Hostile, Faultless;
    FaultyHosts();
    var first := new KitGatekeeper(EMPTY_DISK, HOSTILE);
    var describe := Description("write", false, false, false, None);
    var _, id, _ := first.Submit("write", "", describe, None);
    d := first.disk;
    k, o := SomeHostForgets(d);
  }
}
