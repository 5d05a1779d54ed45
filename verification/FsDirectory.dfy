/**
 * The directory driver: its write action over the kit's statuses and the transaction driver (directory.ts, class
 * `FsDirectory`).
 */
module FsDirectory {
  import opened Wrappers
  import opened FileSystem
  import opened TransactionWorld
  import opened Transactions
  import opened DirectoryQueue
  import opened DirectoryOrder
  import K = KitJournal

  // ---- what the journal says about the transactions ----------------------------------------------

  /** A journal status next to the transactions of its action. */
  predicate RecordBacked(status: map<nat, K.Status>, effects: map<nat, Effect>, w: World, id: nat)
    requires id in status
  {
    && (status[id] in {K.Submitting, K.Pending, K.Rejected} ==> Key(Apply, id) !in w.tx)
    && (status[id] !in {K.Reverting, K.Reverted, K.Uncertain} ==> Key(Revert, id) !in w.tx)
    && (status[id] in {K.Applied, K.Reverted} ==> Backed(effects, w, Key(Apply, id)))
    && (status[id] == K.Reverted ==> Backed(effects, w, Key(Revert, id)))
  }

  /** `applied` in the journal means the transaction reached `applied`, with its receipt and preimage. */
  predicate Backed(effects: map<nat, Effect>, w: World, k: Key) {
    && k in w.tx && w.tx[k].phase == Applied && k in w.receipts && k in w.preimages && k.id in effects
    && w.receipts[k].path == effects[k.id].path == w.preimages[k].path
    && (w.preimages[k].content.Some? ==> IsText(w.preimages[k].content.value.bytes))
  }

  predicate TxKnown(status: map<nat, K.Status>, w: World, k: Key)
    requires k in w.tx
  {
    k.id in status && (w.tx[k].phase != Applied ==> K.InDoubt(status[k.id]))
  }

  predicate JournalBacked(status: map<nat, K.Status>, effects: map<nat, Effect>, w: World) {
    && (forall id | id in status :: RecordBacked(status, effects, w, id))
    && (forall k | k in w.tx :: TxKnown(status, w, k))
    && w.receipts.Keys <= w.tx.Keys
    && (forall id | id in status && status[id] == K.Pending :: id in effects)
    && (forall id | id in effects :: id in status)
  }

  /** A resource with nothing in doubt has no unfinished transaction. */
  lemma NothingInDoubtIsSettled(status: map<nat, K.Status>, effects: map<nat, Effect>, w: World)
    requires JournalBacked(status, effects, w) && forall id | id in status :: !K.InDoubt(status[id])
    ensures Settled(w)
  {
    forall k | k in w.tx ensures w.tx[k].phase == Applied { assert TxKnown(status, w, k); }
  }

  lemma StatusKeepsBacked(status: map<nat, K.Status>, effects: map<nat, Effect>, w: World, id: nat, s: K.Status)
    requires JournalBacked(status, effects, w) && id in status
    requires RecordBacked(status[id := s], effects, w, id)
    requires K.InDoubt(s) || forall k | k in w.tx && k.id == id :: w.tx[k].phase == Applied
    requires s == K.Pending ==> id in effects
    ensures JournalBacked(status[id := s], effects, w)
  {
    var status' := status[id := s];
    forall j | j in status' ensures RecordBacked(status', effects, w, j) {
      if j != id { assert RecordBacked(status, effects, w, j); }
    }
    forall k | k in w.tx ensures TxKnown(status', w, k) { assert TxKnown(status, w, k); }
  }

  lemma OtherStaysBacked(effects: map<nat, Effect>, w: World, w': World, k: Key, j: Key)
    requires OthersKept(w, w', k) && j != k
    ensures Backed(effects, w', j) <==> Backed(effects, w, j)
    ensures j in w'.tx <==> j in w.tx
  {
  }

  lemma RunKeepsRecord(status: map<nat, K.Status>, effects: map<nat, Effect>, w: World, w': World, k: Key, j: nat)
    requires JournalBacked(status, effects, w) && OthersKept(w, w', k) && k.id in status && j in status
    requires status[k.id] == if k.kind == Apply then K.Applying else K.Reverting
    ensures RecordBacked(status, effects, w', j)
  {
    assert RecordBacked(status, effects, w, j);
    hide OthersKept, Backed;
    if Key(Apply, j) != k { OtherStaysBacked(effects, w, w', k, Key(Apply, j)); }
    if Key(Revert, j) != k { OtherStaysBacked(effects, w, w', k, Key(Revert, j)); }
  }

  /** A transaction of an action in doubt touches nothing another record relies on. */
  lemma RunKeepsBacked(status: map<nat, K.Status>, effects: map<nat, Effect>, w: World, w': World, k: Key)
    requires JournalBacked(status, effects, w) && OthersKept(w, w', k) && k.id in status
    requires status[k.id] == if k.kind == Apply then K.Applying else K.Reverting
    requires k in w'.receipts ==> k in w'.tx
    requires k.kind == Revert ==> Backed(effects, w, Key(Apply, k.id))
    ensures JournalBacked(status, effects, w')
    ensures k.kind == Revert ==> Backed(effects, w', Key(Apply, k.id))
  {
    forall j | j in status ensures RecordBacked(status, effects, w', j) {
      RunKeepsRecord(status, effects, w, w', k, j);
    }
    if k.kind == Revert { OtherStaysBacked(effects, w, w', k, Key(Apply, k.id)); }
    hide RecordBacked, Backed;
    forall j | j in w'.tx ensures TxKnown(status, w', j) { if j in w.tx { assert TxKnown(status, w, j); } }
    forall j | j in w'.receipts ensures j in w'.tx { if j != k { assert j in w.receipts; } }
  }

  /** There is always an unused stage name (apply.ts:119). */
  lemma {:induction false} LongName(names: set<Name>) returns (n: Name)
    ensures forall m | m in names :: |m| < |n|
  {
    if names == {} { return "s"; }
    var m :| m in names;
    var rest := LongName(names - {m});
    n := rest + m + "s";
    forall x | x in names ensures |x| < |n| { assert x == m || x in names - {m}; }
  }

  /** A plain single-link file whose content alone makes `inspect` refuse it: too large, or not text. */
  predicate OnlyContentRefused(d: Dir, path: Name)
    requires ValidDir(d)
  {
    SoleName(d, path) && d.inodes[d.names[path]].plain && !IsText(d.inodes[d.names[path]].bytes)
  }

  /**
   * The recorded preimage of an applied write is what the write expected: its baseline, or a predecessor's
   * publication.
   */
  ghost predicate DisplacedExpected(was: Resource, w: World, id: nat) {
    && id in was.effects && ExpectedAt(was, id).Some?
    && PreimageIs(w, Key(Apply, id), was.effects[id].path, ExpectedAt(was, id).value)
  }

  lemma Displaced(was: Resource, id: nat, expected: Expected)
    requires id in was.effects && ExpectedAt(was, id) == Some(expected)
    ensures forall w: World ::
              PreimageIs(w, Key(Apply, id), was.effects[id].path, expected) ==> DisplacedExpected(was, w, id)
  {
  }

  /** What a revert displaced is the file its own application published. */
  predicate DisplacedOwn(w: World, w': World, id: nat, effects: map<nat, Effect>) {
    && Key(Apply, id) in w.receipts && id in effects
    && PreimageIs(w', Key(Revert, id), effects[id].path, ExpectedFromReceipt(w.receipts[Key(Apply, id)]))
  }

  lemma OwnDisplaced(w: World, w': World, id: nat, effects: map<nat, Effect>)
    requires Key(Apply, id) in w.receipts && id in effects
    requires PreimageIs(w', Key(Revert, id), effects[id].path, ExpectedFromReceipt(w.receipts[Key(Apply, id)]))
    ensures DisplacedOwn(w, w', id, effects)
  {
  }

  /** A revert was offered, there are bytes to put back, and the file it applied is still in place. */
  predicate Revertable(r: Resource, w: World, id: nat, uid: nat) {
    && ValidDir(r.dir) && id in r.effects && r.effects[id].implementsRevert
    && Key(Apply, id) in w.preimages && w.preimages[Key(Apply, id)].content.Some?
    && Standing(r, Key(Apply, id), r.effects[id].path, uid)
  }

  /** The action is reverted, to the bytes its application recorded. */
  ghost predicate Undone(was: Resource, now: Resource, w: World, id: nat, uid: nat) {
    && Key(Apply, id) in w.preimages && w.preimages[Key(Apply, id)].content.Some?
    && RevertedTo(was, now, id, uid, w.preimages[Key(Apply, id)].content.value.bytes)
  }

  lemma PutBack(was: Resource, now: Resource, w: World, w': World, id: nat, content: Bytes, r: Receipt, uid: nat)
    requires was.dir == w.dir && was.receipts == w.receipts && ValidDir(w.dir) && OthersKept(w, w', Key(Revert, id))
    requires IsText(content)
    requires id in was.status && was.status[id] == K.Applied && id in was.effects
    requires Standing(was, Key(Apply, id), was.effects[id].path, uid)
    requires Key(Revert, id) in w'.receipts && w'.receipts[Key(Revert, id)] == r
    requires PublishedAsExpected(w.dir, w'.dir, was.effects[id].path, content,
               ExpectedFromReceipt(was.receipts[Key(Apply, id)]), Some(r), uid)
    requires now == was.(dir := w'.dir, receipts := w'.receipts, status := was.status[id := K.Reverted])
    ensures RevertedTo(was, now, id, uid, content)
  {
    PublishedFrom(was, now, w, w', Key(Revert, id), was.effects[id].path, content, uid);
  }

  /** An application came out as forecast. */
  ghost predicate AsForecast(was: Resource, now: Resource, id: nat, ok: bool, uid: nat) {
    && ValidDir(was.dir) && id in was.effects
    && (ok <==> WillApply(was, id, uid)) && (ok ==> AppliedTo(was, now, id, uid))
  }

  /** What an undisturbed transaction does. */
  ghost predicate PublishedAsExpected(d: Dir, d': Dir, path: Name, content: Bytes, expected: Expected,
                                      r: Option<Receipt>, uid: nat)
    requires ValidDir(d)
  {
    && (r.Some? <==> Replaceable(Inspect(d, path), expected, uid))
    && (r.Some? ==> Replaced(d, d', path, content, uid, r.value)
                    && r.value.path == path && r.value.size == |content| && r.value.desired == Sha256(content))
  }

  /** Undisturbed, an operation is one step of `DirectoryOrder`, or leaves everything as it is. */
  ghost predicate QuietlyReached(r: Resource, r': Resource, uid: nat) {
    r' == r || exists o :: QuietStep(r, o, r', uid)
  }

  lemma AliveWhenQuiet(h: Host, t: nat)
    ensures Quiet(h) ==> h.succeeds(t)
  {
  }

  lemma Unmoved(r: Resource, uid: nat)
    ensures QuietlyReached(r, r, uid)
  {
  }

  lemma ByStep(r: Resource, o: Operation, r': Resource, uid: nat)
    requires QuietStep(r, o, r', uid)
    ensures QuietlyReached(r, r', uid)
  {
  }

  lemma RefusedByStep(r: Resource, r': Resource, uid: nat)
    requires r' == r.(next := r.next + 1, status := r.status[r.next := K.Uncertain])
    ensures QuietlyReached(r, r', uid)
  {
    ByStep(r, Refusal, r', uid);
  }

  lemma QueuedByStep(r: Resource, path: Name, content: Bytes, uid: nat)
    requires ValidDir(r.dir) && IsText(content) && !Inspect(r.dir, path).Refused?
    ensures QuietlyReached(r, Enqueue(r, path, content), uid)
  {
    ByStep(r, Queue(path, content), Enqueue(r, path, content), uid);
  }

  lemma StaysGood(r: Resource, r': Resource, uid: nat)
    requires ResourceGood(r, uid) && QuietlyReached(r, r', uid)
    ensures ResourceGood(r', uid)
  {
    hide ResourceGood, QuietStep;
    if r' != r {
      var o :| QuietStep(r, o, r', uid);
      StepKeepsGood(r, o, r', uid);
    }
  }

  lemma AppliedQuietly(was: Resource, now: Resource, d: Dir, d': Dir, id: nat, expected: Expected, r: Option<Receipt>,
                       uid: nat)
    requires AtHead(was, id) && ExpectedAt(was, id) == Some(expected) && was.dir == d && ValidDir(d)
    requires Matches(Inspect(d, was.effects[id].path), expected) && AsForecast(was, now, id, r.Some?, uid)
    requires PublishedAsExpected(d, d', was.effects[id].path, was.effects[id].content, expected, r, uid)
    requires r.None? ==> now == Doubted(was, id)
    ensures QuietlyReached(was, now, uid)
  {
    hide Replaceable, Matches, Inspect, Replaced, PublishedTo, WillApply;
    ByStep(was, if r.Some? then Application(id) else FailedApplication(id), now, uid);
  }

  lemma RevertedQuietly(was: Resource, now: Resource, d: Dir, d': Dir, id: nat, content: Bytes, r: Option<Receipt>,
                        uid: nat)
    requires id in was.status && was.status[id] == K.Applied && id in was.effects && was.dir == d && ValidDir(d)
    requires Key(Apply, id) in was.receipts
    requires Matches(Inspect(d, was.effects[id].path), ExpectedFromReceipt(was.receipts[Key(Apply, id)]))
    requires PublishedAsExpected(d, d', was.effects[id].path, content,
               ExpectedFromReceipt(was.receipts[Key(Apply, id)]), r, uid)
    requires if r.Some? then RevertedTo(was, now, id, uid, content) else now == Doubted(was, id)
    ensures QuietlyReached(was, now, uid)
  {
    hide Replaceable, Matches, Inspect, Replaced, RevertedTo;
    ByStep(was, if r.Some? then Reversal(id, content) else FailedReversal(id), now, uid);
  }

  /** A queued write whose turn it is, which will replace a file, and whose description offers a revert. */
  ghost predicate Undoable(r: Resource, id: nat, uid: nat) {
    && ResourceGood(r, uid) && NothingInDoubt(r) && AtHead(r, id) && WillApply(r, id, uid)
    && r.effects[id].implementsRevert && Inspect(r.dir, r.effects[id].path).Present?
  }

  /** The same bytes under the same mode. */
  predicate Restored(d: Dir, d': Dir, path: Name) {
    && ValidDir(d) && ValidDir(d') && Inspect(d, path).Present? && Inspect(d', path).Present?
    && Inspect(d', path).file.bytes == Inspect(d, path).file.bytes
       && Inspect(d', path).file.mode == Inspect(d, path).file.mode
  }

  lemma UndoableIs(r: Resource, id: nat, uid: nat)
    ensures Undoable(r, id, uid) ==> ResourceGood(r, uid) && NothingInDoubt(r) && AtHead(r, id) && ValidDir(r.dir)
    ensures Undoable(r, id, uid) ==>
              id in r.effects && id in r.status && r.status[id] == K.Pending && WillApply(r, id, uid)
  {
  }

  lemma ForecastDecides(was: Resource, now: Resource, id: nat, ok: bool, uid: nat)
    requires AsForecast(was, now, id, ok, uid)
    ensures ValidDir(was.dir) && id in was.effects && (ok <==> WillApply(was, id, uid))
  {
  }

  /** The displaced file is in the preimage, and the new one stands. */
  lemma ReadyToUndo(was: Resource, applied: Resource, w: World, id: nat, uid: nat)
    requires Undoable(was, id, uid) && AsForecast(was, applied, id, true, uid) && DisplacedExpected(was, w, id)
    ensures NothingInDoubt(applied) && id in applied.status && applied.status[id] == K.Applied
    ensures Revertable(applied, w, id, uid)
  {
    HeadForecast(was, id, uid);
    QueuedIsText(was, id, uid);
    AppliedFrame(was, applied, id, uid);
    PublicationIsNew(was, applied, Key(Apply, id), was.effects[id].path, was.effects[id].content, uid);
    hide ResourceGood, AtHead, WillApply, PublishedTo, Standing, ExpectedAt, Inspect;
  }

  lemma UndoRestores(was: Resource, applied: Resource, now: Resource, w: World, id: nat, uid: nat)
    requires Undoable(was, id, uid) && AsForecast(was, applied, id, true, uid) && DisplacedExpected(was, w, id)
    requires Undone(applied, now, w, id, uid)
    ensures id in was.effects && Restored(was.dir, now.dir, was.effects[id].path)
  {
    HeadForecast(was, id, uid);
    hide ResourceGood, AtHead, WillApply, Standing, ExpectedAt, Inspect, Replaced, Replaceable;
    var path := was.effects[id].path;
    PublishedPresent(was.dir, applied.dir, path, was.effects[id].content, uid, applied.receipts[Key(Apply, id)]);
    RevertRestores(was.dir, applied.dir, applied.dir, now.dir, path, was.effects[id].content,
                   w.preimages[Key(Apply, id)].content.value, ExpectedAt(was, id).value, uid,
                   applied.receipts[Key(Apply, id)], now.receipts[Key(Revert, id)]);
  }

  lemma PublishedPresent(d: Dir, d': Dir, path: Name, content: Bytes, uid: nat, r: Receipt)
    requires ValidDir(d) && Replaced(d, d', path, content, uid, r)
    ensures ValidDir(d') && SameFile(d', d', path)
  {
  }

  class FsDirectory {
    /** The transactions of the granted directory; its host says what outside writers and faults do. */
    const tx: Transactions
    var status: map<nat, K.Status>
    var effects: map<nat, Effect>
    var next: nat

    ghost predicate Valid()
      reads this, tx
    {
      JournalBacked(status, effects, tx.w) && forall id | id in status :: id < next
    }

    function View(): Resource
      reads this, tx
    {
      Resource(tx.w.dir, tx.w.receipts, status, effects, next)
    }

    /** A driver over the state left by the last process; `recovered` says what the journal then held. */
    constructor (tx: Transactions, status: map<nat, K.Status>, effects: map<nat, Effect>, next: nat)
      requires JournalBacked(status, effects, tx.w) && forall id | id in status :: id < next
      ensures Valid() && this.tx == tx && this.status == status && this.effects == effects && this.next == next
    {
      this.tx := tx;
      this.status := status;
      this.effects := effects;
      this.next := next;
    }

    /** Nothing proceeds past an unsettled outcome, of the journal or of a transaction (directory.ts:108-115). */
    method AssertResourceSettled() returns (ok: bool)
      requires Valid()
      ensures ok <==> NothingInDoubt(View())
    {
      ok := tx.AssertSettled();
      if NothingInDoubt(View()) { NothingInDoubtIsSettled(status, effects, tx.w); }
      ok := ok && forall id | id in status :: !K.InDoubt(status[id]);
    }

    method FreshStage(path: Name) returns (stage: Name)
      ensures stage !in tx.w.dir.names && stage != path
    {
      ghost var long := LongName(tx.w.dir.names.Keys + {path});
      assert long !in tx.w.dir.names && long != path;
      stage :| stage !in tx.w.dir.names && stage != path;
    }

    /** Only the status of `id` may differ from `was`. */
    ghost predicate OnlyStatus(was: Resource, id: nat)
      reads this, tx
    {
      effects == was.effects && next == was.next && id in status && status == was.status[id := status[id]]
    }

    /** The transaction of an action just marked, and the verdict it leaves in the journal. */
    method Execute(key: Key, path: Name, content: Bytes, expected: Expected) returns (r: Option<Receipt>)
      requires Valid() && key.id in status && status[key.id] == (if key.kind == Apply then K.Applying else K.Reverting)
      requires Settled(tx.w) && key !in tx.w.tx && key.id in effects && effects[key.id].path == path
      requires key.kind == Revert ==> Backed(effects, tx.w, Key(Apply, key.id))
      modifies this, tx
      ensures Valid() && OthersKept(old(tx.w), tx.w, key) && effects == old(effects) && next == old(next)
      ensures key.id in status && status == old(status)[key.id := status[key.id]]
      ensures r.Some? ==> status[key.id] == (if key.kind == Apply then K.Applied else K.Reverted)
      ensures r.Some? ==> key in tx.w.receipts && tx.w.receipts[key] == r.value && PreimageIs(tx.w, key, path, expected)
      ensures r.None? ==> K.InDoubt(status[key.id])
      ensures Quiet(tx.host) && IsText(content) ==>
                PublishedAsExpected(old(tx.w.dir), tx.w.dir, path, content, expected, r, tx.uid)
      ensures Quiet(tx.host) && IsText(content) && r.None? ==>
                status[key.id] == K.Uncertain && tx.w.dir == old(tx.w.dir) && tx.w.receipts == old(tx.w.receipts)
    {
      hide WorldGood, OthersKept, Replaced, Replaceable, PreimageIs, Quiet, Inspect, IsText, JournalBacked, Backed;
      ghost var start := tx.w;
      var stage := FreshStage(path);
      r := tx.Run(key, path, content, expected, stage);
      ReceiptAfterRun(status, effects, start, tx.w, key, r);
      RunKeepsBacked(status, effects, start, tx.w, key);
      var alive := tx.host.succeeds(tx.tick);
      AliveWhenQuiet(tx.host, tx.tick);
      var verdict := if r.Some? then (if key.kind == Apply then K.Applied else K.Reverted)
        else if alive then K.Uncertain else status[key.id];
      VerdictBacked(status, effects, tx.w, key, expected, path, verdict, r);
      status := status[key.id := verdict];
    }

    /** Set one status of an action none of whose transactions is unfinished. */
    method Mark(id: nat, s: K.Status)
      requires Valid() && id in status && RecordBacked(status[id := s], effects, tx.w, id)
      requires K.InDoubt(s) || Settled(tx.w)
      requires s == K.Pending ==> id in effects
      modifies this`status
      ensures Valid() && status == old(status)[id := s]
    {
      StatusKeepsBacked(status, effects, tx.w, id, s);
      status := status[id := s];
    }

    /**
     * The action is marked, its transaction runs, and the journal says how it ended (kit-gatekeeper.ts:140-144,
     * 169-172).
     */
    method Conduct(key: Key, content: Bytes, expected: Expected) returns (r: Option<Receipt>)
      requires Valid() && Settled(tx.w) && key.id in status && key.id in effects
      requires status[key.id] == if key.kind == Apply then K.Pending else K.Applied
      modifies this, tx
      ensures Valid() && OthersKept(old(tx.w), tx.w, key) && effects == old(effects) && next == old(next)
      ensures key.id in status && status == old(status)[key.id := status[key.id]]
      ensures r.Some? ==> status[key.id] == (if key.kind == Apply then K.Applied else K.Reverted)
      ensures r.Some? ==>
                Backed(effects, tx.w, key) && tx.w.receipts[key] == r.value
                  && PreimageIs(tx.w, key, effects[key.id].path, expected)
      ensures r.None? ==> K.InDoubt(status[key.id])
      ensures Quiet(tx.host) && IsText(content) ==>
                PublishedAsExpected(old(tx.w.dir), tx.w.dir, effects[key.id].path, content, expected, r, tx.uid)
      ensures Quiet(tx.host) && IsText(content) && r.None? ==>
                status[key.id] == K.Uncertain && tx.w.dir == old(tx.w.dir) && tx.w.receipts == old(tx.w.receipts)
    {
      assert ValidDir(tx.w.dir);
      hide WorldGood, OthersKept, PreimageIs, Quiet, IsText, RecordBacked, JournalBacked, Backed, PublishedAsExpected,
        Settled;
      ghost var found := status;
      if key.kind == Revert { AppliedIsBacked(status, effects, tx.w, key.id); }
      MarkingBacked(status, effects, tx.w, key.id, if key.kind == Apply then K.Applying else K.Reverting);
      Mark(key.id, if key.kind == Apply then K.Applying else K.Reverting);
      ghost var marked := status;
      r := Execute(key, effects[key.id].path, content, expected);
      UpdatedTwice(found, key.id, marked[key.id], status[key.id]);
      if r.Some? { AppliedIsBacked(status, effects, tx.w, key.id); }
    }

    /**
     * Queue a write (directory.ts:51-77): the name must be unused or denote a plain single-link file; the content the
     * overlay then shows is chained to the pending write before it. When only the bounded read of the old file fails,
     * the submission has already been made, and the resource is blocked.
     */
    method Write(path: Name, content: Bytes) returns (id: Option<nat>)
      requires Valid()
      modifies this
      ensures Valid() && tx.w == old(tx.w)
      ensures id.Some? <==> NothingInDoubt(old(View())) && IsText(content) && !Inspect(tx.w.dir, path).Refused?
      ensures id.Some? ==> id.value == old(next) && View() == Enqueue(old(View()), path, content)
      ensures id.None? ==> View() == old(View()) || !NothingInDoubt(View())
      ensures !NothingInDoubt(old(View())) ==> View() == old(View())
      ensures NothingInDoubt(old(View())) && IsText(content) && OnlyContentRefused(tx.w.dir, path) ==>
                View() == old(View()).(next := old(next) + 1, status := old(status)[old(next) := K.Uncertain])
      ensures NothingInDoubt(old(View())) ==>
                (!NothingInDoubt(View()) <==> IsText(content) && OnlyContentRefused(tx.w.dir, path))
      ensures QuietlyReached(old(View()), View(), tx.uid)
    {
      assert ValidDir(tx.w.dir);
      hide WorldGood, JournalBacked, QuietStep, QuietlyReached, Enqueue, Settled;
      Unmoved(View(), tx.uid);
      var settled := AssertResourceSettled();
      if !settled || !IsText(content) { return None; }
      if path in tx.w.dir.names && !(SoleName(tx.w.dir, path) && tx.w.dir.inodes[tx.w.dir.names[path]].plain) {
        return None;
      }
      id := Simulate(path, content);
    }

    /** The submission of a described write, and its simulation (directory.ts:59-77). */
    method Simulate(path: Name, content: Bytes) returns (id: Option<nat>)
      requires Valid() && IsText(content)
      modifies this
      ensures Valid() && tx.w == old(tx.w)
      ensures id.Some? <==> !Inspect(tx.w.dir, path).Refused?
      ensures id.Some? ==> id.value == old(next) && View() == Enqueue(old(View()), path, content)
      ensures id.Some? && NothingInDoubt(old(View())) ==> NothingInDoubt(View())
      ensures id.None? ==> !NothingInDoubt(View())
      ensures id.None? ==>
                View() == old(View()).(next := old(next) + 1, status := old(status)[old(next) := K.Uncertain])
      ensures QuietlyReached(old(View()), View(), tx.uid)
    {
      assert ValidDir(tx.w.dir);
      hide WorldGood, JournalBacked, QuietStep, QuietlyReached, Newest;
      ghost var was := View();
      var n := next;
      var t := Inspect(tx.w.dir, path);
      var chained := Newest(View(), path);
      NewKeepsBacked(status, effects, tx.w, n, K.Uncertain, None);
      if t.Refused? {
        next, status := n + 1, status[n := K.Uncertain];
        assert K.InDoubt(View().status[n]);
        RefusedByStep(was, View(), tx.uid);
        return None;
      }
      var effect := Effect(path, content, StampOf(t), chained, path in tx.w.dir.names);
      NewKeepsBacked(status, effects, tx.w, n, K.Pending, Some(effect));
      next, status, effects := n + 1, status[n := K.Pending], effects[n := effect];
      id := Some(n);
      QueuedByStep(was, path, content, tx.uid);
    }

    /** Retire a pending write without touching the directory (directory.ts:239, kit-gatekeeper.ts:153-160). */
    method RejectAction(id: nat) returns (ok: bool)
      requires Valid()
      modifies this`status
      ensures Valid()
      ensures ok <==> id in old(status) && old(status)[id] in {K.Pending, K.Rejected}
      ensures View() == if ok then Reject(old(View()), id) else old(View())
      ensures QuietlyReached(old(View()), View(), tx.uid)
    {
      Unmoved(View(), tx.uid);
      ghost var was := View();
      ok := id in status && status[id] in {K.Pending, K.Rejected};
      if ok {
        assert RecordBacked(status, effects, tx.w, id);
        RejectKeepsBacked(status, effects, tx.w, id);
        status := status[id := K.Rejected];
        if Queued(was, id) {
          ByStep(was, Rejection(id), View(), tx.uid);
        } else {
          assert status == was.status;
        }
      }
    }

    /**
     * What the target must be, if it is that now and everything earlier is decided (directory.ts:231-234,
     * kit-gatekeeper.ts:139).
     */
    method Precheck(id: nat) returns (expected: Option<Expected>)
      requires Valid() && id in status && status[id] == K.Pending
      ensures id in effects
      ensures expected.Some? ==> AtHead(View(), id) && ExpectedAt(View(), id) == expected
      ensures expected.Some? ==> Matches(Inspect(tx.w.dir, effects[id].path), expected.value)
      ensures expected.None? && ResourceGood(View(), tx.uid) && NothingInDoubt(View()) && AtHead(View(), id) ==>
                AsForecast(View(), View(), id, false, tx.uid)
    {
      assert ValidDir(tx.w.dir);
      hide WorldGood, Inspect, ResourceGood, WillApply, JournalBacked, ExpectedAt, AppliedTo, Matches, Replaceable;
      PendingHasEffect(status, effects, tx.w, id);
      expected := ExpectedAt(View(), id);
      var current := Inspect(tx.w.dir, effects[id].path);
      if expected.None? || !Matches(current, expected.value)
         || exists j | j in status && j < id :: !K.Decided(status[j]) {
        if ResourceGood(View(), tx.uid) && NothingInDoubt(View()) && AtHead(View(), id) {
          HeadForecast(View(), id, tx.uid);
          if expected.Some? { MatchesFirst(current, expected.value, tx.uid); }
        }
        expected := None;
      }
    }

    /**
     * The checks of an application, then the effect (directory.ts:227-237, 78-85). A success published exactly over
     * what the effect expected; a failure either left no trace, or leaves the action in doubt, which blocks the
     * resource.
     */
    method ApplyAction(id: nat) returns (ok: bool)
      requires Valid()
      modifies this, tx
      ensures Valid()
      ensures !NothingInDoubt(old(View())) ==> !ok && View() == old(View()) && tx.w == old(tx.w)
      ensures ok ==>
                id in old(status) && old(status)[id] in {K.Pending, K.Applied} && Backed(effects, tx.w, Key(Apply, id))
      ensures ok && old(status)[id] == K.Pending ==>
                AtHead(old(View()), id) && OnlyStatus(old(View()), id) && status[id] == K.Applied
                  && DisplacedExpected(old(View()), tx.w, id)
      ensures !ok ==>
                (View() == old(View()) && tx.w == old(tx.w)) || (OnlyStatus(old(View()), id) && !NothingInDoubt(View()))
      // Undisturbed, an action whose turn it is succeeds exactly as forecast.
      ensures Quiet(tx.host) && ResourceGood(old(View()), tx.uid) && NothingInDoubt(old(View()))
              && AtHead(old(View()), id) ==>
                AsForecast(old(View()), View(), id, ok, tx.uid)
      ensures Quiet(tx.host) && ResourceGood(old(View()), tx.uid) ==> QuietlyReached(old(View()), View(), tx.uid)
    {
      assert ValidDir(tx.w.dir);
      hide WorldGood, OthersKept, Replaced, PreimageIs, Quiet, Inspect, IsText, ResourceGood, WillApply, Backed,
        RecordBacked, JournalBacked, ExpectedAt, AppliedTo, AsForecast, DisplacedExpected, PublishedAsExpected, Matches,
        Replaceable;
      hide QuietStep, QuietlyReached;
      ghost var was := View();
      Unmoved(was, tx.uid);
      var settled := AssertResourceSettled();
      if !settled || id !in status || status[id] !in {K.Pending, K.Applied} { return false; }
      if status[id] == K.Applied {
        AppliedIsBacked(status, effects, tx.w, id);
        return true;
      }
      var expected := Precheck(id);
      if expected.None? { return false; }
      ghost var start := tx.w;
      NothingInDoubtIsSettled(status, effects, tx.w);
      var r := Conduct(Key(Apply, id), effects[id].content, expected.value);
      ok := r.Some?;
      Displaced(was, id, expected.value);
      if ok { BackedHasReceipt(effects, tx.w, Key(Apply, id)); }
      if ResourceGood(was, tx.uid) && Quiet(tx.host) {
        QueuedIsText(was, id, tx.uid);
        CarriedAsForecast(was, View(), start, tx.w, id, expected.value, r, tx.uid);
        AppliedQuietly(was, View(), start.dir, tx.w.dir, id, expected.value, r, tx.uid);
      }
    }

    /** Put back the recorded preimage, only over the file this action published (directory.ts:241-251, 86-91). */
    method RevertAction(id: nat) returns (ok: bool)
      requires Valid()
      modifies this, tx
      ensures Valid()
      ensures !NothingInDoubt(old(View())) ==> !ok && View() == old(View()) && tx.w == old(tx.w)
      ensures ok ==>
                id in old(status) && old(status)[id] in {K.Applied, K.Reverted}
                  && Backed(effects, tx.w, Key(Revert, id))
      ensures ok && old(status)[id] == K.Applied ==>
                OnlyStatus(old(View()), id) && status[id] == K.Reverted && DisplacedOwn(old(tx.w), tx.w, id, effects)
      ensures !ok ==>
                (View() == old(View()) && tx.w == old(tx.w)) || (OnlyStatus(old(View()), id) && !NothingInDoubt(View()))
      ensures Quiet(tx.host) && NothingInDoubt(old(View())) && id in old(status) && old(status)[id] == K.Applied ==>
                (ok <==> Revertable(old(View()), old(tx.w), id, tx.uid))
      ensures Quiet(tx.host) && ok && old(status)[id] == K.Applied ==>
                Undone(old(View()), View(), old(tx.w), id, tx.uid)
      ensures Quiet(tx.host) ==> QuietlyReached(old(View()), View(), tx.uid)
    {
      assert ValidDir(tx.w.dir);
      hide WorldGood, OthersKept, Replaced, PreimageIs, Quiet, Inspect, IsText, RecordBacked, JournalBacked,
        RevertedTo, Matches, Replaceable, DisplacedOwn, PublishedAsExpected, ExpectedFromReceipt;
      hide QuietStep, QuietlyReached;
      ghost var was, start := View(), tx.w;
      Unmoved(was, tx.uid);
      var settled := AssertResourceSettled();
      if !settled || id !in status || status[id] !in {K.Applied, K.Reverted} { return false; }
      AppliedIsBacked(status, effects, tx.w, id);
      if status[id] == K.Reverted { return true; }
      var e, receipt, saved := effects[id], tx.w.receipts[Key(Apply, id)], tx.w.preimages[Key(Apply, id)].content;
      if saved.None? || !Matches(Inspect(tx.w.dir, e.path), ExpectedFromReceipt(receipt)) || !e.implementsRevert {
        MatchesFirst(Inspect(tx.w.dir, e.path), ExpectedFromReceipt(receipt), tx.uid);
        return false;
      }
      NothingInDoubtIsSettled(status, effects, tx.w);
      var r := Conduct(Key(Revert, id), saved.value.bytes, ExpectedFromReceipt(receipt));
      ok := r.Some?;
      if ok { OwnDisplaced(start, tx.w, id, effects); }
      if Quiet(tx.host) {
        if ok { PutBack(was, View(), start, tx.w, id, saved.value.bytes, r.value, tx.uid); }
        RevertedQuietly(was, View(), start.dir, tx.w.dir, id, saved.value.bytes, r, tx.uid);
      }
    }

    /**
     * Every queued write is applied, in id order, until one fails. Undisturbed, all of them succeed exactly when each
     * is forecast to; and then every read and every listing on disk is what the overlay showed before.
     */
    method ApplyAll() returns (ok: bool)
      requires Valid()
      modifies this, tx
      ensures Valid()
      ensures Quiet(tx.host) && ResourceGood(old(View()), tx.uid) && NothingInDoubt(old(View())) ==>
                && (ok <==> AllForecast(old(View()), tx.uid))
                && (ok ==> ResourceGood(View(), tx.uid) && QueueEmpty(View()) && SameViews(old(View()), View()))
    {
      ok := true;
      ghost var was := View();
      ghost var quiet := Quiet(tx.host) && ResourceGood(was, tx.uid) && NothingInDoubt(was);
      if quiet { ReplayStarts(was, tx.uid); }
      var id := 0;
      while id < next && ok
        invariant Valid() && id <= next == was.next
        invariant quiet ==> Replaying(was, View(), id, ok, tx.uid)
      {
        hide ResourceGood, SameViews, AllForecast, AppliedTo, JournalBacked, WillApply, Quiet, Replaying, AsForecast,
          NothingInDoubt;
        ghost var before := View();
        if id in status && status[id] == K.Pending {
          PendingHasEffect(status, effects, tx.w, id);
          if quiet { ReplayReady(was, before, id, tx.uid); }
          ok := ApplyAction(id);
          if quiet { ReplayStep(was, before, View(), id, ok, tx.uid); }
        } else if quiet {
          ReplaySkips(was, before, id, tx.uid);
        }
        id := id + 1;
      }
      if quiet && ok { QueueIsEmpty(View(), tx.uid); }
    }

    /** One request, whatever it asks for. */
    method Serve(request: Request)
      requires Valid()
      modifies this, tx
      ensures Valid()
      ensures !NothingInDoubt(old(View())) ==> tx.w == old(tx.w) && StillInDoubt(old(status), status)
      ensures Quiet(tx.host) && ResourceGood(old(View()), tx.uid) ==> ResourceGood(View(), tx.uid)
    {
      hide JournalBacked, Enqueue, Inspect, AtHead, ExpectedAt, AsForecast, Backed, Quiet, IsText, WorldGood;
      hide ResourceGood, QuietlyReached, Undone, DisplacedOwn, DisplacedExpected, Revertable, OnlyContentRefused;
      ghost var before := View();
      match request {
        case WriteTo(path, content) => var _ := Write(path, content);
        case ApplyIt(id) => var _ := ApplyAction(id);
        case RejectIt(id) => var _ := RejectAction(id);
        case RevertIt(id) => var _ := RevertAction(id);
      }
      if ResourceGood(before, tx.uid) && QuietlyReached(before, View(), tx.uid) { StaysGood(before, View(), tx.uid); }
    }

    /**
     * Revert undoes apply: undisturbed, a write forecast to replace a file, and described as revertible, is applied and
     * then reverted with the result that the old bytes and the old mode are back.
     */
    method ApplyThenRevert(id: nat) returns (ok: bool)
      requires Valid()
      modifies this, tx
      ensures Valid()
      ensures Quiet(tx.host) && Undoable(old(View()), id, tx.uid) ==>
                ok && Restored(old(tx.w.dir), tx.w.dir, old(effects)[id].path)
    {
      hide JournalBacked, WorldGood, Quiet, AtHead, ResourceGood, NothingInDoubt, Undoable, AsForecast, Undone,
        Restored, IsText;
      hide Revertable, DisplacedOwn, DisplacedExpected, QuietlyReached, Backed, Inspect, WillApply, PreimageIs,
        ExpectedAt;
      ghost var was := View();
      UndoableIs(was, id, tx.uid);
      ok := ApplyAction(id);
      if Quiet(tx.host) && Undoable(was, id, tx.uid) { ForecastDecides(was, View(), id, ok, tx.uid); }
      if ok {
        ghost var applied, w := View(), tx.w;
        if Quiet(tx.host) && Undoable(was, id, tx.uid) { ReadyToUndo(was, applied, w, id, tx.uid); }
        ok := RevertAction(id);
        if Quiet(tx.host) && Undoable(was, id, tx.uid) { UndoRestores(was, applied, View(), w, id, tx.uid); }
      }
    }

    /**
     * Any requests whatsoever, over any number of restarts (a restart finds these fields and `tx.w`). Once an action is
     * in doubt the granted directory, its transactions and the doubt itself stay as they are; undisturbed, the
     * invariant of quiet histories holds throughout.
     */
    method Lifetimes(requests: seq<Request>)
      requires Valid()
      modifies this, tx
      ensures Valid()
      ensures !NothingInDoubt(old(View())) ==> tx.w == old(tx.w) && StillInDoubt(old(status), status)
      ensures Quiet(tx.host) && ResourceGood(old(View()), tx.uid) ==> ResourceGood(View(), tx.uid)
    {
      for i := 0 to |requests|
        invariant Valid()
        invariant !NothingInDoubt(old(View())) ==> tx.w == old(tx.w) && StillInDoubt(old(status), status)
        invariant Quiet(tx.host) && ResourceGood(old(View()), tx.uid) ==> ResourceGood(View(), tx.uid)
      {
        hide JournalBacked, ResourceGood, Quiet, WorldGood;
        Serve(requests[i]);
      }
    }
  }

  datatype Request = WriteTo(path: Name, content: Bytes) | ApplyIt(id: nat) | RejectIt(id: nat) | RevertIt(id: nat)

  predicate StillInDoubt(status: map<nat, K.Status>, status': map<nat, K.Status>) {
    forall id | id in status && K.InDoubt(status[id]) :: id in status' && status'[id] == status[id]
  }

  /** In the middle of `ApplyAll`, about to consider `id`. */
  ghost predicate Replaying(was: Resource, now: Resource, id: nat, ok: bool, uid: nat) {
    if ok then
      && ResourceGood(now, uid) && NothingInDoubt(now) && SameViews(was, now) && DecidedBelow(now, id)
      && (AllForecast(was, uid) <==> AllForecast(now, uid))
    else !AllForecast(was, uid)
  }

  lemma ReplayStarts(was: Resource, uid: nat)
    requires ResourceGood(was, uid) && NothingInDoubt(was)
    ensures Replaying(was, was, 0, true, uid)
  {
  }

  lemma ReplayReady(was: Resource, now: Resource, id: nat, uid: nat)
    requires Replaying(was, now, id, true, uid)
    ensures ResourceGood(now, uid) && NothingInDoubt(now) && (Queued(now, id) ==> AtHead(now, id))
  {
  }

  lemma ReplaySkips(was: Resource, now: Resource, id: nat, uid: nat)
    requires Replaying(was, now, id, true, uid) && (id in now.status ==> now.status[id] != K.Pending)
    ensures Replaying(was, now, id + 1, true, uid)
  {
  }

  lemma ReplayStep(was: Resource, r: Resource, r': Resource, id: nat, ok: bool, uid: nat)
    requires Replaying(was, r, id, true, uid) && Queued(r, id) && AsForecast(r, r', id, ok, uid)
    ensures Replaying(was, r', id + 1, ok, uid)
  {
    hide ResourceGood, SameViews, AllForecast, AppliedTo, WillApply, AsForecast;
    OneApplied(was, r, r', id, ok, uid);
  }

  predicate DecidedBelow(r: Resource, n: nat) {
    forall j | j in r.status && j < n :: K.Decided(r.status[j])
  }

  predicate QueueEmpty(r: Resource) {
    forall id | id in r.status :: !Queued(r, id)
  }

  ghost predicate AllForecast(r: Resource, uid: nat) {
    ValidDir(r.dir) && forall id | id in r.status && Queued(r, id) :: WillApply(r, id, uid)
  }

  /** A session cannot tell the two apart. */
  ghost predicate SameViews(r: Resource, r': Resource) {
    && ValidDir(r.dir) && ValidDir(r'.dir)
    && (forall path :: ReadView(r', path) == ReadView(r, path))
    && (forall sub :: ListView(r', sub) == ListView(r, sub))
  }

  lemma OneApplied(was: Resource, r: Resource, r': Resource, id: nat, ok: bool, uid: nat)
    requires ResourceGood(r, uid) && NothingInDoubt(r) && SameViews(was, r) && DecidedBelow(r, id) && Queued(r, id)
    requires AsForecast(r, r', id, ok, uid)
    ensures ok ==> ResourceGood(r', uid) && NothingInDoubt(r') && SameViews(was, r') && DecidedBelow(r', id + 1)
    ensures ok ==> (AllForecast(r, uid) <==> AllForecast(r', uid))
    ensures !ok ==> !AllForecast(r, uid)
  {
    if ok {
      hide ResourceGood, WillApply, AllForecast, AppliedTo, SameViews;
      ApplyKeepsGood(r, r', id, uid);
      AppliedFrame(r, r', id, uid);
      ViewsKept(was, r, r', id, uid);
      OthersForecast(r, r', id, uid);
    } else {
      hide ResourceGood, WillApply, AppliedTo, SameViews, DecidedBelow, NothingInDoubt;
    }
  }

  lemma ViewsKept(was: Resource, r: Resource, r': Resource, id: nat, uid: nat)
    requires ResourceGood(r, uid) && SameViews(was, r) && AtHead(r, id) && AppliedTo(r, r', id, uid)
    ensures SameViews(was, r')
  {
    AppliedFrame(r, r', id, uid);
    if ValidDir(r'.dir) {
      hide ResourceGood, AppliedTo, ReadView, ListView, AtHead;
      forall path ensures ReadView(r', path) == ReadView(was, path) {
        ApplyKeepsRead(r, r', id, uid, path);
        assert ReadView(r, path) == ReadView(was, path);
      }
      forall sub ensures ListView(r', sub) == ListView(was, sub) {
        ApplyKeepsList(r, r', id, uid, sub);
        assert ListView(r, sub) == ListView(was, sub);
      }
    }
  }

  lemma OthersForecast(r: Resource, r': Resource, id: nat, uid: nat)
    requires ResourceGood(r, uid) && NothingInDoubt(r) && AtHead(r, id) && AppliedTo(r, r', id, uid)
    requires WillApply(r, id, uid)
    ensures AllForecast(r, uid) <==> AllForecast(r', uid)
  {
    forall j | j in r.status && Queued(r, j) && j != id ensures WillApply(r', j, uid) <==> WillApply(r, j, uid) {
      ForecastStands(r, r', id, j, uid);
    }
    AppliedFrame(r, r', id, uid);
    assert forall j | j in r.status && j != id :: Queued(r', j) <==> Queued(r, j);
  }

  lemma QueueIsEmpty(r: Resource, uid: nat)
    requires ResourceGood(r, uid) && DecidedBelow(r, r.next)
    ensures QueueEmpty(r)
  {
    forall id | id in r.status ensures !Queued(r, id) { assert StatusGood(r, id); }
  }

  lemma CarriedAsForecast(was: Resource, now: Resource, w: World, w': World, id: nat, expected: Expected,
                          r: Option<Receipt>, uid: nat)
    requires ResourceGood(was, uid) && NothingInDoubt(was) && AtHead(was, id) && ExpectedAt(was, id) == Some(expected)
    requires was.dir == w.dir && was.receipts == w.receipts && ValidDir(w.dir) && OthersKept(w, w', Key(Apply, id))
    requires PublishedAsExpected(w.dir, w'.dir, was.effects[id].path, was.effects[id].content, expected, r, uid)
    requires r.Some? ==> Key(Apply, id) in w'.receipts && w'.receipts[Key(Apply, id)] == r.value
    requires r.Some? ==> now == was.(dir := w'.dir, receipts := w'.receipts, status := was.status[id := K.Applied])
    ensures AsForecast(was, now, id, r.Some?, uid)
  {
    HeadForecast(was, id, uid);
    if r.Some? { PublishedFrom(was, now, w, w', Key(Apply, id), was.effects[id].path, was.effects[id].content, uid); }
  }

  lemma UpdatedTwice(m: map<nat, K.Status>, id: nat, a: K.Status, b: K.Status)
    ensures m[id := a][id := b] == m[id := b]
  {
  }

  lemma BackedHasReceipt(effects: map<nat, Effect>, w: World, k: Key)
    requires Backed(effects, w, k)
    ensures k in w.receipts
  {
  }

  lemma PendingHasEffect(status: map<nat, K.Status>, effects: map<nat, Effect>, w: World, id: nat)
    requires JournalBacked(status, effects, w) && id in status && status[id] == K.Pending
    ensures id in effects
  {
  }

  lemma MatchesFirst(t: Target, expected: Expected, uid: nat)
    ensures Replaceable(t, expected, uid) ==> Matches(t, expected)
  {
  }

  lemma NewKeepsBacked(status: map<nat, K.Status>, effects: map<nat, Effect>, w: World, n: nat, s: K.Status,
                       e: Option<Effect>)
    requires JournalBacked(status, effects, w) && n !in status && s in {K.Pending, K.Uncertain}
    requires s == K.Pending <==> e.Some?
    ensures JournalBacked(status[n := s], if e.Some? then effects[n := e.value] else effects, w)
  {
    var status', effects' := status[n := s], if e.Some? then effects[n := e.value] else effects;
    assert forall k | k in w.tx :: k.id != n by {
      forall k | k in w.tx ensures k.id != n { assert TxKnown(status, w, k); }
    }
    forall j | j in status' ensures RecordBacked(status', effects', w, j) {
      if j != n { assert RecordBacked(status, effects, w, j); }
    }
    forall k | k in w.tx ensures TxKnown(status', w, k) { assert TxKnown(status, w, k); }
  }

  lemma RejectKeepsBacked(status: map<nat, K.Status>, effects: map<nat, Effect>, w: World, id: nat)
    requires JournalBacked(status, effects, w) && id in status && status[id] in {K.Pending, K.Rejected}
    ensures JournalBacked(status[id := K.Rejected], effects, w)
  {
    assert RecordBacked(status, effects, w, id);
    forall k | k in w.tx && k.id == id ensures w.tx[k].phase == Applied {
      assert k == Key(k.kind, id);
    }
    StatusKeepsBacked(status, effects, w, id, K.Rejected);
  }

  lemma AppliedIsBacked(status: map<nat, K.Status>, effects: map<nat, Effect>, w: World, id: nat)
    requires JournalBacked(status, effects, w) && id in status && status[id] in {K.Applied, K.Reverted}
    ensures Backed(effects, w, Key(Apply, id)) && (status[id] == K.Reverted ==> Backed(effects, w, Key(Revert, id)))
    ensures status[id] == K.Applied ==> Key(Revert, id) !in w.tx
  {
    assert RecordBacked(status, effects, w, id);
  }

  /** An action about to be carried out has no such transaction yet, and its record may say so. */
  lemma MarkingBacked(status: map<nat, K.Status>, effects: map<nat, Effect>, w: World, id: nat, s: K.Status)
    requires JournalBacked(status, effects, w) && id in status
    requires (s == K.Applying && status[id] == K.Pending) || (s == K.Reverting && status[id] == K.Applied)
    ensures RecordBacked(status[id := s], effects, w, id)
    ensures Key(if s == K.Applying then Apply else Revert, id) !in w.tx
  {
    assert RecordBacked(status, effects, w, id);
  }

  lemma QueuedIsText(r: Resource, id: nat, uid: nat)
    requires ResourceGood(r, uid) && id in r.effects
    ensures IsText(r.effects[id].content)
  {
    assert EffectGood(r, id);
  }

  lemma PublishedFrom(r: Resource, r': Resource, w: World, w': World, k: Key, path: Name, content: Bytes, uid: nat)
    requires r.dir == w.dir && r.receipts == w.receipts && r'.dir == w'.dir && r'.receipts == w'.receipts
    requires OthersKept(w, w', k)
    requires ValidDir(w.dir) && !Inspect(w.dir, path).Refused? && k in w'.receipts
    requires Replaced(w.dir, w'.dir, path, content, uid, w'.receipts[k])
    requires w'.receipts[k].path == path && w'.receipts[k].size == |content|
    requires w'.receipts[k].desired == Sha256(content)
    requires r' == r.(dir := r'.dir, receipts := r'.receipts,
               status := r.status[k.id := if k.kind == Apply then K.Applied else K.Reverted])
    ensures PublishedTo(r, r', k, path, content, uid)
  {
    assert r'.receipts == r.receipts[k := r'.receipts[k]];
  }

  lemma VerdictBacked(status: map<nat, K.Status>, effects: map<nat, Effect>, w: World, key: Key, expected: Expected,
                      path: Name, verdict: K.Status, r: Option<Receipt>)
    requires JournalBacked(status, effects, w) && key.id in status && key.id in effects && effects[key.id].path == path
    requires status[key.id] == if key.kind == Apply then K.Applying else K.Reverting
    requires key.kind == Revert ==> Backed(effects, w, Key(Apply, key.id))
    requires r.Some? ==>
               Settled(w) && key in w.tx && key in w.receipts && w.receipts[key].path == path
                 && PreimageIs(w, key, path, expected)
    requires r.Some? ==> verdict == if key.kind == Apply then K.Applied else K.Reverted
    requires r.None? ==> verdict == K.Uncertain || verdict == status[key.id]
    ensures JournalBacked(status[key.id := verdict], effects, w)
  {
    assert RecordBacked(status, effects, w, key.id);
    assert RecordBacked(status[key.id := verdict], effects, w, key.id);
    StatusKeepsBacked(status, effects, w, key.id, verdict);
  }

  lemma ReceiptAfterRun(status: map<nat, K.Status>, effects: map<nat, Effect>, w: World, w': World, key: Key,
                        r: Option<Receipt>)
    requires JournalBacked(status, effects, w) && OthersKept(w, w', key) && Settled(w) && key !in w.tx
    requires r.Some? ==> key in w'.tx && Settled(w')
    requires r.None? && Settled(w') ==> w'.tx == w.tx && w'.receipts == w.receipts
    ensures key !in w.receipts && (key in w'.receipts ==> key in w'.tx)
  {
  }
}
