/**
 * Exactly which queues of writes apply completely, and what a revert restores (directory.ts:130-145, apply.ts:54-62).
 */
module DirectoryOrder {
  import opened Wrappers
  import opened FileSystem
  import opened TransactionWorld
  import opened Transactions
  import opened DirectoryQueue
  import K = KitJournal

  datatype Operation =
    | Queue(path: Name, content: Bytes)
    | Refusal
    | Rejection(id: nat)
    | Application(id: nat)
    | FailedApplication(id: nat)
    | Reversal(id: nat, content: Bytes)
    | FailedReversal(id: nat)

  /**
   * The target is what is expected, but not ours, or it has special bits: noticed only after the mark
   * (apply.ts:124-126).
   */
  predicate MatchesOnly(t: Target, expected: Expected, uid: nat) {
    Matches(t, expected) && !Replaceable(t, expected, uid)
  }

  function Doubted(r: Resource, id: nat): Resource {
    r.(status := r.status[id := K.Uncertain])
  }

  /**
   * One operation with no outside writer. `Refusal` is a submission whose simulation failed; a failed application or
   * reversal passed the check before the mark and then found a target it must not replace.
   */
  ghost predicate QuietStep(r: Resource, o: Operation, r': Resource, uid: nat) {
    match o
    case Queue(path, content) =>
      ValidDir(r.dir) && IsText(content) && !Inspect(r.dir, path).Refused? && r' == Enqueue(r, path, content)
    case Refusal => r' == r.(next := r.next + 1, status := r.status[r.next := K.Uncertain])
    case Rejection(id) => Queued(r, id) && r' == Reject(r, id)
    case Application(id) => AtHead(r, id) && AppliedTo(r, r', id, uid)
    case FailedApplication(id) =>
      && AtHead(r, id) && ExpectedAt(r, id).Some? && ValidDir(r.dir)
      && MatchesOnly(Inspect(r.dir, r.effects[id].path), ExpectedAt(r, id).value, uid) && r' == Doubted(r, id)
    case Reversal(id, content) => RevertedTo(r, r', id, uid, content)
    case FailedReversal(id) =>
      && id in r.status && r.status[id] == K.Applied && id in r.effects && Key(Apply, id) in r.receipts
         && ValidDir(r.dir)
      && MatchesOnly(Inspect(r.dir, r.effects[id].path), ExpectedFromReceipt(r.receipts[Key(Apply, id)]), uid)
      && r' == Doubted(r, id)
  }

  /** Whatever was queued, rejected, applied and reverted since the directory was granted, the invariant holds. */
  lemma {:induction false} QuietHistoryIsGood(run: seq<Resource>, operations: seq<Operation>, uid: nat, i: nat)
    requires |run| == |operations| + 1 && i < |run|
    requires ClockGood(run[0]) && run[0].status == map[] && run[0].effects == map[] && run[0].receipts == map[]
    requires forall k | 0 <= k < |operations| :: QuietStep(run[k], operations[k], run[k + 1], uid)
    ensures ResourceGood(run[i], uid)
  {
    if i > 0 {
      QuietHistoryIsGood(run, operations, uid, i - 1);
      StepKeepsGood(run[i - 1], operations[i - 1], run[i], uid);
    }
  }

  lemma StepKeepsGood(r: Resource, o: Operation, r': Resource, uid: nat)
    requires ResourceGood(r, uid) && QuietStep(r, o, r', uid)
    ensures ResourceGood(r', uid)
  {
    hide ResourceGood, AppliedTo, RevertedTo;
    match o
    case Queue(path, content) => EnqueueKeepsGood(r, path, content, uid);
    case Refusal => RefusalKeepsGood(r, r', uid);
    case Rejection(id) => RejectKeepsGood(r, id, uid);
    case Application(id) => ApplyKeepsGood(r, r', id, uid);
    case FailedApplication(id) => DoubtKeepsGood(r, id, uid);
    case Reversal(id, content) => RevertKeepsGood(r, r', id, uid, content);
    case FailedReversal(id) => DoubtKeepsGood(r, id, uid);
  }

  lemma DoubtKeepsGood(r: Resource, id: nat, uid: nat)
    requires ResourceGood(r, uid) && id in r.status
    ensures ResourceGood(Doubted(r, id), uid)
  {
    var r' := Doubted(r, id);
    forall j | j in r'.status ensures StatusGood(r', j) { assert StatusGood(r, j); }
    forall j | j in r'.effects ensures EffectGood(r', j) && LinkedGood(r', j) && PredecessorGood(r', j, uid) {
      assert EffectGood(r, j) && LinkedGood(r, j) && PredecessorGood(r, j, uid);
    }
  }

  lemma RefusalKeepsGood(r: Resource, r': Resource, uid: nat)
    requires ResourceGood(r, uid) && QuietStep(r, Refusal, r', uid)
    ensures ResourceGood(r', uid)
  {
    forall j | j in r'.status ensures StatusGood(r', j) { if j != r.next { assert StatusGood(r, j); } }
    forall j | j in r'.effects ensures EffectGood(r', j) && LinkedGood(r', j) && PredecessorGood(r', j, uid) {
      assert EffectGood(r, j) && LinkedGood(r, j) && PredecessorGood(r, j, uid) && StatusGood(r, j);
      if r.effects[j].after.Some? { assert StatusGood(r, r.effects[j].after.value); }
    }
  }

  /** At the head of the queue the forecast is exactly the check the application makes. */
  lemma HeadForecast(r: Resource, id: nat, uid: nat)
    requires ResourceGood(r, uid) && NothingInDoubt(r) && AtHead(r, id)
    ensures WillApply(r, id, uid) <==>
              ExpectedAt(r, id).Some? && Replaceable(Inspect(r.dir, r.effects[id].path), ExpectedAt(r, id).value, uid)
  {
    var e := r.effects[id];
    assert EffectGood(r, id) && LinkedGood(r, id) && PredecessorGood(r, id, uid);
    if e.after.Some? { assert StatusGood(r, e.after.value); }
  }

  lemma AfterOnSamePath(r: Resource, id: nat, uid: nat)
    requires ResourceGood(r, uid) && id in r.effects
    ensures var e := r.effects[id];
            e.after.Some? ==>
              e.after.value in r.status && e.after.value in r.effects && r.effects[e.after.value].path == e.path
  {
    assert EffectGood(r, id);
  }

  lemma ForecastStandsElsewhere(r: Resource, r': Resource, head: nat, id: nat, uid: nat)
    requires ResourceGood(r, uid) && NothingInDoubt(r) && AtHead(r, head) && AppliedTo(r, r', head, uid)
    requires Queued(r, id)
    requires r.effects[id].path != r.effects[head].path
    ensures ValidDir(r'.dir) && (WillApply(r', id, uid) <==> WillApply(r, id, uid))
  {
    hide ResourceGood, PublishedTo, Inspect, StatusGood, LinkedGood, PredecessorGood, Replaceable;
    var e := r.effects[id];
    AppliedFrame(r, r', head, uid);
    PublicationElsewhere(r, r', Key(Apply, head), r.effects[head].path, r.effects[head].content, uid, e.path);
    AfterOnSamePath(r, id, uid);
    hide AppliedTo;
    assert forall b: nat :: QueuedOn(r', b, e.path) <==> QueuedOn(r, b, e.path);
  }

  lemma ForecastStandsBehind(r: Resource, r': Resource, head: nat, id: nat, uid: nat)
    requires ResourceGood(r, uid) && NothingInDoubt(r) && AtHead(r, head) && AppliedTo(r, r', head, uid)
    requires Queued(r, id)
    requires r.effects[id].path == r.effects[head].path && id != head
    ensures ValidDir(r'.dir) && (WillApply(r', id, uid) <==> WillApply(r, id, uid))
  {
    assert EffectGood(r, head) && EffectGood(r, id) && StatusGood(r, id);
    NoneBetween(r, head, id, uid);
    PublicationIsNew(r, r', Key(Apply, head), r.effects[head].path, r.effects[head].content, uid);
    hide ResourceGood, AtHead, Inspect, Replaced;
  }

  /** Applying the head changes the forecast of no other queued write. */
  lemma ForecastStands(r: Resource, r': Resource, head: nat, id: nat, uid: nat)
    requires ResourceGood(r, uid) && NothingInDoubt(r) && AtHead(r, head) && AppliedTo(r, r', head, uid)
    requires Queued(r, id) && id != head
    ensures WillApply(r', id, uid) <==> WillApply(r, id, uid)
  {
    var e, p := r.effects[id], r.effects[head].path;
    if e.path != p {
      ForecastStandsElsewhere(r, r', head, id, uid);
    } else {
      ForecastStandsBehind(r, r', head, id, uid);
    }
  }

  /**
   * Not every queue applies completely. Three writes queued on one path, the first applied, the second then rejected:
   * the third expects the state the first one found, and refuses.
   */
  lemma RejectedInTheMiddleRefuses(r: Resource, r1: Resource, first: nat, second: nat, third: nat, uid: nat)
    requires ResourceGood(r, uid) && AtHead(r, first) && AppliedTo(r, r1, first, uid) && first < second
    requires QueuedOn(r, second, r.effects[first].path) && QueuedOn(r, third, r.effects[first].path)
    requires r.effects[third].after == Some(second)
    ensures ResourceGood(Reject(r1, second), uid) && !WillApply(Reject(r1, second), third, uid)
  {
    ApplyKeepsGood(r, r1, first, uid);
    RejectKeepsGood(r1, second, uid);
    assert EffectGood(r, first) && EffectGood(r, third);
    PublicationIsNew(r, r1, Key(Apply, first), r.effects[first].path, r.effects[first].content, uid);
  }

  /** Three writes queued on a new name of an empty directory. */
  function ThreeQueued(): Resource {
    Resource(Dir(map[], map[], 0), map[], map[1 := K.Pending, 2 := K.Pending, 3 := K.Pending],
             map[1 := Effect("p", [1], NoFile, None, false), 2 := Effect("p", [2], NoFile, Some(1), false),
                 3 := Effect("p", [3], NoFile, Some(2), false)], 4)
  }

  function FirstApplied(): Resource {
    ThreeQueued().(dir := Dir(map["p" := 1], map[1 := Inode([1], 420, 0, true, 0, 0, Driver(Key(Apply, 1)))], 1),
                   receipts := map[Key(Apply, 1) := Receipt("p", 1, Sha256([1]), ByLink, 1, 0)],
                   status := ThreeQueued().status[1 := K.Applied])
  }

  lemma ThreeQueuedIsGood()
    ensures ResourceGood(ThreeQueued(), 0) && AtHead(ThreeQueued(), 1)
  {
    var r := ThreeQueued();
    assert ClockGood(r);
    forall j | j in r.effects ensures EffectGood(r, j) && LinkedGood(r, j) && PredecessorGood(r, j, 0) {
      ThreeLinked(j);
    }
    hide EffectGood, LinkedGood, PredecessorGood, ClockGood;
  }

  lemma ThreeLinked(j: nat)
    requires j in ThreeQueued().effects
    ensures EffectGood(ThreeQueued(), j) && LinkedGood(ThreeQueued(), j) && PredecessorGood(ThreeQueued(), j, 0)
  {
  }

  lemma FirstIsApplied()
    ensures AppliedTo(ThreeQueued(), FirstApplied(), 1, 0)
  {
    var r, r1 := ThreeQueued(), FirstApplied();
    assert SoleName(r1.dir, "p");
    assert Replaced(r.dir, r1.dir, "p", [1], 0, r1.receipts[Key(Apply, 1)]);
  }

  /** It happens. */
  lemma RejectedInTheMiddleHappens()
    ensures ResourceGood(FirstApplied(), 0) && AtHead(Reject(FirstApplied(), 2), 3)
    ensures !WillApply(Reject(FirstApplied(), 2), 3, 0)
  {
    ThreeQueuedIsGood();
    FirstIsApplied();
    hide ResourceGood, AppliedTo, PublishedTo, WillApply;
    ApplyKeepsGood(ThreeQueued(), FirstApplied(), 1, 0);
    RejectedInTheMiddleRefuses(ThreeQueued(), FirstApplied(), 1, 2, 3, 0);
  }

  /** Likewise a write whose baseline was an applied write refuses once that one is reverted. */
  lemma RevertedBaselineRefuses(r: Resource, r1: Resource, first: nat, second: nat, content: Bytes, uid: nat)
    requires ResourceGood(r, uid) && RevertedTo(r, r1, first, uid, content)
    requires QueuedOn(r, second, r.effects[first].path) && r.effects[second].after == None
    ensures ResourceGood(r1, uid) && !WillApply(r1, second, uid)
  {
    RevertKeepsGood(r, r1, first, uid, content);
    assert EffectGood(r, second);
    PublicationIsNew(r, r1, Key(Revert, first), r.effects[first].path, content, uid);
  }

  /** A replacement of `[7]` by `[1]` was applied, and a second write queued over the result. */
  function SecondQueued(): Resource {
    Resource(Dir(map["p" := 1], map[1 := Inode([1], 420, 0, true, 1, 2, Driver(Key(Apply, 1)))], 3),
             map[Key(Apply, 1) := Receipt("p", 1, Sha256([1]), ByRename, 1, 1)], map[1 := K.Applied, 2 := K.Pending],
             map[1 := Effect("p", [1], Stamp(9, 1, 0, 0, Sha256([7])), None, true),
                 2 := Effect("p", [2], Stamp(1, 1, 1, 2, Sha256([1])), None, true)], 3)
  }

  function FirstReverted(): Resource {
    var restored := Inode([7], 420, 0, true, 3, 4, Driver(Key(Revert, 1)));
    SecondQueued().(dir := Dir(map["p" := 2], SecondQueued().dir.inodes[2 := restored], 5),
                    receipts := SecondQueued().receipts[Key(Revert, 1) := Receipt("p", 1, Sha256([7]), ByRename, 2, 3)],
                    status := SecondQueued().status[1 := K.Reverted])
  }

  lemma SecondLinked(j: nat)
    requires j in SecondQueued().effects
    ensures ValidDir(SecondQueued().dir) && j in SecondQueued().status && StatusGood(SecondQueued(), j)
    ensures EffectGood(SecondQueued(), j) && LinkedGood(SecondQueued(), j) && PredecessorGood(SecondQueued(), j, 0)
  {
    hide Standing, Inspect;
  }

  lemma SecondQueuedIsGood()
    ensures ResourceGood(SecondQueued(), 0)
  {
    assert ClockGood(SecondQueued());
    hide ClockGood, StatusGood, EffectGood, LinkedGood, PredecessorGood;
    forall j | j in SecondQueued().effects
      ensures StatusGood(SecondQueued(), j) && EffectGood(SecondQueued(), j)
      ensures LinkedGood(SecondQueued(), j) && PredecessorGood(SecondQueued(), j, 0)
    {
      SecondLinked(j);
    }
  }

  lemma FirstIsReverted()
    ensures RevertedTo(SecondQueued(), FirstReverted(), 1, 0, [7])
  {
    var r, r1 := SecondQueued(), FirstReverted();
    assert SoleName(r.dir, "p") && SoleName(r1.dir, "p");
    assert Standing(r, Key(Apply, 1), "p", 0);
    assert Replaced(r.dir, r1.dir, "p", [7], 0, r1.receipts[Key(Revert, 1)]);
  }

  lemma SecondWillApply()
    ensures AtHead(SecondQueued(), 2) && ValidDir(SecondQueued().dir) && WillApply(SecondQueued(), 2, 0)
  {
    assert SoleName(SecondQueued().dir, "p");
  }

  /** It happens too: the second write was going to apply, and refuses once the first is reverted. */
  lemma RevertedBaselineHappens()
    ensures ResourceGood(SecondQueued(), 0) && AtHead(SecondQueued(), 2) && WillApply(SecondQueued(), 2, 0)
    ensures ResourceGood(FirstReverted(), 0) && AtHead(FirstReverted(), 2) && !WillApply(FirstReverted(), 2, 0)
  {
    hide ResourceGood, RevertedTo, WillApply;
    SecondWillApply();
    SecondQueuedIsGood();
    FirstIsReverted();
    RevertedBaselineRefuses(SecondQueued(), FirstReverted(), 1, 2, [7], 0);
  }

  /** What the published file of `k` is now, as far as a revert of it depends on it. */
  predicate SameFile(d: Dir, d': Dir, path: Name)
    requires ValidDir(d) && ValidDir(d')
  {
    && path in d.names && path in d'.names
    && d'.inodes[d'.names[path]].mode == d.inodes[d.names[path]].mode
  }

  /**
   * Revert undoes apply. `d0` to `d1` is the publication of an action, `d2` any later state in which nobody changed the
   * published file's mode, `d2` to `d3` the publication of the recorded preimage: the bytes and the mode are back.
   */
  lemma RevertRestores(d0: Dir, d1: Dir, d2: Dir, d3: Dir, path: Name, content: Bytes, saved: Saved,
                       expected: Expected, uid: nat, r1: Receipt, r2: Receipt)
    requires ValidDir(d0) && ValidDir(d2) && Replaceable(Inspect(d0, path), expected, uid) && expected.MustBe?
    requires Replaced(d0, d1, path, content, uid, r1) && SameFile(d1, d2, path)
    requires saved.ino == expected.ino && Sha256(saved.bytes) == expected.digest && |saved.bytes| == expected.size
    requires Replaced(d2, d3, path, saved.bytes, uid, r2)
    ensures Inspect(d3, path).Present? && Inspect(d0, path).Present?
    ensures Inspect(d3, path).file.bytes == Inspect(d0, path).file.bytes
    ensures Inspect(d3, path).file.mode == Inspect(d0, path).file.mode
  {
    assert Inspect(d0, path).Present?;
    assert IsText(saved.bytes);
  }
}
