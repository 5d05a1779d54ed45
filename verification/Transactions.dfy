/** The transaction driver of one granted directory (apply.ts, class `Transactions`). */
module Transactions {
  import opened Wrappers
  import opened FileSystem
  import opened TransactionWorld

  /** The facts about transaction `key` that hold from its intent until its record is terminal. */
  predicate InFlight(w: World, key: Key, path: Name, stage: Name, desired: Bytes, expected: Expected) {
    && key in w.tx && key !in w.receipts && w.tx[key].phase != Applied
    && w.tx[key].path == path && w.tx[key].stage == stage && path != stage
    && w.tx[key].size == |desired| && w.tx[key].desired == Sha256(desired) && w.tx[key].expected == expected
    && PreimageIs(w, key, path, expected)
    && forall k | k in w.tx && k != key :: w.tx[k].phase == Applied
  }

  /** The durable preimage is a state of the target that satisfied `expected`. */
  predicate PreimageIs(w: World, key: Key, path: Name, expected: Expected) {
    key in w.preimages && w.preimages[key].path == path &&
    match expected
    case MustBeAbsent => w.preimages[key].content == None
    case MustBe(ino, size, digest, _, _) =>
      var c := w.preimages[key].content;
      c.Some? && c.value.ino == ino && Sha256(c.value.bytes) == digest && |c.value.bytes| == size
        && IsText(c.value.bytes)
  }

  /** Everything but transaction `key` is as before. */
  ghost predicate OthersKept(w: World, w': World, key: Key) {
    && (forall k | k != key :: k in w.tx <==> k in w'.tx)
    && (forall k | k in w.tx && k in w'.tx && k != key :: w.tx[k] == w'.tx[k])
    && (forall k | k != key :: k in w.receipts <==> k in w'.receipts)
    && (forall k | k in w.receipts && k in w'.receipts && k != key :: w.receipts[k] == w'.receipts[k])
    && (forall k | k != key :: k in w.preimages <==> k in w'.preimages)
    && (forall k | k in w.preimages && k in w'.preimages && k != key :: w.preimages[k] == w'.preimages[k])
    && w.losses <= w'.losses && w.edits <= w'.edits && w.writes <= w'.writes
  }

  /** The stage file, alone under its name, holds `bytes` written by this transaction only. */
  predicate StageHolds(w: World, key: Key, stage: Name, ino: Ino, bytes: Bytes)
    requires ValidDir(w.dir)
  {
    && SoleName(w.dir, stage) && w.dir.names[stage] == ino
    && var f := w.dir.inodes[ino]; f.bytes == bytes && f.origin == Driver(key) && f.plain
  }

  /** No name but `n` changed, and no file under another name changed. */
  predicate OnlyNameChanged(d: Dir, d': Dir, n: Name)
    requires ValidDir(d) && ValidDir(d')
  {
    && d.names.Keys - {n} == d'.names.Keys - {n}
    && forall m | m in d.names && m in d'.names && m != n ::
         d'.names[m] == d.names[m] && d'.inodes[d'.names[m]] == d.inodes[d.names[m]]
  }

  /** The file `ino` moved from `stage` to `path`; only its ctime may have changed. */
  predicate Moved(d: Dir, d': Dir, path: Name, stage: Name, ino: Ino)
    requires ValidDir(d) && ino in d.inodes
  {
    && ValidDir(d') && d'.names == d.names[path := ino] - {stage} && ino in d'.inodes
    && d'.inodes[ino].(ctime := 0) == d.inodes[ino].(ctime := 0) && d.clock <= d'.inodes[ino].ctime < d'.clock
    && forall m | m in d'.names && m in d.names && m != path :: d'.inodes[d'.names[m]] == d.inodes[d.names[m]]
  }

  /** The content of `ino` was last written between the two states. */
  predicate WrittenBetween(d: Dir, d': Dir, ino: Ino) {
    ino in d'.inodes && d.clock <= d'.inodes[ino].mtime < d'.clock
  }

  /** The file `ino` under the name `stage` may have grown; nothing else changed. */
  ghost predicate OnlyGrown(d: Dir, d': Dir, stage: Name, ino: Ino) {
    && ValidDir(d) && ValidDir(d') && OnlyNameChanged(d, d', stage) && ino in d.inodes && ino in d'.inodes
       && d.clock <= d'.clock
    && d'.inodes[ino].mode == d.inodes[ino].mode && d'.inodes[ino].uid == d.inodes[ino].uid
    && (d'.inodes[ino].mtime == d.inodes[ino].mtime || d.clock <= d'.inodes[ino].mtime < d'.clock)
  }

  lemma OnlyGrownTwice(d: Dir, d1: Dir, d2: Dir, stage: Name, ino: Ino)
    requires OnlyGrown(d, d1, stage, ino) && OnlyGrown(d1, d2, stage, ino)
    ensures OnlyGrown(d, d2, stage, ino)
  {
    OnlyNameChangedTwice(d, d1, d2, stage);
  }

  /** What a successful publication leaves: the whole desired file, alone under its name, everything else as it was. */
  predicate Replaced(d: Dir, d': Dir, path: Name, desired: Bytes, uid: nat, r: Receipt)
    requires ValidDir(d)
  {
    && ValidDir(d') && path in d'.names && OnlyNameChanged(d, d', path) && SoleName(d', path)
    && var f := d'.inodes[d'.names[path]];
       && f.bytes == desired && f.plain && f.uid == uid && f.mode < 512 && f.mtime == r.mtime && d'.names[path] == r.ino
       && d.clock <= f.mtime < d'.clock && d.clock <= f.ctime < d'.clock
       && (path in d.names ==> f.mode == d.inodes[d.names[path]].mode % 512)
  }

  /** The checks before the first durable write: baseline, ownership, special mode bits (apply.ts:124-126). */
  predicate Replaceable(t: Target, expected: Expected, uid: nat) {
    Matches(t, expected) && (t.Present? ==> t.file.uid == uid && t.file.mode / 512 == 0)
  }

  lemma OnlyNameChangedTwice(d: Dir, d1: Dir, d2: Dir, n: Name)
    requires ValidDir(d) && ValidDir(d1) && ValidDir(d2) && OnlyNameChanged(d, d1, n) && OnlyNameChanged(d1, d2, n)
    ensures OnlyNameChanged(d, d2, n)
  {
    forall m | m in d.names && m in d2.names && m != n
      ensures d2.names[m] == d.names[m] && d2.inodes[d2.names[m]] == d.inodes[d.names[m]]
    {
      assert m in d.names.Keys - {n};
      assert m in d1.names;
    }
  }

  /** `Replaced`, with the mode of the new file spelled out. */
  predicate Placed(d: Dir, d': Dir, path: Name, desired: Bytes, mode: nat, uid: nat, r: Receipt)
    requires ValidDir(d)
  {
    && ValidDir(d') && path in d'.names && OnlyNameChanged(d, d', path) && SoleName(d', path)
    && var f := d'.inodes[d'.names[path]];
       && f.bytes == desired && f.plain && f.uid == uid && f.mode == mode && f.mtime == r.mtime
          && d'.names[path] == r.ino
       && d.clock <= f.mtime < d'.clock && d.clock <= f.ctime < d'.clock
  }

  lemma InspectElsewhere(d: Dir, d': Dir, path: Name, stage: Name)
    requires ValidDir(d) && ValidDir(d') && OnlyNameChanged(d, d', stage) && path != stage && stage !in d.names
    requires SoleName(d', stage)
    ensures Inspect(d', path) == Inspect(d, path)
  {
    assert path in d.names.Keys - {stage} <==> path in d'.names.Keys - {stage};
    if path in d.names {
      assert forall m | m in d'.names :: m == stage || m in d.names by {
        forall m | m in d'.names ensures m == stage || m in d.names {
          assert m in d'.names.Keys - {stage} || m == stage;
        }
      }
      assert forall m | m in d.names :: m in d'.names by {
        forall m | m in d.names ensures m in d'.names { assert m in d.names.Keys - {stage}; }
      }
      assert SoleName(d', path) <==> SoleName(d, path);
    }
  }

  lemma MovedIsPlaced(d: Dir, d2: Dir, d3: Dir, path: Name, stage: Name, ino: Ino, desired: Bytes)
    requires ValidDir(d) && ValidDir(d2) && OnlyNameChanged(d, d2, stage) && stage !in d.names && path != stage
    requires SoleName(d2, stage) && d2.names[stage] == ino && d2.inodes[ino].bytes == desired && d2.inodes[ino].plain
    requires IsText(desired)
    requires WrittenBetween(d, d2, ino) && Moved(d2, d3, path, stage, ino)
    ensures d.clock <= d3.inodes[ino].mtime < d3.clock && d.clock <= d3.inodes[ino].ctime < d3.clock
    ensures OnlyNameChanged(d, d3, path) && SoleName(d3, path) && d3.names[path] == ino
    ensures d3.inodes[ino].(ctime := 0) == d2.inodes[ino].(ctime := 0)
    ensures Inspect(d3, path) == Present(ino, d3.inodes[ino])
  {
    forall m | m in d.names && m in d3.names && m != path
      ensures d3.names[m] == d.names[m] && d3.inodes[d3.names[m]] == d.inodes[d.names[m]]
    {
      assert m in d.names.Keys - {stage};
      assert m in d2.names;
    }
    forall m ensures m in d.names.Keys - {path} <==> m in d3.names.Keys - {path} {
      assert m in d.names.Keys - {stage} <==> m in d2.names.Keys - {stage};
    }
  }

  /** What an exchange leaves under each name, and where dropping the stage name then leads. */
  lemma SwapLeaves(d: Dir, d': Dir, path: Name, stage: Name, expected: Expected, ino: Ino)
    requires ValidDir(d) && SoleName(d, stage) && d.names[stage] == ino && path in d.names && path != stage
    requires d' == Exchange(d, stage, path)
    ensures ValidDir(d') && d'.names[path] == ino && stage in d'.names && d'.names[stage] != ino
    ensures Matches(Inspect(d, path), expected) && expected.MustBe? ==>
              Matches(Inspect(d', stage), expected.(ctime := None)) && Moved(d, Unlink(d', stage), path, stage, ino)
  {
    if Matches(Inspect(d, path), expected) && expected.MustBe? {
      assert SoleName(d, path);
      assert SoleName(d', stage);
    }
  }

  /**
   * The rest of the machine, as far as a transaction can tell: what outside writers do between two steps, which
   * syscalls and durable writes go through, how many bytes a write takes, whether an exchange swaps. A result
   * about every `Host` is a result about every interleaving, every fault and every crash point.
   */
  datatype Host = Host(rounds: nat -> nat, edit: (nat, World) -> (Name, World), succeeds: nat -> bool,
                       accepts: nat -> nat,
                       exchanges: bool, umask: nat -> nat)

  /** No outside writer and no fault. */
  ghost predicate Quiet(h: Host) {
    forall t: nat :: h.succeeds(t) && h.rounds(t) == 0
  }

  datatype Call = Call(key: Key, path: Name, desired: Bytes, expected: Expected, stage: Name)

  lemma {:induction false} FreeNumber(used: set<nat>) returns (bound: nat)
    ensures forall u | u in used :: u < bound
  {
    if used == {} { return 0; }
    var x :| x in used;
    bound := FreeNumber(used - {x});
    if bound <= x { bound := x + 1; }
    forall u | u in used ensures u < bound { assert u == x || u in used - {x}; }
  }

  lemma NotYetTouched(w: World, key: Key)
    requires WorldGood(w) && key !in w.tx
    ensures Untouched(w, key)
  {
    forall l | l in w.losses ensures l.key != key { assert LossAllowed(w, l); }
  }

  lemma OthersKeptTwice(w: World, w1: World, w2: World, key: Key)
    requires OthersKept(w, w1, key) && OthersKept(w1, w2, key)
    ensures OthersKept(w, w2, key)
  {
  }

  lemma SameRecordsKept(w: World, w': World, key: Key)
    requires SameRecords(w, w') && w.edits <= w'.edits
    ensures OthersKept(w, w', key) && (Untouched(w, key) ==> Untouched(w', key))
  {
  }

  lemma PreimageKept(w: World, key: Key, p: Preimage)
    ensures OthersKept(w, SetPreimage(w, key, p), key)
  {
  }

  lemma InspectedText(d: Dir, n: Name)
    requires ValidDir(d)
    ensures Inspect(d, n).Present? ==> IsText(Inspect(d, n).file.bytes)
  {
  }

  lemma ReplaceableMatches(t: Target, expected: Expected, uid: nat)
    requires Replaceable(t, expected, uid)
    ensures Matches(t, expected) && !t.Refused?
  {
  }

  lemma PlacedIsReplaced(d: Dir, d': Dir, path: Name, desired: Bytes, mode: nat, uid: nat, expected: Expected,
                         r: Receipt)
    requires ValidDir(d) && Placed(d, d', path, desired, mode, uid, r) && mode < 512 && !Inspect(d, path).Refused?
    requires Inspect(d, path).Present? ==> mode == Inspect(d, path).file.mode % 512
    ensures Replaced(d, d', path, desired, uid, r)
  {
  }

  predicate OthersApplied(w: World, key: Key) {
    forall k | k in w.tx && k != key :: w.tx[k].phase == Applied
  }

  lemma AloneInFlight(w: World, key: Key, path: Name, stage: Name, desired: Bytes, expected: Expected)
    requires InFlight(w, key, path, stage, desired, expected)
    ensures OthersApplied(w, key)
  {
  }

  /** Every other transaction had finished, so this one alone decides whether the resource is settled. */
  lemma OnlySettledLeft(w: World, w': World, key: Key)
    requires OthersKept(w, w', key) && key in w'.tx && OthersApplied(w, key)
    ensures Settled(w') <==> w'.tx[key].phase == Applied
  {
  }

  /** Outside steps change nothing a transaction in flight depends on. */
  lemma StillInFlight(w: World, w': World, key: Key, path: Name, stage: Name, desired: Bytes, expected: Expected)
    requires WorldGood(w) && SameRecords(w, w') && StagesKept(w, w') && w.edits <= w'.edits
    requires InFlight(w, key, path, stage, desired, expected)
    ensures OthersKept(w, w', key) && InFlight(w', key, path, stage, desired, expected)
    ensures stage !in w.dir.names ==> stage !in w'.dir.names
    ensures Untouched(w, key) ==> Untouched(w', key)
  {
  }

  lemma IntentInFlight(start: World, w: World, key: Key, path: Name, stage: Name, desired: Bytes, expected: Expected)
    requires Settled(start) && OthersKept(start, w, key) && key !in w.tx && key !in w.receipts && path != stage
    requires PreimageIs(w, key, path, expected)
    ensures InFlight(SetTx(w, key, TxRecord(path, stage, Intent, expected, |desired|, Sha256(desired), None, None)),
                     key, path, stage, desired, expected)
  {
  }

  lemma SameInFlight(w: World, key: Key, path: Name, stage: Name, desired: Bytes, expected: Expected)
    requires InFlight(w, key, path, stage, desired, expected)
    ensures forall w': World | w'.tx == w.tx && w'.receipts == w.receipts && w'.preimages == w.preimages ::
              InFlight(w', key, path, stage, desired, expected)
  {
  }

  lemma OnlyOutside(w: World, w': World, key: Key, path: Name, stage: Name, expected: Expected)
    requires WorldGood(w) && SameRecords(w, w') && StagesKept(w, w') && w.edits <= w'.edits
    requires key in w.tx && w.tx[key].phase != Applied && w.tx[key].stage == stage && PreimageIs(w, key, path, expected)
    ensures OthersKept(w, w', key) && PreimageIs(w', key, path, expected)
    ensures stage !in w.dir.names ==> stage !in w'.dir.names
  {
  }

  lemma HoldsKept(w: World, w': World, key: Key, stage: Name, ino: Ino, bytes: Bytes)
    requires WorldGood(w) && WorldGood(w')
    ensures ValidDir(w.dir) && ValidDir(w'.dir)
    ensures StageHolds(w, key, stage, ino, bytes) ==> stage in w.dir.names && w.dir.names[stage] == ino
    ensures Kept(w.dir, w'.dir, stage) && StageHolds(w, key, stage, ino, bytes) ==>
              StageHolds(w', key, stage, ino, bytes)
    ensures Kept(w.dir, w'.dir, stage) && stage !in w.dir.names ==> stage !in w'.dir.names
    ensures Kept(w.dir, w'.dir, stage) && stage in w'.dir.names ==>
              stage in w.dir.names && w'.dir.names[stage] == w.dir.names[stage]
  {
  }

  lemma HoldsSame(w: World, w': World, key: Key, stage: Name, ino: Ino, bytes: Bytes)
    requires WorldGood(w) && WorldGood(w') && w'.dir == w.dir
    ensures ValidDir(w.dir) && (StageHolds(w, key, stage, ino, bytes) ==> StageHolds(w', key, stage, ino, bytes))
  {
  }

  /** The stage of an unfinished transaction survives outside steps untouched. */
  lemma StageStays(w: World, w': World, key: Key, path: Name, stage: Name, desired: Bytes, expected: Expected, ino: Ino)
    requires WorldGood(w) && SameRecords(w, w') && StagesKept(w, w') && w.edits <= w'.edits
    requires InFlight(w, key, path, stage, desired, expected)
    requires StageHolds(w, key, stage, ino, desired)
    ensures OthersKept(w, w', key) && InFlight(w', key, path, stage, desired, expected)
    ensures ValidDir(w'.dir) && StageHolds(w', key, stage, ino, desired)
    ensures Untouched(w, key) ==> Untouched(w', key)
  {
    StillInFlight(w, w', key, path, stage, desired, expected);
  }

  lemma DirKept(w: World, w': World, key: Key)
    requires w' == w.(dir := w'.dir, writes := w'.writes) && w.writes <= w'.writes
    ensures OthersKept(w, w', key)
  {
  }

  lemma RenameKept(w: World, key: Key, edits: nat, path: Name, stage: Name, desired: Bytes, expected: Expected)
    requires WorldGood(w) && InFlight(w, key, path, stage, desired, expected) && stage in w.dir.names
    ensures OthersKept(w, RenameStage(w, key, edits), key)
    ensures InFlight(RenameStage(w, key, edits), key, path, stage, desired, expected)
  {
  }

  lemma TxKept(w: World, w': World, key: Key, r: TxRecord, path: Name, expected: Expected)
    requires w' == w || w' == SetTx(w, key, r)
    ensures OthersKept(w, w', key) && (PreimageIs(w, key, path, expected) ==> PreimageIs(w', key, path, expected))
  {
  }

  lemma ReceiptKept(w: World, key: Key, r: Receipt, path: Name, expected: Expected)
    ensures OthersKept(w, SetReceipt(w, key, r), key)
    ensures PreimageIs(w, key, path, expected) ==> PreimageIs(SetReceipt(w, key, r), key, path, expected)
  {
  }

  lemma FreshFile(w: World, key: Key, stage: Name, ino: Ino, mode: nat, uid: nat)
    requires WorldGood(w) && key in w.tx && w.tx[key].stage == stage && w.tx[key].phase != Applied
    requires stage !in w.dir.names && ino !in w.dir.names.Values
    ensures var w' := OnDir(w, CreateFile(w.dir, stage, ino, mode, uid, key));
            && ValidDir(w.dir) && ValidDir(w'.dir) && WholeOrNothing(w') && ino in w'.dir.inodes
            && StageHolds(w', key, stage, ino, []) && OnlyNameChanged(w.dir, w'.dir, stage)
            && WrittenBetween(w.dir, w'.dir, ino)
  {
    hide NoEditDestroyed, TruthfulRecords, PlansFit;
  }

  lemma AloneUnderStage(w: World, key: Key, stage: Name, ino: Ino, bytes: Bytes)
    requires ValidDir(w.dir) && StageHolds(w, key, stage, ino, bytes)
    ensures SoleName(w.dir, stage) && w.dir.names[stage] == ino && ino in w.dir.inodes
    ensures w.dir.inodes[ino].bytes == bytes && w.dir.inodes[ino].plain
  {
  }

  ghost predicate OneStep(w: World, w': World) {
    exists n :: OutsideStep(w, w', n)
  }

  /** link(2) was made, and both names are the staged file; at `linked` outside steps that file was still whole. */
  predicate BothNames(w: World, key: Key, path: Name, stage: Name, linked: nat)
    requires ValidDir(w.dir)
  {
    && path != stage && path in w.dir.names && stage in w.dir.names && w.dir.names[path] == w.dir.names[stage]
    && (forall m | m in w.dir.names && w.dir.names[m] == w.dir.names[stage] :: m == path || m == stage)
    && linked <= w.edits && key in w.tx
    && (w.edits == linked ==> Sha256(w.dir.inodes[w.dir.names[stage]].bytes) == w.tx[key].desired)
  }

  lemma LinkedBoth(w: World, w': World, key: Key, path: Name, stage: Name, desired: Bytes, ino: Ino)
    requires ValidDir(w.dir) && key in w.tx && w.tx[key].desired == Sha256(desired)
    requires StageHolds(w, key, stage, ino, desired)
    requires path !in w.dir.names && w'.dir == Link(w.dir, stage, path) && w'.tx == w.tx
    ensures ValidDir(w'.dir) && BothNames(w', key, path, stage, w'.edits)
  {
  }

  lemma StillBoth(w: World, w': World, key: Key, path: Name, stage: Name)
    requires ValidDir(w.dir) && ValidDir(w'.dir) && BothNames(w, key, path, stage, w.edits) && SameRecords(w, w')
    requires w.tx[key].stage == stage && w.tx[key].phase != Applied && StagesKept(w, w')
    requires w.edits <= w'.edits && (w'.edits == w.edits ==> w'.dir == w.dir)
    requires path in w'.dir.names && stage in w'.dir.names && w'.dir.names[path] == w'.dir.names[stage]
    ensures BothNames(w', key, path, stage, w.edits)
  {
    assert Kept(w.dir, w'.dir, stage);
  }

  /** At unlink(2): the stage name is the last one only if an outside step moved the target name since the check. */
  lemma LastOfBoth(w: World, w': World, key: Key, path: Name, stage: Name, linked: nat)
    requires WorldGood(w) && WorldGood(w') && BothNames(w, key, path, stage, linked) && SameRecords(w, w')
    requires StagesKept(w, w')
    requires w.edits <= w'.edits && (w'.edits == w.edits ==> w'.dir == w.dir)
    requires w'.edits == w.edits + 1 ==> OneStep(w, w')
    requires w.tx[key].stage == stage && w.tx[key].phase != Applied
    ensures linked <= w.edits && key in w.tx && stage in w.dir.names && stage in w'.dir.names
    ensures w'.dir.names[stage] == w.dir.names[stage]
    ensures SoleName(w'.dir, stage) <==> !(path in w'.dir.names && w'.dir.names[path] == w'.dir.names[stage])
    ensures SoleName(w'.dir, stage) ==>
              var edits, since := w'.edits - w.edits, w'.edits - linked;
              0 < edits <= since
              && (since >= 2 || Sha256(w'.dir.inodes[w'.dir.names[stage]].bytes) == w'.tx[key].desired)
  {
    hide WholeOrNothing, NoEditDestroyed, TruthfulRecords, PlansFit, OneStep;
    assert Kept(w.dir, w'.dir, stage);
    if SoleName(w'.dir, stage) && w'.edits == w.edits + 1 { OneStepMovesOnly(w, w', key, path, stage, linked); }
  }

  /** A step that leaves the stage name as the last one moved the target name, and so wrote nothing to the file. */
  lemma OneStepMovesOnly(w: World, w': World, key: Key, path: Name, stage: Name, linked: nat)
    requires WorldGood(w) && ValidDir(w'.dir) && BothNames(w, key, path, stage, linked) && OneStep(w, w')
    requires stage in w'.dir.names && w'.dir.names[stage] == w.dir.names[stage] && SoleName(w'.dir, stage)
    ensures w'.dir.inodes[w.dir.names[stage]] == w.dir.inodes[w.dir.names[stage]]
  {
    var n :| OutsideStep(w, w', n);
    assert path !in w'.dir.names || w'.dir.names[path] != w.dir.names[stage];
    assert n == path;
  }

  lemma PlacedIs(d: Dir, d': Dir, path: Name, ino: Ino, desired: Bytes, mode: nat, uid: nat, r: Receipt)
    requires ValidDir(d) && ValidDir(d') && OnlyNameChanged(d, d', path) && SoleName(d', path) && d'.names[path] == ino
    requires var f := d'.inodes[ino];
             f.bytes == desired && f.plain && f.uid == uid && f.mode == mode && f.mtime == r.mtime && ino == r.ino
             && d.clock <= f.mtime < d'.clock && d.clock <= f.ctime < d'.clock
    ensures Placed(d, d', path, desired, mode, uid, r)
  {
  }

  class Transactions {
    const host: Host
    const uid: nat
    /** How often the host has been consulted. */
    var tick: nat
    /** Every value this field ever takes is good: the verifier checks each single assignment. */
    var w: GoodWorld

    /** A driver object over the durable state it finds at start. */
    constructor (found: GoodWorld, host: Host, uid: nat)
      ensures w == found && this.host == host && this.uid == uid
    {
      this.host := host;
      this.uid := uid;
      tick := 0;
      w := found;
    }

    /** Whether the process survives to the next syscall or durable write, and that step succeeds. */
    method Attempt() returns (ok: bool)
      modifies this`tick
      ensures Quiet(host) ==> ok
    {
      ok := host.succeeds(tick);
      tick := tick + 1;
    }

    /** Any number of outside steps, as the host plans them. */
    method Interfere()
      modifies this
      ensures SameRecords(old(w), w) && StagesKept(old(w), w)
      ensures old(w.edits) <= w.edits && (w.edits == old(w.edits) ==> w.dir == old(w.dir))
      ensures w.edits == old(w.edits) + 1 ==> OneStep(old(w), w)
      ensures Quiet(host) ==> w == old(w)
    {
      var rounds := host.rounds(tick);
      while rounds > 0
        invariant SameRecords(old(w), w) && StagesKept(old(w), w)
        invariant old(w.edits) <= w.edits && (w.edits == old(w.edits) ==> w.dir == old(w.dir))
        invariant w.edits == old(w.edits) + 1 ==> OneStep(old(w), w)
        invariant Quiet(host) ==> w == old(w) && rounds == 0
      {
        var (n, next) := host.edit(tick, w);
        tick := tick + 1;
        if OutsideStep(w, next, n) {
          OutsideKeepsGood(w, next, n);
          w := next;
        }
        rounds := rounds - 1;
      }
    }

    /** Refuse to start while any transaction is unfinished (apply.ts:77-85). */
    method AssertSettled() returns (ok: bool)
      ensures ok <==> Settled(w)
    {
      var left := w.tx.Keys;
      while left != {}
        invariant left <= w.tx.Keys && forall k | k in w.tx.Keys - left :: w.tx[k].phase == Applied
        decreases left
      {
        var k :| k in left;
        if w.tx[k].phase != Applied { return false; }
        left := left - {k};
      }
      ok := true;
    }

    method Persist(key: Key, r: TxRecord) returns (ok: bool)
      requires key in w.preimages
      requires key in w.tx ==>
                 w.tx[key].phase != Applied && r.stage == w.tx[key].stage && r.desired == w.tx[key].desired
      requires Untouched(w, key) || (key in w.tx && r.publish == w.tx[key].publish && r.staged == w.tx[key].staged)
      requires r.phase == Applied ==> r.stage !in w.dir.names && TruthfulAt(SetTx(w, key, r), key)
      requires PlanFits(r)
      modifies this
      ensures w == if ok then SetTx(old(w), key, r) else old(w)
      ensures Quiet(host) ==> ok
    {
      ok := Attempt();
      if ok {
        SetTxKeepsGood(w, key, r);
        w := SetTx(w, key, r);
      }
    }

    /** Rewrite the record of a transaction in flight; a write that fails leaves the record it had. */
    method Note(key: Key, path: Name, stage: Name, desired: Bytes, expected: Expected,
                phase: Phase, publish: Option<Publication>, staged: Option<Ino>) returns (ok: bool)
      requires InFlight(w, key, path, stage, desired, expected) && phase != Applied
      requires Untouched(w, key) || (publish == w.tx[key].publish && staged == w.tx[key].staged)
      requires publish.Some? && publish != w.tx[key].publish ==> (publish.value == ByLink <==> expected.MustBeAbsent?)
      modifies this
      ensures OthersKept(old(w), w, key) && InFlight(w, key, path, stage, desired, expected)
      ensures w == old(w).(tx := w.tx) && (Untouched(old(w), key) ==> Untouched(w, key)) && key in w.tx
      ensures w.tx[key].publish == (if ok then publish else old(w.tx[key].publish))
      ensures w.tx[key].staged == (if ok then staged else old(w.tx[key].staged))
      ensures Quiet(host) ==> ok
    {
      hide OthersKept;
      var r := w.tx[key].(phase := phase, publish := publish, staged := staged);
      ok := Persist(key, r);
      TxKept(old(w), w, key, r, path, expected);
    }

    /** Outside steps while transaction `key` is in flight. */
    method Pause(key: Key, path: Name, stage: Name, desired: Bytes, expected: Expected)
      requires InFlight(w, key, path, stage, desired, expected)
      modifies this
      ensures OthersKept(old(w), w, key) && InFlight(w, key, path, stage, desired, expected) && w.tx == old(w.tx)
      ensures key in w.tx
      ensures Untouched(old(w), key) ==> Untouched(w, key)
      ensures Kept(old(w.dir), w.dir, stage) && SameRecords(old(w), w)
      ensures old(w.edits) <= w.edits && (w.edits == old(w.edits) ==> w.dir == old(w.dir))
      ensures Quiet(host) ==> w == old(w)
    {
      hide OthersKept, PreimageIs, Kept;
      Interfere();
      StillInFlight(old(w), w, key, path, stage, desired, expected);
    }

    /** The preimage and then the intent become durable (apply.ts:127-133). */
    method Intend(key: Key, path: Name, desired: Bytes, expected: Expected, stage: Name, current: Target)
      returns (ok: bool)
      requires Settled(w) && key !in w.tx && key !in w.receipts && Untouched(w, key) && stage != path
      requires Replaceable(current, expected, uid)
      requires current.Present? ==> IsText(current.file.bytes)
      modifies this
      ensures OthersKept(old(w), w, key) && w.losses == old(w.losses) && w.writes == old(w.writes)
      ensures !ok ==> w.tx == old(w.tx) && w.receipts == old(w.receipts)
      ensures ok ==> InFlight(w, key, path, stage, desired, expected) && Untouched(w, key) && w.tx[key].staged == None
      ensures Quiet(host) ==> w.dir == old(w.dir) && ok
    {
      hide OthersKept, WorldGood, InFlight, Matches, IsText;
      ghost var start := w;
      SameRecordsKept(start, start, key);
      ok := Attempt();
      if !ok { return; }
      SavePreimage(key, path, expected, current);
      ghost var saved := w;
      Interfere();
      SameRecordsKept(saved, w, key);
      OthersKeptTwice(start, saved, w, key);
      ghost var last := w;
      var r := TxRecord(path, stage, Intent, expected, |desired|, Sha256(desired), None, None);
      ok := Persist(key, r);
      TxKept(last, w, key, r, path, expected);
      OthersKeptTwice(start, last, w, key);
      if ok { IntentInFlight(start, last, key, path, stage, desired, expected); }
    }

    method SavePreimage(key: Key, path: Name, expected: Expected, current: Target)
      requires key !in w.tx && Replaceable(current, expected, uid) && (current.Present? ==> IsText(current.file.bytes))
      modifies this`w
      ensures OthersKept(old(w), w, key) && PreimageIs(w, key, path, expected)
      ensures w == old(w).(preimages := w.preimages)
    {
      hide OthersKept;
      var p := Preimage(path, if current.Present? then Some(Saved(current.file.bytes, current.file.mode,
          current.ino)) else None);
      PreimageKept(w, key, p);
      SetPreimageKeepsGood(w, key, p);
      w := SetPreimage(w, key, p);
      hide WorldGood;
    }

    /** Check the target before anything is written (apply.ts:124-133). */
    method Begin(key: Key, path: Name, desired: Bytes, expected: Expected, stage: Name)
      returns (ok: bool, current: Target)
      requires Settled(w) && key !in w.tx && key !in w.receipts
      requires stage !in w.dir.names && stage != path
      modifies this
      ensures OthersKept(old(w), w, key)
      ensures w.losses == old(w.losses) && w.writes == old(w.writes)
      ensures !ok ==> w.tx == old(w.tx) && w.receipts == old(w.receipts)
      ensures ok ==> InFlight(w, key, path, stage, desired, expected) && Untouched(w, key) && w.tx[key].staged == None
      ensures ok ==> Replaceable(current, expected, uid)
      ensures Quiet(host) ==> w.dir == old(w.dir) && current == Inspect(old(w.dir), path)
      ensures Quiet(host) && Replaceable(Inspect(old(w.dir), path), expected, uid) ==> ok
    {
      NotYetTouched(w, key);
      hide OthersKept, WholeOrNothing, NoEditDestroyed, TruthfulRecords, StagesKept, IsText, SoleName, Replaceable,
        Inspect, InFlight;
      ghost var start := w;
      Interfere();
      SameRecordsKept(start, w, key);
      current := Inspect(w.dir, path);
      if !Replaceable(current, expected, uid) { return false, current; }
      ghost var inspected := w;
      InspectedText(w.dir, path);
      ok := Intend(key, path, desired, expected, stage, current);
      OthersKeptTwice(start, inspected, w, key);
    }

    method WriteChunk(key: Key, stage: Name, ino: Ino, done: Bytes, chunk: Bytes)
      requires key in w.tx && w.tx[key].phase != Applied && w.tx[key].stage == stage
      requires StageHolds(w, key, stage, ino, done)
      modifies this`w
      ensures w == old(w).(dir := w.dir, writes := old(w.writes) + 1)
      ensures StageHolds(w, key, stage, ino, done + chunk) && OnlyGrown(old(w.dir), w.dir, stage, ino)
    {
      var next := OnDir(w, Append(w.dir, ino, chunk));
      OnDirKeepsGood(w, next.dir);
      w := next;
    }

    /** Create the stage file and record its identity (apply.ts:135-144). */
    method CreateStage(key: Key, path: Name, stage: Name, desired: Bytes, expected: Expected, mode: nat)
      returns (ok: bool, ino: Ino)
      requires InFlight(w, key, path, stage, desired, expected) && Untouched(w, key)
      modifies this
      ensures OthersKept(old(w), w, key) && InFlight(w, key, path, stage, desired, expected) && Untouched(w, key)
      ensures ok ==> w.tx[key].staged == Some(ino) && StageHolds(w, key, stage, ino, [])
      ensures Quiet(host) && stage !in old(w.dir.names) ==>
                ok && OnlyNameChanged(old(w.dir), w.dir, stage) && w.dir.inodes[ino].mode == mode
                  && w.dir.inodes[ino].uid == uid
                && WrittenBetween(old(w.dir), w.dir, ino)
    {
      hide OthersKept, WorldGood, InFlight, StageHolds, Kept, OnlyNameChanged, WrittenBetween;
      ghost var start := w;
      ino := 0;
      Pause(key, path, stage, desired, expected);
      HoldsKept(start, w, key, stage, ino, []);
      if stage in w.dir.names { return false, ino; }
      ok := Attempt();
      if !ok { return; }
      ghost var before := w;
      ino := FreeIno();
      CreateOne(key, path, stage, desired, expected, ino, mode);
      OthersKeptTwice(start, before, w, key);
      before := w;
      Pause(key, path, stage, desired, expected);
      HoldsKept(before, w, key, stage, ino, []);
      OthersKeptTwice(start, before, w, key);
      before := w;
      ok := Note(key, path, stage, desired, expected, Staged, w.tx[key].publish, Some(ino));
      HoldsSame(before, w, key, stage, ino, []);
      OthersKeptTwice(start, before, w, key);
    }

    /** The new file gets an inode number that no name uses. */
    method CreateOne(key: Key, path: Name, stage: Name, desired: Bytes, expected: Expected, ino: Ino, mode: nat)
      requires InFlight(w, key, path, stage, desired, expected) && stage !in w.dir.names && ino !in w.dir.names.Values
      modifies this`w
      ensures OthersKept(old(w), w, key) && InFlight(w, key, path, stage, desired, expected)
      ensures w == old(w).(dir := w.dir, writes := old(w.writes) + 1) && (Untouched(old(w), key) ==> Untouched(w, key))
      ensures StageHolds(w, key, stage, ino, []) && OnlyNameChanged(old(w.dir), w.dir, stage) && ino in w.dir.inodes
      ensures w.dir.inodes[ino].mode == mode && w.dir.inodes[ino].uid == uid && WrittenBetween(old(w.dir), w.dir, ino)
    {
      hide OthersKept;
      var next := OnDir(w, CreateFile(w.dir, stage, ino, mode, uid, key));
      DirKept(w, next, key);
      FreshFile(w, key, stage, ino, mode, uid);
      hide StageHolds, OnlyNameChanged, WrittenBetween, SoleName;
      OnDirKeepsGood(w, next.dir);
      w := next;
      hide WorldGood;
    }

    /** An inode number that no name uses. */
    method FreeIno() returns (ino: Ino)
      ensures ino !in w.dir.names.Values
    {
      ghost var bound := FreeNumber(w.dir.names.Values);
      assert bound !in w.dir.names.Values;
      ino :| ino !in w.dir.names.Values;
    }

    /** One write(2): at least one byte and at most all of them. */
    method WriteSome(key: Key, stage: Name, ino: Ino, desired: Bytes, offset: nat) returns (ok: bool, next: nat)
      requires key in w.tx && w.tx[key].phase != Applied && w.tx[key].stage == stage && offset < |desired|
      requires StageHolds(w, key, stage, ino, desired[..offset])
      modifies this
      ensures w.tx == old(w.tx) && w.preimages == old(w.preimages) && w.receipts == old(w.receipts)
      ensures w.losses == old(w.losses)
      ensures old(w.edits) <= w.edits && old(w.writes) <= w.writes
      ensures ok ==> offset < next <= |desired| && StageHolds(w, key, stage, ino, desired[..next])
      ensures Quiet(host) ==> ok && OnlyGrown(old(w.dir), w.dir, stage, ino)
    {
      hide NoEditDestroyed, WholeOrNothing, TruthfulRecords;
      Interfere();
      ok := Attempt();
      next := offset;
      if !ok { return; }
      var n := host.accepts(tick);
      if n == 0 || n > |desired| - offset { n := |desired| - offset; }
      next := offset + n;
      assert desired[..offset] + desired[offset..next] == desired[..next];
      WriteChunk(key, stage, ino, desired[..offset], desired[offset..next]);
    }

    /** Write the desired bytes in whatever pieces the host accepts (apply.ts:145-149). */
    method WriteAll(key: Key, path: Name, stage: Name, desired: Bytes, expected: Expected, ino: Ino) returns (ok: bool)
      requires InFlight(w, key, path, stage, desired, expected) && Untouched(w, key) && w.tx[key].staged == Some(ino)
      requires StageHolds(w, key, stage, ino, [])
      modifies this
      ensures w.tx == old(w.tx) && w.preimages == old(w.preimages) && w.receipts == old(w.receipts)
      ensures w.losses == old(w.losses)
      ensures old(w.edits) <= w.edits && old(w.writes) <= w.writes
      ensures ok ==> StageHolds(w, key, stage, ino, desired)
      ensures Quiet(host) ==> ok && OnlyGrown(old(w.dir), w.dir, stage, ino)
    {
      var offset := 0;
      ok := true;
      while offset < |desired|
        invariant 0 <= offset <= |desired| && ok
        invariant w.tx == old(w.tx) && w.preimages == old(w.preimages) && w.receipts == old(w.receipts)
        invariant w.losses == old(w.losses)
        invariant old(w.edits) <= w.edits && old(w.writes) <= w.writes
        invariant StageHolds(w, key, stage, ino, desired[..offset])
        invariant Quiet(host) ==> OnlyGrown(old(w.dir), w.dir, stage, ino)
      {
        hide StageHolds, OnlyGrown, WorldGood;
        ghost var before := w;
        ok, offset := WriteSome(key, stage, ino, desired, offset);
        if Quiet(host) { OnlyGrownTwice(old(w.dir), before.dir, w.dir, stage, ino); }
        if !ok { return; }
      }
      assert desired[..offset] == desired;
    }

    /**
     * The last check before publication: the stage is ours and whole, the target is still the baseline
     * (apply.ts:151-157).
     */
    method Recheck(key: Key, path: Name, stage: Name, desired: Bytes, expected: Expected, ino: Ino, plan: Publication)
      returns (ok: bool, checked: nat)
      requires InFlight(w, key, path, stage, desired, expected) && Untouched(w, key) && w.tx[key].staged == Some(ino)
      requires StageHolds(w, key, stage, ino, desired) && (plan == ByLink <==> expected.MustBeAbsent?)
      modifies this
      ensures OthersKept(old(w), w, key) && InFlight(w, key, path, stage, desired, expected) && Untouched(w, key)
      ensures w.tx[key].staged == Some(ino) && StageHolds(w, key, stage, ino, desired)
      ensures ok ==> w.tx[key].publish == Some(plan) && checked <= w.edits
      ensures ok && w.edits == checked ==> Matches(Inspect(w.dir, path), expected)
      ensures Quiet(host) ==> w.dir == old(w.dir)
      ensures Quiet(host) && IsText(desired) && Matches(Inspect(old(w.dir), path), expected) ==>
                ok && w.edits == checked
    {
      hide OthersKept, PreimageIs, Matches, StagesKept, WholeOrNothing, NoEditDestroyed, TruthfulRecords;
      ghost var start := w;
      checked := 0;
      ok := Persist(key, w.tx[key].(phase := Publishing, publish := Some(plan)));
      TxKept(start, w, key, w.tx[key], path, expected);
      if !ok { return; }
      ghost var noted := w;
      Interfere();
      StageStays(noted, w, key, path, stage, desired, expected, ino);
      OthersKeptTwice(start, noted, w, key);
      var ours := Inspect(w.dir, stage);
      if !ours.Present? || ours.ino != ino || Sha256(ours.file.bytes) != w.tx[key].desired { return false, checked; }
      ok, checked := RecheckTarget(key, path, stage, desired, expected, ino);
      OthersKeptTwice(start, noted, w, key);
    }

    /** The target, last of all; outside steps may still follow the check. */
    method RecheckTarget(key: Key, path: Name, stage: Name, desired: Bytes, expected: Expected, ino: Ino)
      returns (ok: bool, checked: nat)
      requires InFlight(w, key, path, stage, desired, expected) && Untouched(w, key) && w.tx[key].staged == Some(ino)
      requires StageHolds(w, key, stage, ino, desired)
      modifies this
      ensures InFlight(w, key, path, stage, desired, expected) && Untouched(w, key) && w.tx == old(w.tx)
      ensures StageHolds(w, key, stage, ino, desired) && checked <= w.edits
      ensures forall before | OthersKept(before, old(w), key) :: OthersKept(before, w, key)
      ensures ok && w.edits == checked ==> Matches(Inspect(w.dir, path), expected)
      ensures Quiet(host) ==> w.dir == old(w.dir)
      ensures Quiet(host) && Matches(Inspect(old(w.dir), path), expected) ==> ok && w.edits == checked
    {
      hide OthersKept, PreimageIs, Matches, StagesKept, WholeOrNothing, NoEditDestroyed, TruthfulRecords, StageHolds;
      ghost var start := w;
      Interfere();
      StageStays(start, w, key, path, stage, desired, expected, ino);
      ghost var current := w;
      checked := w.edits;
      ok := Attempt();
      if ok { ok := Matches(Inspect(w.dir, path), expected); }
      Interfere();
      StageStays(current, w, key, path, stage, desired, expected, ino);
      forall before | OthersKept(before, start, key) ensures OthersKept(before, w, key) {
        OthersKeptTwice(before, start, current, key);
        OthersKeptTwice(before, current, w, key);
      }
    }

    /** link(2) never replaces; both names are then ours and the stage name goes (apply.ts:161-166). */
    method PublishByLink(key: Key, path: Name, stage: Name, desired: Bytes, expected: Expected, ino: Ino)
      returns (ok: bool)
      requires InFlight(w, key, path, stage, desired, expected) && w.tx[key].publish == Some(ByLink)
      requires w.tx[key].staged == Some(ino) && StageHolds(w, key, stage, ino, desired)
      modifies this
      ensures OthersKept(old(w), w, key) && w.tx == old(w.tx) && w.receipts == old(w.receipts)
      ensures w.preimages == old(w.preimages)
      ensures InFlight(w, key, path, stage, desired, expected)
      ensures ok ==> stage !in w.dir.names
      ensures w.edits == old(w.edits) ==> w.losses == old(w.losses)
      ensures Quiet(host) && path !in old(w.dir.names) ==> ok && Moved(old(w.dir), w.dir, path, stage, ino)
    {
      hide OthersKept, PreimageIs, WholeOrNothing, NoEditDestroyed, TruthfulRecords, PlansFit, BothNames, StagesKept;
      ghost var start := w;
      SameInFlight(start, key, path, stage, desired, expected);
      SameRecordsKept(w, w, key);
      if path in w.dir.names { return false; }
      ok := Attempt();
      if !ok { return; }
      LinkOne(key, path, stage, ino);
      LinkedBoth(start, w, key, path, stage, desired, ino);
      var linked := w;
      DirKept(start, w, key);
      Interfere();
      SameRecordsKept(linked, w, key);
      OthersKeptTwice(start, linked, w, key);
      if path !in w.dir.names || w.dir.names[path] != ino || stage !in w.dir.names || w.dir.names[stage] != ino {
        return false;
      }
      StillBoth(linked, w, key, path, stage);
      ghost var last := w;
      ok := DropStage(key, path, stage, linked.edits);
      OthersKeptTwice(start, last, w, key);
    }

    /** unlink(2) of the stage name (apply.ts:166). */
    method DropStage(key: Key, path: Name, stage: Name, linked: nat) returns (ok: bool)
      requires BothNames(w, key, path, stage, linked) && w.tx[key].stage == stage && w.tx[key].phase != Applied
      requires w.tx[key].publish == Some(ByLink) && w.tx[key].staged == Some(w.dir.names[stage])
      modifies this
      ensures OthersKept(old(w), w, key) && w.tx == old(w.tx) && w.receipts == old(w.receipts)
      ensures w.preimages == old(w.preimages)
      ensures ok ==> stage !in w.dir.names
      ensures old(w.edits) <= w.edits
      ensures w.edits == old(w.edits) ==> w.losses == old(w.losses)
      ensures Quiet(host) ==> ok && w.dir == Unlink(old(w.dir), stage)
    {
      hide WorldGood, OneStep, BothNames, Kept, OthersKept;
      var checked := w;
      SameRecordsKept(w, w, key);
      Interfere();
      SameRecordsKept(checked, w, key);
      ok := Attempt();
      if !ok { return; }
      LastOfBoth(checked, w, key, path, stage, linked);
      ghost var before := w;
      UnlinkLinked(key, stage, w.edits - checked.edits, w.edits - linked);
      OthersKeptTwice(checked, before, w, key);
    }

    method UnlinkLinked(key: Key, stage: Name, edits: nat, since: nat)
      requires key in w.tx && w.tx[key].stage == stage && stage in w.dir.names
      requires w.tx[key].publish == Some(ByLink) && w.tx[key].staged == Some(w.dir.names[stage])
      requires SoleName(w.dir, stage) ==>
                 0 < edits <= since
                   && (since >= 2 || Sha256(w.dir.inodes[w.dir.names[stage]].bytes) == w.tx[key].desired)
      modifies this`w
      ensures w == UnlinkStage(old(w), key, edits, since) && OthersKept(old(w), w, key) && stage !in w.dir.names
      ensures edits == 0 ==> w.losses == old(w.losses)
    {
      UnlinkStageKeepsGood(w, key, edits, since);
      w := UnlinkStage(w, key, edits, since);
    }

    method LinkOne(key: Key, path: Name, stage: Name, ino: Ino)
      requires key in w.tx && w.tx[key].stage == stage && stage in w.dir.names && w.dir.names[stage] == ino
      requires path !in w.dir.names
      requires var f := w.dir.inodes[ino]; f.origin == Driver(key) && Sha256(f.bytes) == w.tx[key].desired
      modifies this`w
      ensures w == old(w).(dir := w.dir, writes := old(w.writes) + 1) && w.dir == Link(old(w.dir), stage, path)
    {
      var next := OnDir(w, Link(w.dir, stage, path));
      OnDirKeepsGood(w, next.dir);
      w := next;
    }

    method RenameOne(key: Key, path: Name, stage: Name, desired: Bytes, expected: Expected, ino: Ino, edits: nat)
      requires InFlight(w, key, path, stage, desired, expected) && Untouched(w, key) && expected.MustBe?
      requires w.tx[key].publish == Some(ByRename) && StageHolds(w, key, stage, ino, desired)
      requires edits == 0 ==> Matches(Inspect(w.dir, path), expected)
      modifies this`w
      ensures w == RenameStage(old(w), key, edits) && w.tx == old(w.tx)
      ensures OthersKept(old(w), w, key) && InFlight(w, key, path, stage, desired, expected)
      ensures stage !in w.dir.names && Moved(old(w.dir), w.dir, path, stage, ino)
    {
      RenameStageKeepsGood(w, key, edits);
      RenameKept(w, key, edits, path, stage, desired, expected);
      w := RenameStage(w, key, edits);
    }

    method DropSwappedOut(key: Key, path: Name, stage: Name, desired: Bytes, expected: Expected)
      requires InFlight(w, key, path, stage, desired, expected) && expected.MustBe?
      requires Matches(Inspect(w.dir, stage), expected.(ctime := None))
      modifies this`w
      ensures w == UnlinkStage(old(w), key, 0, 0)
    {
      UnlinkStageKeepsGood(w, key, 0, 0);
      w := UnlinkStage(w, key, 0, 0);
    }

    /** rename(2) over the target, recorded as such before it happens (apply.ts:173-177). */
    method PublishByRename(key: Key, path: Name, stage: Name, desired: Bytes, expected: Expected, ino: Ino,
                           checked: nat) returns (ok: bool)
      requires InFlight(w, key, path, stage, desired, expected) && Untouched(w, key) && expected.MustBe?
      requires w.tx[key].staged == Some(ino) && StageHolds(w, key, stage, ino, desired)
      requires checked <= w.edits && (w.edits == checked ==> Matches(Inspect(w.dir, path), expected))
      modifies this
      ensures OthersKept(old(w), w, key) && InFlight(w, key, path, stage, desired, expected)
      ensures w.tx[key].staged == Some(ino)
      ensures ok ==> stage !in w.dir.names && w.tx[key].publish == Some(ByRename)
      ensures Quiet(host) ==> ok && Moved(old(w.dir), w.dir, path, stage, ino)
    {
      hide OthersKept, WorldGood, Matches, InFlight, StageHolds, Kept, Untouched, ValidDir;
      ghost var start := w;
      ok := Note(key, path, stage, desired, expected, Publishing, Some(ByRename), Some(ino));
      if !ok { return; }
      ghost var noted := w;
      Pause(key, path, stage, desired, expected);
      OthersKeptTwice(start, noted, w, key);
      ok := Attempt();
      if !ok { return; }
      ghost var before := w;
      HoldsKept(start, w, key, stage, ino, desired);
      RenameOne(key, path, stage, desired, expected, ino, w.edits - checked);
      OthersKeptTwice(start, before, w, key);
      ghost var renamed := w;
      Pause(key, path, stage, desired, expected);
      OthersKeptTwice(start, renamed, w, key);
      if stage in w.dir.names { return false; }
    }

    /** The swap; without outside steps before it, dropping the stage name then completes the publication. */
    method ExchangeOne(key: Key, path: Name, stage: Name, desired: Bytes, expected: Expected, ino: Ino)
      requires InFlight(w, key, path, stage, desired, expected) && path in w.dir.names && expected.MustBe?
      requires StageHolds(w, key, stage, ino, desired)
      modifies this`w
      ensures OthersKept(old(w), w, key) && InFlight(w, key, path, stage, desired, expected)
      ensures Untouched(old(w), key) ==> Untouched(w, key)
      ensures w == old(w).(dir := w.dir, writes := old(w.writes) + 1) && w.dir == Exchange(old(w.dir), stage, path)
      ensures path in w.dir.names && w.dir.names[path] == ino && stage in w.dir.names && w.dir.names[stage] != ino
      ensures Matches(Inspect(old(w.dir), path), expected) ==>
                Matches(Inspect(w.dir, stage), expected.(ctime := None))
                  && Moved(old(w.dir), Unlink(w.dir, stage), path, stage, ino)
    {
      hide OthersKept;
      DirKept(w, OnDir(w, Exchange(w.dir, stage, path)), key);
      var next := OnDir(w, Exchange(w.dir, stage, path));
      SwapLeaves(w.dir, next.dir, path, stage, expected, ino);
      OnDirKeepsGood(w, next.dir);
      w := next;
      hide WorldGood;
    }

    /** After a confirmed swap: drop the swapped-out file only if it is the baseline (apply.ts:178-186). */
    method SettleSwap(key: Key, path: Name, stage: Name, desired: Bytes, expected: Expected) returns (ok: bool)
      requires InFlight(w, key, path, stage, desired, expected) && expected.MustBe?
      modifies this
      ensures OthersKept(old(w), w, key) && InFlight(w, key, path, stage, desired, expected) && w.tx == old(w.tx)
      ensures ok ==> stage !in w.dir.names
      ensures Quiet(host) && Matches(Inspect(old(w.dir), stage), expected.(ctime := None)) ==>
                ok && w.dir == Unlink(old(w.dir), stage)
    {
      Interfere();
      if !Matches(Inspect(w.dir, stage), expected.(ctime := None)) { return false; }
      Interfere();
      ok := Attempt();
      if !ok { return; }
      DropSwappedOut(key, path, stage, desired, expected);
    }

    /** No swap happened: rename after one more check that neither name moved (apply.ts:170-177). */
    method FallBack(key: Key, path: Name, stage: Name, desired: Bytes, expected: Expected, ino: Ino) returns (ok: bool)
      requires InFlight(w, key, path, stage, desired, expected) && Untouched(w, key) && expected.MustBe?
      requires w.tx[key].staged == Some(ino)
      requires stage in w.dir.names && w.dir.names[stage] == ino ==> StageHolds(w, key, stage, ino, desired)
      modifies this
      ensures OthersKept(old(w), w, key) && InFlight(w, key, path, stage, desired, expected)
      ensures w.tx[key].staged == Some(ino)
      ensures ok ==> stage !in w.dir.names && w.tx[key].publish == Some(ByRename)
      ensures Quiet(host) && StageHolds(old(w), key, stage, ino, desired)
              && Matches(Inspect(old(w.dir), path), expected) ==>
                ok && Moved(old(w.dir), w.dir, path, stage, ino)
    {
      hide OthersKept, WorldGood, Matches, InFlight, StageHolds, Kept, Untouched, ValidDir, Moved;
      ghost var start := w;
      Pause(key, path, stage, desired, expected);
      HoldsKept(start, w, key, stage, ino, desired);
      ghost var before := w;
      if stage !in w.dir.names || w.dir.names[stage] != ino { return false; }
      Pause(key, path, stage, desired, expected);
      HoldsKept(before, w, key, stage, ino, desired);
      OthersKeptTwice(start, before, w, key);
      before := w;
      if !Matches(Inspect(w.dir, path), expected) { return false; }
      var checked := w.edits;
      Pause(key, path, stage, desired, expected);
      HoldsKept(before, w, key, stage, ino, desired);
      OthersKeptTwice(start, before, w, key);
      before := w;
      ok := PublishByRename(key, path, stage, desired, expected, ino, checked);
      OthersKeptTwice(start, before, w, key);
    }

    /** Swap the names if the host can; fall back to rename only if nothing moved (apply.ts:167-187). */
    method PublishByExchange(key: Key, path: Name, stage: Name, desired: Bytes, expected: Expected, ino: Ino)
      returns (ok: bool, publish: Publication)
      requires InFlight(w, key, path, stage, desired, expected) && Untouched(w, key) && expected.MustBe?
      requires w.tx[key].staged == Some(ino) && StageHolds(w, key, stage, ino, desired)
      requires w.tx[key].publish == Some(ByExchange)
      modifies this
      ensures OthersKept(old(w), w, key) && InFlight(w, key, path, stage, desired, expected)
      ensures w.tx[key].staged == Some(ino)
      ensures ok ==> stage !in w.dir.names && w.tx[key].publish == Some(publish)
      ensures Quiet(host) && Matches(Inspect(old(w.dir), path), expected) ==>
                ok && Moved(old(w.dir), w.dir, path, stage, ino)
    {
      hide OthersKept, WorldGood, Matches, InFlight, StageHolds, Kept, Untouched, ValidDir, Moved;
      ghost var start := w;
      ok := Attempt();
      if ok && path in w.dir.names { ExchangeOne(key, path, stage, desired, expected, ino); }
      ghost var before := w;
      Pause(key, path, stage, desired, expected);
      OthersKeptTwice(start, before, w, key);
      HoldsKept(before, w, key, stage, ino, desired);
      before := w;
      if path in w.dir.names && w.dir.names[path] == ino {
        publish := ByExchange;
        ok := SettleSwap(key, path, stage, desired, expected);
      } else {
        publish := ByRename;
        ok := FallBack(key, path, stage, desired, expected, ino);
      }
      OthersKeptTwice(start, before, w, key);
    }

    /** The published name must hold the staged file with the desired content (apply.ts:188-192). */
    method Verify(key: Key, path: Name, ino: Ino, desired: Bytes) returns (ok: bool, mtime: nat)
      requires key in w.tx && w.tx[key].desired == Sha256(desired)
      modifies this
      ensures SameRecords(old(w), w) && StagesKept(old(w), w) && old(w.edits) <= w.edits
      ensures ok ==>
                && ino in w.dir.inodes && Inspect(w.dir, path) == Present(ino, w.dir.inodes[ino])
                && w.dir.inodes[ino].bytes == desired && w.dir.inodes[ino].mtime == mtime
      ensures Quiet(host) ==> w == old(w)
      ensures var t := Inspect(old(w.dir), path);
              Quiet(host) && t.Present? && t.ino == ino && t.file.bytes == desired ==>
                ok && mtime == old(w.dir).inodes[ino].mtime
    {
      Interfere();
      var final := Inspect(w.dir, path);
      if !final.Present? || final.ino != ino || Sha256(final.file.bytes) != w.tx[key].desired { return false, 0; }
      mtime := final.file.mtime;
      ok := Attempt();
    }

    method WriteReceipt(key: Key, receipt: Receipt)
      requires key in w.tx && w.tx[key].phase != Applied
      modifies this`w
      ensures w == SetReceipt(old(w), key, receipt)
    {
      SetReceiptKeepsGood(w, key, receipt);
      w := SetReceipt(w, key, receipt);
    }

    /** Make the outcome and then the receipt durable; only then is the transaction `applied` (apply.ts:194-200). */
    method Record(key: Key, path: Name, stage: Name, desired: Bytes, expected: Expected, ino: Ino,
                  publish: Publication, mtime: nat)
      returns (r: Option<Receipt>)
      requires InFlight(w, key, path, stage, desired, expected) && w.tx[key].staged == Some(ino)
      requires w.tx[key].publish == Some(publish)
      requires stage !in w.dir.names
      modifies this
      ensures OthersKept(old(w), w, key) && key in w.tx && (r.Some? <==> w.tx[key].phase == Applied)
      ensures r.Some? ==>
                r.value == Receipt(path, |desired|, Sha256(desired), publish, ino, mtime)
                  && PreimageIs(w, key, path, expected)
      ensures r.Some? ==> key in w.receipts && w.receipts[key] == r.value
      ensures Quiet(host) ==> w.dir == old(w.dir) && r.Some?
    {
      hide OthersKept, PreimageIs, WholeOrNothing, NoEditDestroyed, StagesKept, TruthfulRecords;
      r := None;
      ghost var start := w;
      var ok := Note(key, path, stage, desired, expected, Published, Some(publish), Some(ino));
      if !ok { return; }
      ghost var noted := w;
      Pause(key, path, stage, desired, expected);
      OthersKeptTwice(start, noted, w, key);
      ok := Attempt();
      if !ok { return; }
      ghost var before := w;
      var receipt := Receipt(path, |desired|, Sha256(desired), publish, ino, mtime);
      WriteReceipt(key, receipt);
      ghost var sealed := w;
      ReceiptKept(before, key, receipt, path, expected);
      OthersKeptTwice(start, before, w, key);
      Interfere();
      OnlyOutside(sealed, w, key, path, stage, expected);
      OthersKeptTwice(start, sealed, w, key);
      ghost var last := w;
      ok := Persist(key, w.tx[key].(phase := Applied));
      TxKept(last, w, key, w.tx[key], path, expected);
      OthersKeptTwice(start, last, w, key);
      if ok { r := Some(receipt); }
    }

    method StageFile(key: Key, path: Name, stage: Name, desired: Bytes, expected: Expected, mode: nat)
      returns (ok: bool, ino: Ino)
      requires InFlight(w, key, path, stage, desired, expected) && Untouched(w, key)
      modifies this
      ensures OthersKept(old(w), w, key) && InFlight(w, key, path, stage, desired, expected) && Untouched(w, key)
      ensures ok ==> w.tx[key].staged == Some(ino) && StageHolds(w, key, stage, ino, desired)
      ensures Quiet(host) && stage !in old(w.dir.names) ==>
                ok && OnlyNameChanged(old(w.dir), w.dir, stage) && w.dir.inodes[ino].mode == mode
                  && w.dir.inodes[ino].uid == uid
                && WrittenBetween(old(w.dir), w.dir, ino)
    {
      ok, ino := CreateStage(key, path, stage, desired, expected, mode);
      if !ok { return; }
      ghost var created := w.dir;
      ok := WriteAll(key, path, stage, desired, expected, ino);
      if Quiet(host) && stage !in old(w.dir.names) { OnlyNameChangedTwice(old(w.dir), created, w.dir, stage); }
    }

    /** Publish by the planned means (apply.ts:151-187). */
    method Publish(key: Key, path: Name, stage: Name, desired: Bytes, expected: Expected, ino: Ino)
      returns (ok: bool, publish: Publication)
      requires InFlight(w, key, path, stage, desired, expected) && Untouched(w, key) && w.tx[key].staged == Some(ino)
      requires StageHolds(w, key, stage, ino, desired)
      modifies this
      ensures OthersKept(old(w), w, key) && InFlight(w, key, path, stage, desired, expected)
      ensures w.tx[key].staged == Some(ino)
      ensures ok ==> stage !in w.dir.names && w.tx[key].publish == Some(publish)
      ensures Quiet(host) && IsText(desired) && Matches(Inspect(old(w.dir), path), expected) ==>
                ok && Moved(old(w.dir), w.dir, path, stage, ino)
    {
      hide OthersKept, WorldGood, InFlight, StageHolds, Moved, IsText, Untouched;
      publish := if expected.MustBeAbsent? then ByLink else if host.exchanges then ByExchange else ByRename;
      var checked;
      ok, checked := Recheck(key, path, stage, desired, expected, ino, publish);
      if !ok { return; }
      ghost var checkedState := w;
      if publish == ByLink {
        ok := PublishByLink(key, path, stage, desired, expected, ino);
      } else if publish == ByExchange {
        ok, publish := PublishByExchange(key, path, stage, desired, expected, ino);
      } else {
        ok := PublishByRename(key, path, stage, desired, expected, ino, checked);
      }
      OthersKeptTwice(old(w), checkedState, w, key);
    }

    /** Everything between the durable intent and the receipt. */
    method Carry(key: Key, path: Name, stage: Name, desired: Bytes, expected: Expected, mode: nat)
      returns (r: Option<Receipt>)
      requires InFlight(w, key, path, stage, desired, expected) && Untouched(w, key)
      modifies this
      ensures OthersKept(old(w), w, key) && key in w.tx && (r.Some? <==> w.tx[key].phase == Applied)
      ensures r.Some? ==> r.value.path == path && r.value.size == |desired| && r.value.desired == Sha256(desired)
      ensures r.Some? ==> PreimageIs(w, key, path, expected)
      ensures r.Some? ==> key in w.receipts && w.receipts[key] == r.value
      ensures Quiet(host) && stage !in old(w.dir.names) && IsText(desired)
              && Matches(Inspect(old(w.dir), path), expected) ==>
                r.Some? && Placed(old(w.dir), w.dir, path, desired, mode, uid, r.value)
    {
      hide OthersKept, StageHolds, Moved, Placed, OnlyNameChanged, WrittenBetween, PreimageIs, WholeOrNothing,
        TruthfulRecords, NoEditDestroyed, IsText, Matches, Kept, StagesKept;
      ghost var quiet := Quiet(host) && stage !in w.dir.names && IsText(desired)
        && Matches(Inspect(w.dir, path), expected);
      r := None;
      var ok, ino := StageFile(key, path, stage, desired, expected, mode);
      if !ok { return; }
      ghost var staged := w;
      if quiet { InspectElsewhere(old(w.dir), w.dir, path, stage) by { AloneUnderStage(w, key, stage, ino, desired); } }
      var publish;
      ok, publish := Publish(key, path, stage, desired, expected, ino);
      OthersKeptTwice(old(w), staged, w, key);
      if !ok { return; }
      ghost var published := w;
      if quiet {
        AloneUnderStage(staged, key, stage, ino, desired);
        MovedIsPlaced(old(w.dir), staged.dir, w.dir, path, stage, ino, desired);
      }
      var mtime;
      ok, mtime := Verify(key, path, ino, desired);
      StillInFlight(published, w, key, path, stage, desired, expected);
      OthersKeptTwice(old(w), published, w, key);
      if !ok { return; }
      ghost var verified := w;
      r := Record(key, path, stage, desired, expected, ino, publish, mtime);
      OthersKeptTwice(old(w), verified, w, key);
      if quiet { PlacedIs(old(w.dir), w.dir, path, ino, desired, mode, uid, r.value); }
    }

    /**
     * Any error after the intent marks the record `uncertain`; a crash, or a failing write, leaves the phase it had
     * (apply.ts:201-205).
     */
    method GiveUp(key: Key)
      requires key in w.tx && w.tx[key].phase != Applied
      modifies this
      ensures OthersKept(old(w), w, key) && key in w.tx && w.tx[key].phase != Applied && w.dir == old(w.dir)
    {
      var _ := Persist(key, w.tx[key].(phase := Uncertain));
    }

    /**
     * Replace or create one file (apply.ts:114-206). The stage name is random, hence unused. Every return covers both
     * the thrown error and the crash at any point: `host` decides which steps go through.
     */
    method Run(key: Key, path: Name, desired: Bytes, expected: Expected, stage: Name) returns (r: Option<Receipt>)
      requires Settled(w) && stage !in w.dir.names && stage != path
      modifies this
      ensures OthersKept(old(w), w, key)
      // A receipt is returned exactly when this very call took the transaction from nothing to `applied`.
      ensures r.Some? ==> key !in old(w.tx) && key !in old(w.receipts) && Settled(w) && key in w.tx
      ensures r.Some? ==> key in w.receipts && w.receipts[key] == r.value
      ensures r.Some? ==> r.value.path == path && r.value.size == |desired| && r.value.desired == Sha256(desired)
      ensures r.Some? ==> PreimageIs(w, key, path, expected)
      // Otherwise nothing was started, or the transaction now blocks the resource.
      ensures r.None? && Settled(w) ==>
                w.tx == old(w.tx) && w.receipts == old(w.receipts) && w.writes == old(w.writes)
                  && w.losses == old(w.losses)
      ensures key in old(w.tx) || key in old(w.receipts) ==> r.None? && w == old(w)
      // Without interference and faults it succeeds exactly when the target is the expected, replaceable file.
      ensures Quiet(host) && key !in old(w.tx) && key !in old(w.receipts) && IsText(desired) ==>
                (r.Some? <==> Replaceable(Inspect(old(w.dir), path), expected, uid))
      ensures Quiet(host) && r.Some? && IsText(desired) ==> Replaced(old(w.dir), w.dir, path, desired, uid, r.value)
      ensures Quiet(host) && r.None? && Settled(w) ==> w.dir == old(w.dir)
      ensures Quiet(host) && key !in old(w.tx) && key !in old(w.receipts) && IsText(desired) && r.None? ==> Settled(w)
    {
      ghost var start := w;
      r := None;
      SameRecordsKept(start, start, key);
      if key in w.tx || key in w.receipts { return; }
      hide OthersKept, WorldGood, InFlight, OthersApplied, Untouched, PreimageIs, Inspect, Matches, IsText, Placed,
        Replaced;
      var ok, current := Begin(key, path, desired, expected, stage);
      if !ok { return; }
      ghost var begun := w;
      AloneInFlight(w, key, path, stage, desired, expected);
      ReplaceableMatches(current, expected, uid);
      var mode := if current.Present? then current.file.mode % 512 else host.umask(tick) % 512;
      r := Carry(key, path, stage, desired, expected, mode);
      OthersKeptTwice(start, begun, w, key);
      if r.None? {
        var alive := host.succeeds(tick);
        ghost var last := w;
        if alive {
          GiveUp(key);
          OthersKeptTwice(start, last, w, key);
          OthersKeptTwice(begun, last, w, key);
        }
      } else if Quiet(host) && IsText(desired) {
        PlacedIsReplaced(start.dir, w.dir, path, desired, mode, uid, expected, r.value);
      }
      OnlySettledLeft(begun, w, key);
    }

    /**
     * The two calls every effect makes: refuse over an unfinished transaction, then run (directory.ts:80-83, 88-90).
     */
    method Effect(c: Call) returns (r: Option<Receipt>)
      requires c.stage !in w.dir.names && c.stage != c.path
      modifies this
      ensures !Settled(old(w)) ==> r.None? && w == old(w)
      ensures old(w.writes) <= w.writes
    {
      var settled := AssertSettled();
      if !settled { return None; }
      r := Run(c.key, c.path, c.desired, c.expected, c.stage);
    }

    /**
     * Any number of later effects, outside edits and restarts (a restart finds `w` and nothing else). Over an
     * unfinished transaction the driver never again changes the directory, the journal, or what it has destroyed.
     */
    method Lifetimes(calls: seq<Call>)
      modifies this
      ensures !Settled(old(w)) ==> SameRecords(old(w), w)
    {
      for i := 0 to |calls|
        invariant !Settled(old(w)) ==> SameRecords(old(w), w)
      {
        Interfere();
        // Random stage names are fresh.
        if calls[i].stage !in w.dir.names && calls[i].stage != calls[i].path {
          var _ := Effect(calls[i]);
        }
      }
    }
  }
}
