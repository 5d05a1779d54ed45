/**
 * The durable state of one granted directory and its private journal, and the invariant every step keeps (apply.ts).
 */
module TransactionWorld {
  import opened Wrappers
  import opened FileSystem

  datatype Phase = Intent | Staged | Publishing | Published | Applied | Uncertain
  datatype Publication = ByLink | ByExchange | ByRename

  /** The durable journal record of one transaction. */
  datatype TxRecord = TxRecord(path: Name, stage: Name, phase: Phase, expected: Expected, size: nat, desired: Digest,
                               staged: Option<Ino>, publish: Option<Publication>)

  datatype Saved = Saved(bytes: Bytes, mode: nat, ino: Ino)
  /** The recorded preimage; `None` is recorded absence. */
  datatype Preimage = Preimage(path: Name, content: Option<Saved>)
  datatype Receipt = Receipt(path: Name, size: nat, desired: Digest, publish: Publication, ino: Ino, mtime: nat)

  datatype Manner = Unlinked | Overwritten
  /**
   * History: a driver syscall took away the last name of a file. `edits` counts the outside steps between
   * the last check of the target and that syscall, `since` those after link(2) where a link was made.
   */
  datatype Loss = Loss(key: Key, ino: Ino, bytes: Bytes, how: Manner, edits: nat, since: nat)

  /** Durable state, plus three histories: files destroyed, outside steps, driver syscalls on the granted directory. */
  datatype World = World(dir: Dir, tx: map<Key, TxRecord>, preimages: map<Key, Preimage>, receipts: map<Key, Receipt>,
                         losses: seq<Loss>, edits: nat, writes: nat)

  /** The replaced file, kept byte for byte in the durable preimage of the transaction that removed it. */
  predicate PreimageLoss(w: World, l: Loss)
    requires l.key in w.preimages
  {
    var saved := w.preimages[l.key].content;
    saved.Some? && saved.value.bytes == l.bytes && saved.value.ino == l.ino
  }

  /** The documented window: the record says `rename`, and an outside step fell between the last check and rename(2). */
  predicate RenameWindowLoss(w: World, l: Loss)
    requires l.key in w.tx
  {
    l.how == Overwritten && w.tx[l.key].publish == Some(ByRename) && l.edits > 0
  }

  /**
   * The driver's own new file, in link mode: since the last check an outside step took the target name from it. Other
   * bytes than the driver's are lost only when a further outside step wrote them after link(2).
   */
  predicate OwnFileLoss(w: World, l: Loss)
    requires l.key in w.tx
  {
    && l.how == Unlinked && w.tx[l.key].publish == Some(ByLink) && w.tx[l.key].staged == Some(l.ino)
    && 0 < l.edits <= l.since && (Sha256(l.bytes) == w.tx[l.key].desired || l.since >= 2)
  }

  predicate LossAllowed(w: World, l: Loss) {
    l.key in w.tx && l.key in w.preimages && (PreimageLoss(w, l) || RenameWindowLoss(w, l) || OwnFileLoss(w, l))
  }

  predicate NoEditDestroyed(w: World) {
    forall l | l in w.losses :: LossAllowed(w, l)
  }

  /** A file written only by the driver is complete under every name except the stage of its unfinished transaction. */
  predicate WholeOrNothing(w: World) {
    forall n | n in w.dir.names && w.dir.names[n] in w.dir.inodes ::
      var f := w.dir.inodes[w.dir.names[n]];
      f.origin.Driver? ==>
        f.origin.key in w.tx &&
        var r := w.tx[f.origin.key];
        (n == r.stage && r.phase != Applied) || Sha256(f.bytes) == r.desired
  }

  predicate TruthfulAt(w: World, k: Key)
    requires k in w.tx
  {
    && k in w.receipts && k in w.preimages
    && w.receipts[k].path == w.tx[k].path == w.preimages[k].path
    && w.receipts[k].desired == w.tx[k].desired && w.receipts[k].size == w.tx[k].size
    && w.tx[k].publish == Some(w.receipts[k].publish)
    && w.tx[k].staged == Some(w.receipts[k].ino)
  }

  predicate TruthfulRecords(w: World) {
    forall k | k in w.tx && w.tx[k].phase == Applied :: TruthfulAt(w, k)
  }

  /** link(2) is for creations, exchange and rename for replacements (apply.ts:151). */
  predicate PlanFits(r: TxRecord) {
    r.publish.Some? ==> (r.publish.value == ByLink <==> r.expected.MustBeAbsent?)
  }

  predicate PlansFit(w: World) {
    forall k | k in w.tx :: PlanFits(w.tx[k])
  }

  predicate WorldGood(w: World) {
    && ValidDir(w.dir) && w.tx.Keys <= w.preimages.Keys && NoEditDestroyed(w) && WholeOrNothing(w) && TruthfulRecords(w)
    && PlansFit(w)
  }

  const EMPTY_WORLD := World(Dir(map[], map[], 0), map[], map[], map[], [], 0, 0)

  type GoodWorld = w: World | WorldGood(w) witness EMPTY_WORLD

  /** No started transaction is short of `applied` (apply.ts:77-85). */
  predicate Settled(w: World) {
    forall k | k in w.tx :: w.tx[k].phase == Applied
  }

  predicate Untouched(w: World, key: Key) {
    forall l | l in w.losses :: l.key != key
  }

  // ---- outside writers -------------------------------------------------------------------------

  /** The stage name of an unfinished transaction is left alone by outside writers. */
  predicate Reserved(w: World, n: Name) {
    exists k | k in w.tx :: w.tx[k].phase != Applied && w.tx[k].stage == n
  }

  predicate OutsideStep(w: World, w': World, n: Name) {
    !Reserved(w, n) && OutsideEdit(w.dir, w'.dir, n) && w' == w.(dir := w'.dir, edits := w.edits + 1)
  }

  predicate SameRecords(w: World, w': World) {
    w'.tx == w.tx && w'.preimages == w.preimages && w'.receipts == w.receipts && w'.losses == w.losses
      && w'.writes == w.writes
  }

  predicate Kept(d: Dir, d': Dir, s: Name)
    requires ValidDir(d)
  {
    && ValidDir(d')
    && (s in d.names <==> s in d'.names)
    && (s in d.names ==> d'.names[s] == d.names[s])
    && (forall m | m in d'.names && s in d.names && d'.names[m] == d.names[s] ::
          m in d.names && d.names[m] == d.names[s])
    && (SoleName(d, s) ==> SoleName(d', s) && d'.inodes[d'.names[s]] == d.inodes[d.names[s]])
  }

  predicate StagesKept(w: World, w': World)
    requires ValidDir(w.dir)
  {
    forall k | k in w.tx && w.tx[k].phase != Applied :: Kept(w.dir, w'.dir, w.tx[k].stage)
  }

  lemma OutsideKeepsDir(w: World, w': World, n: Name)
    requires ValidDir(w.dir) && WholeOrNothing(w) && OutsideStep(w, w', n)
    ensures ValidDir(w'.dir) && WholeOrNothing(w')
  {
    forall m | m in w'.dir.names
      ensures w'.dir.names[m] in w'.dir.inodes
      ensures w'.dir.inodes[w'.dir.names[m]].origin == Outside
           || (m in w.dir.names && w.dir.names[m] == w'.dir.names[m]
              && w.dir.inodes[w.dir.names[m]] == w'.dir.inodes[w'.dir.names[m]])
    {
    }
  }

  lemma OutsideKeepsStage(d: Dir, d': Dir, n: Name, s: Name)
    requires ValidDir(d) && ValidDir(d') && OutsideEdit(d, d', n) && s != n
    ensures Kept(d, d', s)
  {
  }

  lemma OutsideKeepsGood(w: World, w': World, n: Name)
    requires WorldGood(w) && OutsideStep(w, w', n)
    ensures WorldGood(w') && StagesKept(w, w')
  {
    OutsideKeepsDir(w, w', n);
    forall k | k in w.tx && w.tx[k].phase != Applied ensures Kept(w.dir, w'.dir, w.tx[k].stage) {
      OutsideKeepsStage(w.dir, w'.dir, n, w.tx[k].stage);
    }
    hide WholeOrNothing, OutsideEdit, Kept;
    assert NoEditDestroyed(w') by {
      forall l | l in w'.losses ensures LossAllowed(w', l) { assert LossAllowed(w, l); }
    }
    forall k | k in w'.tx && w'.tx[k].phase == Applied ensures TruthfulAt(w', k) { assert TruthfulAt(w, k); }
  }

  // ---- steps of the driver ---------------------------------------------------------------------

  function SetTx(w: World, key: Key, r: TxRecord): World {
    w.(tx := w.tx[key := r])
  }

  function SetPreimage(w: World, key: Key, p: Preimage): World {
    w.(preimages := w.preimages[key := p])
  }

  function SetReceipt(w: World, key: Key, r: Receipt): World {
    w.(receipts := w.receipts[key := r])
  }

  function OnDir(w: World, d: Dir): World {
    w.(dir := d, writes := w.writes + 1)
  }

  /** unlink(2) of the stage name, `edits` outside steps after the last check and `since` after the link. */
  function UnlinkStage(w: World, key: Key, edits: nat, since: nat): World
    requires ValidDir(w.dir) && key in w.tx && w.tx[key].stage in w.dir.names
  {
    var s := w.tx[key].stage;
    var ino := w.dir.names[s];
    OnDir(w, Unlink(w.dir, s)).(losses :=
      w.losses + if SoleName(w.dir, s) then [Loss(key, ino, w.dir.inodes[ino].bytes, Unlinked, edits, since)] else [])
  }

  function RenameLoss(w: World, key: Key, edits: nat): Loss
    requires ValidDir(w.dir) && key in w.tx && w.tx[key].path in w.dir.names
  {
    var ino := w.dir.names[w.tx[key].path];
    Loss(key, ino, w.dir.inodes[ino].bytes, Overwritten, edits, edits)
  }

  /** rename(2) of the stage over the target; `edits` outside steps happened since the target was last checked. */
  function RenameStage(w: World, key: Key, edits: nat): World
    requires ValidDir(w.dir) && key in w.tx && w.tx[key].stage in w.dir.names && w.tx[key].stage != w.tx[key].path
  {
    var s, p := w.tx[key].stage, w.tx[key].path;
    OnDir(w, Rename(w.dir, s, p)).(losses :=
      w.losses + if SoleName(w.dir, p) then [RenameLoss(w, key, edits)] else [])
  }

  lemma SetPreimageKeepsGood(w: World, key: Key, p: Preimage)
    requires WorldGood(w) && key !in w.tx
    ensures WorldGood(SetPreimage(w, key, p))
  {
    var w' := SetPreimage(w, key, p);
    forall k | k in w'.tx && w'.tx[k].phase == Applied ensures TruthfulAt(w', k) { assert TruthfulAt(w, k); }
  }

  lemma SetReceiptKeepsGood(w: World, key: Key, r: Receipt)
    requires WorldGood(w) && key in w.tx && w.tx[key].phase != Applied
    ensures WorldGood(SetReceipt(w, key, r))
  {
    var w' := SetReceipt(w, key, r);
    forall k | k in w'.tx && w'.tx[k].phase == Applied ensures TruthfulAt(w', k) { assert TruthfulAt(w, k); }
  }

  /** Rewriting one record keeps everything, as long as it stays truthful about what was already lost or staged. */
  lemma SetTxKeepsGood(w: World, key: Key, r: TxRecord)
    requires WorldGood(w) && key in w.preimages
    requires key in w.tx ==> w.tx[key].phase != Applied && r.stage == w.tx[key].stage && r.desired == w.tx[key].desired
    requires Untouched(w, key) || (key in w.tx && r.publish == w.tx[key].publish && r.staged == w.tx[key].staged)
    requires r.phase == Applied ==> r.stage !in w.dir.names && TruthfulAt(SetTx(w, key, r), key)
    requires PlanFits(r)
    ensures WorldGood(SetTx(w, key, r))
  {
    var w' := SetTx(w, key, r);
    forall k | k in w'.tx && w'.tx[k].phase == Applied ensures TruthfulAt(w', k) {
      if k != key { assert TruthfulAt(w, k); }
    }
    forall l | l in w'.losses
      ensures LossAllowed(w', l)
    {
      assert LossAllowed(w, l);
    }
  }

  /** A syscall that loses nothing and leaves every driver-written file whole under its names. */
  lemma OnDirKeepsGood(w: World, d: Dir)
    requires WorldGood(w) && ValidDir(d) && WholeOrNothing(OnDir(w, d))
    ensures WorldGood(OnDir(w, d))
  {
    var w' := OnDir(w, d);
    forall k | k in w'.tx && w'.tx[k].phase == Applied ensures TruthfulAt(w', k) { assert TruthfulAt(w, k); }
    forall l | l in w'.losses
      ensures LossAllowed(w', l)
    {
      assert LossAllowed(w, l);
    }
  }

  lemma LossKeepsGood(w: World, l: Loss)
    requires WorldGood(w) && LossAllowed(w, l)
    ensures WorldGood(w.(losses := w.losses + [l]))
  {
    var w' := w.(losses := w.losses + [l]);
    forall k | k in w'.tx && w'.tx[k].phase == Applied ensures TruthfulAt(w', k) { assert TruthfulAt(w, k); }
    forall x | x in w'.losses ensures LossAllowed(w', x) {
      assert x in w.losses ==> LossAllowed(w, x);
      assert LossAllowed(w, l);
    }
  }

  lemma UnlinkStageKeepsGood(w: World, key: Key, edits: nat, since: nat)
    requires WorldGood(w) && key in w.tx && w.tx[key].stage in w.dir.names
    requires SoleName(w.dir, w.tx[key].stage) ==>
               var ino := w.dir.names[w.tx[key].stage];
               LossAllowed(w, Loss(key, ino, w.dir.inodes[ino].bytes, Unlinked, edits, since))
    ensures WorldGood(UnlinkStage(w, key, edits, since))
  {
    var s := w.tx[key].stage;
    var w1 := OnDir(w, Unlink(w.dir, s));
    OnDirKeepsGood(w, w1.dir);
    if SoleName(w.dir, s) {
      var l := Loss(key, w.dir.names[s], w.dir.inodes[w.dir.names[s]].bytes, Unlinked, edits, since);
      assert LossAllowed(w, l) && LossAllowed(w1, l);
      LossKeepsGood(w1, l);
      assert UnlinkStage(w, key, edits, since) == w1.(losses := w1.losses + [l]);
    } else {
      assert w.losses + [] == w.losses;
      assert UnlinkStage(w, key, edits, since) == w1;
    }
  }

  lemma RenameStageKeepsGood(w: World, key: Key, edits: nat)
    requires WorldGood(w) && key in w.tx && w.tx[key].stage in w.dir.names && w.tx[key].stage != w.tx[key].path
    requires Sha256(w.dir.inodes[w.dir.names[w.tx[key].stage]].bytes) == w.tx[key].desired
    requires w.dir.inodes[w.dir.names[w.tx[key].stage]].origin == Driver(key)
    requires SoleName(w.dir, w.tx[key].path) ==> LossAllowed(w, RenameLoss(w, key, edits))
    ensures WorldGood(RenameStage(w, key, edits))
  {
    var s, p := w.tx[key].stage, w.tx[key].path;
    var w1 := OnDir(w, Rename(w.dir, s, p));
    OnDirKeepsGood(w, w1.dir);
    if SoleName(w.dir, p) {
      var l := RenameLoss(w, key, edits);
      assert LossAllowed(w, l) && LossAllowed(w1, l);
      LossKeepsGood(w1, l);
      assert RenameStage(w, key, edits) == w1.(losses := w1.losses + [l]);
    } else {
      assert w.losses + [] == w.losses;
      assert RenameStage(w, key, edits) == w1;
    }
  }
}
