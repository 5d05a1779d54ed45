/**
 * Queued writes on one granted directory: what the overlay shows, and when applying them makes it true (directory.ts).
 */
module DirectoryQueue {
  import opened Wrappers
  import opened FileSystem
  import opened TransactionWorld
  import opened Transactions
  import K = KitJournal

  /**
   * A queued write: its baseline, the pending write it was queued on top of, and whether its description offers a
   * revert.
   */
  datatype Effect = Effect(path: Name, content: Bytes, baseline: Stamp, after: Option<nat>, implementsRevert: bool)

  /** The resource between two operations: its directory, receipts, journal statuses, effect files and id sequence. */
  datatype Resource = Resource(dir: Dir, receipts: map<Key, Receipt>, status: map<nat, K.Status>,
                               effects: map<nat, Effect>, next: nat)

  predicate Queued(r: Resource, id: nat) {
    id in r.status && r.status[id] == K.Pending && id in r.effects
  }

  predicate QueuedOn(r: Resource, id: nat, path: Name) {
    Queued(r, id) && r.effects[id].path == path
  }

  /** The newest pending write on `path` below `n`. */
  function NewestBelow(r: Resource, path: Name, n: nat): (newest: Option<nat>)
    ensures newest.Some? ==> QueuedOn(r, newest.value, path) && newest.value < n
    ensures forall id: nat | id < n && QueuedOn(r, id, path) :: newest.Some? && id <= newest.value
  {
    if n == 0 then None else if QueuedOn(r, n - 1, path) then Some(n - 1) else NewestBelow(r, path, n - 1)
  }

  function Newest(r: Resource, path: Name): Option<nat> {
    NewestBelow(r, path, r.next)
  }

  // ---- what a session sees ---------------------------------------------------------------------

  /** A confined read, through the overlay; None is a denial (directory.ts:184-189). */
  function ReadView(r: Resource, path: Name): Option<Bytes>
    requires ValidDir(r.dir)
  {
    match Inspect(r.dir, path)
    case Refused => None
    case Absent => (match Newest(r, path) case None => None case Some(id) => Some(r.effects[id].content))
    case Present(_, file) =>
      (match Newest(r, path) case None => Some(file.bytes) case Some(id) => Some(r.effects[id].content))
  }

  datatype EntryKind = FileEntry | OtherEntry

  /** The directory part of a relative path; "" is the granted directory itself. */
  function Parent(path: Name): Name {
    if path == [] then [] else if path[|path| - 1] == '/' then path[..|path| - 1] else Parent(path[..|path| - 1])
  }

  function KindOf(d: Dir, n: Name): EntryKind
    requires ValidDir(d) && n in d.names
  {
    if SoleName(d, n) && d.inodes[d.names[n]].plain then FileEntry else OtherEntry
  }

  function DiskEntries(d: Dir, sub: Name): map<Name, EntryKind>
    requires ValidDir(d)
  {
    map n | n in d.names && Parent(n) == sub :: KindOf(d, n)
  }

  function QueuedEntries(r: Resource, sub: Name): map<Name, EntryKind> {
    map n | n in QueuedPaths(r) && Parent(n) == sub :: FileEntry
  }

  function QueuedPaths(r: Resource): set<Name> {
    set id | id in r.status && Queued(r, id) :: r.effects[id].path
  }

  const MAX_ENTRIES: nat := 1000

  /** A confined listing, through the overlay; None is a denial (io.ts:118-133, directory.ts:190-202). */
  function ListView(r: Resource, sub: Name): Option<map<Name, EntryKind>>
    requires ValidDir(r.dir)
  {
    Listing(DiskEntries(r.dir, sub), QueuedEntries(r, sub))
  }

  function Listing(disk: map<Name, EntryKind>, queued: map<Name, EntryKind>): Option<map<Name, EntryKind>> {
    if TooLarge(disk) || Clash(disk, queued) || TooLarge(disk + queued) then None else Some(disk + queued)
  }

  predicate TooLarge(m: map<Name, EntryKind>) {
    |m| > MAX_ENTRIES
  }

  /** A queued file bears the name of something else on the disk. */
  predicate Clash(disk: map<Name, EntryKind>, queued: map<Name, EntryKind>) {
    exists n | n in queued :: n in disk && disk[n] == OtherEntry
  }

  // ---- what an application checks --------------------------------------------------------------

  /** The file a receipt published; ctime moves on rename, so it is not compared (apply.ts:54-57). */
  function ExpectedFromReceipt(r: Receipt): Expected {
    MustBe(r.ino, r.size, r.desired, Some(r.mtime), None)
  }

  /** What the target must be for `id` to apply; None is a denial (directory.ts:130-137). */
  function ExpectedAt(r: Resource, id: nat): Option<Expected>
    requires id in r.effects
  {
    var e := r.effects[id];
    if e.after.None? then Some(ExpectedFromStamp(e.baseline))
    else if e.after.value !in r.status || e.after.value >= id then None
    else
      var a := e.after.value;
      match r.status[a]
      case Rejected => Some(ExpectedFromStamp(e.baseline))
      case Applied => FromReceipt(r, Key(Apply, a), e.path)
      case Reverted => FromReceipt(r, Key(Revert, a), e.path)
      case _ => None
  }

  function FromReceipt(r: Resource, k: Key, path: Name): Option<Expected> {
    if k in r.receipts && r.receipts[k].path == path then Some(ExpectedFromReceipt(r.receipts[k])) else None
  }

  /** Its turn: pending, and everything earlier decided (kit-gatekeeper.ts:138-139). */
  predicate AtHead(r: Resource, id: nat) {
    Queued(r, id) && forall j | j in r.status && j < id :: K.Decided(r.status[j])
  }

  predicate NothingInDoubt(r: Resource) {
    forall id | id in r.status :: !K.InDoubt(r.status[id])
  }

  /**
   * `id` will find its target when its turn comes: checkable now, from the journal, the effect files and the
   * directory.
   */
  predicate WillApply(r: Resource, id: nat, uid: nat)
    requires ValidDir(r.dir) && id in r.effects
  {
    var e := r.effects[id];
    if e.after.Some? && e.after.value in r.status && r.status[e.after.value] != K.Rejected
    then !K.InDoubt(r.status[e.after.value])
    else (forall b | b in r.status && b < id :: !QueuedOn(r, b, e.path))
         && Replaceable(Inspect(r.dir, e.path), ExpectedFromStamp(e.baseline), uid)
  }

  // ---- the invariant of every quiet history ----------------------------------------------------

  /** The target is still the file published under this receipt, ours and without special bits. */
  predicate Standing(r: Resource, k: Key, path: Name, uid: nat)
    requires ValidDir(r.dir)
  {
    && k in r.receipts && r.receipts[k].path == path
    && Replaceable(Inspect(r.dir, path), ExpectedFromReceipt(r.receipts[k]), uid)
  }

  predicate ClockGood(r: Resource) {
    && ValidDir(r.dir)
    && (forall n | n in r.dir.names :: r.dir.inodes[r.dir.names[n]].ctime < r.dir.clock)
    && (forall k | k in r.receipts :: r.receipts[k].mtime < r.dir.clock)
    && (forall k, j | k in r.receipts && j in r.receipts && k != j :: r.receipts[k].mtime != r.receipts[j].mtime)
  }

  predicate EffectGood(r: Resource, id: nat)
    requires id in r.effects
  {
    var e := r.effects[id];
    && id in r.status && IsText(e.content) && (e.baseline.Stamp? ==> e.baseline.ctime < r.dir.clock)
    && (e.after.Some? ==>
         e.after.value < id && e.after.value in r.status && e.after.value in r.effects
           && r.effects[e.after.value].path == e.path)
  }

  /** While pending, a write is queued directly on top of the pending write before it on its path. */
  predicate LinkedGood(r: Resource, id: nat)
    requires id in r.effects
  {
    var e := r.effects[id];
    Queued(r, id) ==>
      forall b | b in r.status && b < id && QueuedOn(r, b, e.path) :: e.after.Some? && b <= e.after.value
  }

  /** Decided predecessors left their publication, and it is still the target. */
  predicate PredecessorGood(r: Resource, id: nat, uid: nat)
    requires ValidDir(r.dir) && id in r.effects
  {
    var e := r.effects[id];
    Queued(r, id) && e.after.Some? && e.after.value in r.status ==>
      && (r.status[e.after.value] == K.Applied ==> Standing(r, Key(Apply, e.after.value), e.path, uid))
      && (r.status[e.after.value] == K.Reverted ==> Standing(r, Key(Revert, e.after.value), e.path, uid))
  }

  predicate StatusGood(r: Resource, id: nat)
    requires id in r.status
  {
    && id < r.next && (id in r.effects || K.InDoubt(r.status[id]))
    && (r.status[id] in {K.Applied, K.Reverted} ==> forall b | b in r.status && b < id :: r.status[b] != K.Pending)
    && (r.status[id] in {K.Applied, K.Reverted} ==>
          Key(Apply, id) in r.receipts && id in r.effects && r.receipts[Key(Apply, id)].path == r.effects[id].path)
  }

  predicate ResourceGood(r: Resource, uid: nat) {
    && ClockGood(r)
    && (forall id | id in r.status :: StatusGood(r, id))
    && (forall id | id in r.effects :: EffectGood(r, id) && LinkedGood(r, id) && PredecessorGood(r, id, uid))
  }

  // ---- operations on values --------------------------------------------------------------------

  /** A simulated write: the baseline is read, the effect chained and recorded (directory.ts:71-76). */
  function Enqueue(r: Resource, path: Name, content: Bytes): Resource
    requires ValidDir(r.dir) && !Inspect(r.dir, path).Refused?
  {
    var t := Inspect(r.dir, path);
    r.(status := r.status[r.next := K.Pending], next := r.next + 1,
       effects := r.effects[r.next := Effect(path, content, StampOf(t), Newest(r, path), t.Present?)])
  }

  function Reject(r: Resource, id: nat): Resource {
    r.(status := r.status[id := K.Rejected])
  }

  /** `r'` is `r` after the transaction `k` of action `k.id` published `content` at `path` and the journal said so. */
  ghost predicate PublishedTo(r: Resource, r': Resource, k: Key, path: Name, content: Bytes, uid: nat) {
    && ValidDir(r.dir) && k in r'.receipts && !Inspect(r.dir, path).Refused?
    && Replaced(r.dir, r'.dir, path, content, uid, r'.receipts[k])
    && r'.receipts[k].path == path && r'.receipts[k].size == |content| && r'.receipts[k].desired == Sha256(content)
    && r' == r.(dir := r'.dir, receipts := r.receipts[k := r'.receipts[k]],
                status := r.status[k.id := if k.kind == Apply then K.Applied else K.Reverted])
  }

  ghost predicate AppliedTo(r: Resource, r': Resource, id: nat, uid: nat) {
    Queued(r, id) && PublishedTo(r, r', Key(Apply, id), r.effects[id].path, r.effects[id].content, uid)
  }

  ghost predicate RevertedTo(r: Resource, r': Resource, id: nat, uid: nat, content: Bytes) {
    && id in r.status && r.status[id] == K.Applied && id in r.effects && IsText(content) && ValidDir(r.dir)
    && Standing(r, Key(Apply, id), r.effects[id].path, uid)
    && PublishedTo(r, r', Key(Revert, id), r.effects[id].path, content, uid)
  }

  // ---- frames ----------------------------------------------------------------------------------

  lemma SoleElsewhere(d: Dir, d': Dir, path: Name, n: Name)
    requires ValidDir(d) && ValidDir(d') && OnlyNameChanged(d, d', path) && SoleName(d', path) && n != path
    requires path in d.names ==> SoleName(d, path)
    ensures n in d'.names <==> n in d.names
    ensures n in d.names ==> (SoleName(d', n) <==> SoleName(d, n)) && d'.inodes[d'.names[n]] == d.inodes[d.names[n]]
  {
    forall m | m != path ensures m in d.names <==> m in d'.names {
      assert m in d.names.Keys - {path} <==> m in d'.names.Keys - {path};
    }
  }

  lemma PublicationElsewhere(r: Resource, r': Resource, k: Key, path: Name, content: Bytes, uid: nat, n: Name)
    requires PublishedTo(r, r', k, path, content, uid) && n != path
    ensures Inspect(r'.dir, n) == Inspect(r.dir, n)
    ensures n in r'.dir.names <==> n in r.dir.names
    ensures n in r.dir.names ==> KindOf(r'.dir, n) == KindOf(r.dir, n)
  {
    SoleElsewhere(r.dir, r'.dir, path, n);
  }

  /** The published file is newer than every stamp and every receipt that existed before. */
  lemma PublicationIsNew(r: Resource, r': Resource, k: Key, path: Name, content: Bytes, uid: nat)
    requires ClockGood(r) && PublishedTo(r, r', k, path, content, uid) && IsText(content)
    ensures Standing(r', k, path, uid) && Inspect(r'.dir, path).Present? && Inspect(r'.dir, path).file.bytes == content
    ensures forall s: Stamp | s.NoFile? || s.ctime < r.dir.clock ::
              !Matches(Inspect(r'.dir, path), ExpectedFromStamp(s))
    ensures forall j | j in r.receipts && j != k :: !Matches(Inspect(r'.dir, path), ExpectedFromReceipt(r.receipts[j]))
    ensures ClockGood(r')
  {
    var f := r'.dir.inodes[r'.dir.names[path]];
    assert f.mode / 512 == 0;
    assert Inspect(r'.dir, path) == Present(r'.receipts[k].ino, f);
    forall n | n in r'.dir.names ensures r'.dir.inodes[r'.dir.names[n]].ctime < r'.dir.clock {
      if n != path { SoleElsewhere(r.dir, r'.dir, path, n); }
    }
  }

  /** What an application leaves beside the directory. */
  lemma AppliedFrame(r: Resource, r': Resource, id: nat, uid: nat)
    requires AppliedTo(r, r', id, uid)
    ensures ValidDir(r.dir) && ValidDir(r'.dir) && r'.effects == r.effects && r'.next == r.next
    ensures id in r.status && r'.status == r.status[id := K.Applied] && !Queued(r', id)
  {
  }

  // ---- applying the head of the queue changes nothing a session sees -----------------------------

  lemma NewestIs(r: Resource, path: Name, id: nat)
    requires QueuedOn(r, id, path) && id < r.next && forall j | j in r.status && QueuedOn(r, j, path) :: j <= id
    ensures Newest(r, path) == Some(id)
  {
  }

  lemma NewestAfterApply(r: Resource, r': Resource, id: nat, path: Name, uid: nat)
    requires ResourceGood(r, uid) && AtHead(r, id) && AppliedTo(r, r', id, uid)
    ensures Newest(r, path) == (if Newest(r', path).Some? then Newest(r', path)
                                else if r.effects[id].path == path then Some(id) else None)
  {
    assert StatusGood(r, id);
    assert forall j: nat :: QueuedOn(r', j, path) <==> QueuedOn(r, j, path) && j != id;
    var now := Newest(r', path);
    if now.Some? {
      if r.effects[id].path == path { assert !K.Decided(r.status[now.value]); }
      NewestIs(r, path, now.value);
    } else if r.effects[id].path == path {
      forall j | j in r.status && QueuedOn(r, j, path) ensures j <= id {
        assert StatusGood(r, j);
      }
      NewestIs(r, path, id);
    }
  }

  /** Applying in order leaves every confined read as it was. */
  lemma ApplyKeepsRead(r: Resource, r': Resource, id: nat, uid: nat, path: Name)
    requires ResourceGood(r, uid) && AtHead(r, id) && AppliedTo(r, r', id, uid)
    ensures ReadView(r', path) == ReadView(r, path)
  {
    NewestAfterApply(r, r', id, path, uid);
    var e := r.effects[id];
    assert EffectGood(r, id);
    if path == e.path {
      PublicationIsNew(r, r', Key(Apply, id), path, e.content, uid);
    } else {
      PublicationElsewhere(r, r', Key(Apply, id), e.path, e.content, uid, path);
    }
  }

  /** Applying in order leaves every confined listing as it was, denials included. */
  lemma ApplyKeepsList(r: Resource, r': Resource, id: nat, uid: nat, sub: Name)
    requires ResourceGood(r, uid) && AtHead(r, id) && AppliedTo(r, r', id, uid)
    ensures ListView(r', sub) == ListView(r, sub)
  {
    var e := r.effects[id];
    assert EffectGood(r, id);
    PublicationIsNew(r, r', Key(Apply, id), e.path, e.content, uid);
    forall n | n != e.path
      ensures n in r'.dir.names <==> n in r.dir.names
      ensures n in r.dir.names ==> KindOf(r'.dir, n) == KindOf(r.dir, n)
    {
      PublicationElsewhere(r, r', Key(Apply, id), e.path, e.content, uid, n);
    }
    assert e.path in r.dir.names ==> KindOf(r.dir, e.path) == FileEntry;
    assert KindOf(r'.dir, e.path) == FileEntry;
    QueuedAfterApply(r, r', id, uid);
    SameListing(r, r', e.path, sub);
  }

  lemma QueuedAfterApply(r: Resource, r': Resource, id: nat, uid: nat)
    requires AppliedTo(r, r', id, uid)
    ensures r.effects[id].path in QueuedPaths(r)
    ensures forall n | n != r.effects[id].path :: n in QueuedPaths(r') <==> n in QueuedPaths(r)
  {
    forall n | n != r.effects[id].path && n in QueuedPaths(r) ensures n in QueuedPaths(r') {
      var j :| j in r.status && Queued(r, j) && r.effects[j].path == n;
      assert Queued(r', j);
    }
    forall n | n != r.effects[id].path && n in QueuedPaths(r') ensures n in QueuedPaths(r) {
      var j :| j in r'.status && Queued(r', j) && r'.effects[j].path == n;
      assert Queued(r, j);
    }
    assert Queued(r, id);
  }

  /** A queued file moved to the disk: the merged listing is the same, and so are the bounds on it. */
  lemma SameListing(r: Resource, r': Resource, path: Name, sub: Name)
    requires ValidDir(r.dir) && ValidDir(r'.dir) && path in r'.dir.names && path in QueuedPaths(r)
    requires forall n | n != path ::
               (n in r'.dir.names <==> n in r.dir.names) && (n in QueuedPaths(r') <==> n in QueuedPaths(r))
    requires forall n | n != path && n in r.dir.names :: KindOf(r'.dir, n) == KindOf(r.dir, n)
    requires KindOf(r'.dir, path) == FileEntry && (path in r.dir.names ==> KindOf(r.dir, path) == FileEntry)
    ensures ListView(r', sub) == ListView(r, sub)
  {
    hide KindOf, Parent, Listing, QueuedPaths;
    var disk, disk' := DiskEntries(r.dir, sub), DiskEntries(r'.dir, sub);
    var queued, queued' := QueuedEntries(r, sub), QueuedEntries(r', sub);
    EntriesMove(r, r', path, sub);
    hide DiskEntries, QueuedEntries;
    if Parent(path) == sub { MovedToDisk(disk, queued, disk', queued', path); }
  }

  lemma EntriesMove(r: Resource, r': Resource, path: Name, sub: Name)
    requires ValidDir(r.dir) && ValidDir(r'.dir) && path in r'.dir.names && path in QueuedPaths(r)
    requires forall n | n != path ::
               (n in r'.dir.names <==> n in r.dir.names) && (n in QueuedPaths(r') <==> n in QueuedPaths(r))
    requires forall n | n != path && n in r.dir.names :: KindOf(r'.dir, n) == KindOf(r.dir, n)
    requires KindOf(r'.dir, path) == FileEntry && (path in r.dir.names ==> KindOf(r.dir, path) == FileEntry)
    ensures var disk, disk' := DiskEntries(r.dir, sub), DiskEntries(r'.dir, sub);
            var queued, queued' := QueuedEntries(r, sub), QueuedEntries(r', sub);
            if Parent(path) == sub then
              && disk' == disk[path := FileEntry] && (path in disk ==> disk[path] == FileEntry) && path in queued
              && (forall n | n in queued :: queued[n] == FileEntry)
                 && (forall n | n in queued' :: queued'[n] == FileEntry)
              && (forall n | n != path :: n in queued' <==> n in queued)
            else disk' == disk && queued' == queued
  {
    hide KindOf, Parent, QueuedPaths;
    DiskEntriesMove(r.dir, r'.dir, path, sub);
  }

  lemma DiskEntriesMove(d: Dir, d': Dir, path: Name, sub: Name)
    requires ValidDir(d) && ValidDir(d') && path in d'.names
    requires forall n | n != path :: n in d'.names <==> n in d.names
    requires forall n | n != path && n in d.names :: KindOf(d', n) == KindOf(d, n)
    requires KindOf(d', path) == FileEntry
    ensures DiskEntries(d', sub) == if Parent(path) == sub then DiskEntries(d, sub)[path := FileEntry]
            else DiskEntries(d, sub)
  {
    hide KindOf, Parent;
  }

  lemma MovedToDisk(disk: map<Name, EntryKind>, queued: map<Name, EntryKind>, disk': map<Name, EntryKind>,
                    queued': map<Name, EntryKind>, path: Name)
    requires disk' == disk[path := FileEntry] && (path in disk ==> disk[path] == FileEntry)
    requires path in queued && (forall n | n in queued :: queued[n] == FileEntry)
    requires forall n | n in queued' :: queued'[n] == FileEntry
    requires forall n | n != path :: n in queued' <==> n in queued
    ensures Listing(disk', queued') == Listing(disk, queued)
  {
    SameMerge(disk, queued, disk', queued', path);
    SameClash(disk, queued, disk', queued', path);
    KeysGrow(disk, disk', queued', path);
    hide TooLarge, Clash;
    MapsGrow(disk, disk');
    MapsGrow(disk', disk' + queued');
    SameBounds(disk, queued, disk', queued');
  }

  lemma SameBounds(disk: map<Name, EntryKind>, queued: map<Name, EntryKind>, disk': map<Name, EntryKind>,
                   queued': map<Name, EntryKind>)
    requires disk' + queued' == disk + queued && (Clash(disk', queued') <==> Clash(disk, queued))
    requires TooLarge(disk) ==> TooLarge(disk')
    requires TooLarge(disk') ==> TooLarge(disk' + queued')
    ensures Listing(disk', queued') == Listing(disk, queued)
  {
    hide TooLarge, Clash;
  }

  lemma KeysGrow(disk: map<Name, EntryKind>, disk': map<Name, EntryKind>, queued': map<Name, EntryKind>, path: Name)
    requires disk' == disk[path := FileEntry]
    ensures disk.Keys <= disk'.Keys <= (disk' + queued').Keys
  {
  }

  lemma SameClash(disk: map<Name, EntryKind>, queued: map<Name, EntryKind>, disk': map<Name, EntryKind>,
                  queued': map<Name, EntryKind>, path: Name)
    requires disk' == disk[path := FileEntry] && (path in disk ==> disk[path] == FileEntry)
    requires forall n | n != path :: n in queued' <==> n in queued
    ensures Clash(disk', queued') <==> Clash(disk, queued)
  {
    if n :| n in queued && n in disk && disk[n] == OtherEntry {
      assert n in queued' && n in disk' && disk'[n] == OtherEntry;
    }
    if n :| n in queued' && n in disk' && disk'[n] == OtherEntry {
      assert n in queued && n in disk && disk[n] == OtherEntry;
    }
  }

  lemma SameMerge(disk: map<Name, EntryKind>, queued: map<Name, EntryKind>, disk': map<Name, EntryKind>,
                  queued': map<Name, EntryKind>, path: Name)
    requires disk' == disk[path := FileEntry]
    requires path in queued && (forall n | n in queued :: queued[n] == FileEntry)
    requires forall n | n in queued' :: queued'[n] == FileEntry
    requires forall n | n != path :: n in queued' <==> n in queued
    ensures disk' + queued' == disk + queued
  {
  }

  lemma MapsGrow(m: map<Name, EntryKind>, m': map<Name, EntryKind>)
    requires m.Keys <= m'.Keys
    ensures |m| <= |m'| && (TooLarge(m) ==> TooLarge(m'))
  {
    var a, b := m.Keys, m'.Keys;
    assert |m| == |a| && |m'| == |b|;
    assert b == a + (b - a) && a !! (b - a);
    assert |b| == |a| + |b - a|;
  }

  // ---- every operation keeps the invariant -------------------------------------------------------

  /** What a publication does not touch of another action. */
  lemma PublicationKeepsEffect(r: Resource, r': Resource, k: Key, path: Name, content: Bytes, uid: nat, j: nat)
    requires ResourceGood(r, uid) && PublishedTo(r, r', k, path, content, uid) && ClockGood(r') && j in r.effects
    requires k.id in r.status && (r.status[k.id] == K.Pending || r.status[k.id] == K.Applied)
    ensures EffectGood(r', j) && LinkedGood(r', j)
  {
    assert EffectGood(r, j) && LinkedGood(r, j);
    assert r.dir.clock <= r'.dir.clock;
    assert forall b, p | QueuedOn(r', b, p) :: QueuedOn(r, b, p);
  }

  lemma ApplyKeepsPredecessor(r: Resource, r': Resource, id: nat, uid: nat, j: nat)
    requires ResourceGood(r, uid) && AtHead(r, id) && AppliedTo(r, r', id, uid) && j in r.effects
    requires ValidDir(r'.dir) && Standing(r', Key(Apply, id), r.effects[id].path, uid)
    ensures PredecessorGood(r', j, uid)
  {
    var e := r.effects[j];
    assert PredecessorGood(r, j, uid) && EffectGood(r, j);
    if Queued(r', j) && e.after.Some? {
      if e.path == r.effects[id].path {
        NoneBetween(r, id, j, uid);
      } else {
        PublicationElsewhere(r, r', Key(Apply, id), r.effects[id].path, r.effects[id].content, uid, e.path);
      }
    }
  }

  lemma ApplyKeepsStatus(r: Resource, r': Resource, id: nat, uid: nat, j: nat)
    requires ResourceGood(r, uid) && AtHead(r, id) && AppliedTo(r, r', id, uid) && j in r.status
    ensures StatusGood(r', j)
  {
    assert StatusGood(r, j);
  }

  lemma ApplyKeepsGood(r: Resource, r': Resource, id: nat, uid: nat)
    requires ResourceGood(r, uid) && AtHead(r, id) && AppliedTo(r, r', id, uid)
    ensures ResourceGood(r', uid)
  {
    assert EffectGood(r, id);
    PublicationIsNew(r, r', Key(Apply, id), r.effects[id].path, r.effects[id].content, uid);
    assert r'.status.Keys == r.status.Keys && r'.effects == r.effects;
    hide PublishedTo, StatusGood, EffectGood, LinkedGood, PredecessorGood, AtHead, ClockGood, Standing;
    forall j | j in r'.status ensures StatusGood(r', j) { ApplyKeepsStatus(r, r', id, uid, j); }
    forall j | j in r'.effects ensures EffectGood(r', j) && LinkedGood(r', j) && PredecessorGood(r', j, uid) {
      PublicationKeepsEffect(r, r', Key(Apply, id), r.effects[id].path, r.effects[id].content, uid, j);
      ApplyKeepsPredecessor(r, r', id, uid, j);
    }
  }

  /** Behind the head of the queue on its path, no pending write was queued on one already applied or reverted. */
  lemma NoneBetween(r: Resource, head: nat, id: nat, uid: nat)
    requires ResourceGood(r, uid) && AtHead(r, head) && QueuedOn(r, id, r.effects[head].path) && id != head
    ensures head < id && r.effects[id].after.Some? && head <= r.effects[id].after.value
    ensures r.effects[id].after.value in r.status && r.status[r.effects[id].after.value] !in {K.Applied, K.Reverted}
  {
    assert StatusGood(r, id) && LinkedGood(r, id) && EffectGood(r, id);
    assert !K.Decided(r.status[id]);
    var a := r.effects[id].after.value;
    assert StatusGood(r, a);
  }

  lemma EnqueuedOn(r: Resource, path: Name, content: Bytes, uid: nat)
    requires ResourceGood(r, uid) && !Inspect(r.dir, path).Refused?
    ensures r.next !in r.status && r.next !in r.effects && forall b | b in r.status :: b < r.next
    ensures forall j: nat, p ::
              QueuedOn(Enqueue(r, path, content), j, p) <==> if j == r.next then p == path else QueuedOn(r, j, p)
  {
    assert forall j | j in r.effects :: EffectGood(r, j);
    assert forall j | j in r.status :: StatusGood(r, j);
    hide EffectGood, StatusGood, Inspect;
  }

  lemma EnqueuedEffect(r: Resource, path: Name, content: Bytes, uid: nat)
    requires ResourceGood(r, uid) && !Inspect(r.dir, path).Refused? && IsText(content)
    ensures var r' := Enqueue(r, path, content);
            ValidDir(r'.dir) && EffectGood(r', r.next) && LinkedGood(r', r.next) && PredecessorGood(r', r.next, uid)
  {
    EnqueuedOn(r, path, content, uid);
    hide StatusGood, LinkedGood, PredecessorGood;
    assert Newest(r, path).Some? ==> r.status[Newest(r, path).value] == K.Pending;
  }

  lemma OtherEffect(r: Resource, path: Name, content: Bytes, uid: nat, j: nat)
    requires ResourceGood(r, uid) && !Inspect(r.dir, path).Refused? && IsText(content) && j in r.effects
    ensures var r' := Enqueue(r, path, content);
            j in r'.effects && ValidDir(r'.dir) && EffectGood(r', j) && LinkedGood(r', j) && PredecessorGood(r', j, uid)
  {
    EnqueuedOn(r, path, content, uid);
    assert EffectGood(r, j) && LinkedGood(r, j) && PredecessorGood(r, j, uid);
  }

  /** A write extends the chain on its path. */
  lemma EnqueueKeepsGood(r: Resource, path: Name, content: Bytes, uid: nat)
    requires ResourceGood(r, uid) && !Inspect(r.dir, path).Refused? && IsText(content)
    ensures ResourceGood(Enqueue(r, path, content), uid)
  {
    var r', n := Enqueue(r, path, content), r.next;
    EnqueuedOn(r, path, content, uid);
    forall j | j in r'.status ensures StatusGood(r', j) { if j != n { assert StatusGood(r, j); } }
    EnqueuedEffect(r, path, content, uid);
    hide StatusGood, EffectGood, LinkedGood, PredecessorGood, ClockGood;
    forall j | j in r.effects ensures EffectGood(r', j) && LinkedGood(r', j) && PredecessorGood(r', j, uid) {
      OtherEffect(r, path, content, uid, j);
    }
  }

  /** A write reads back, and no other path is affected. */
  lemma EnqueueReadsBack(r: Resource, path: Name, content: Bytes, uid: nat)
    requires ResourceGood(r, uid) && !Inspect(r.dir, path).Refused?
    ensures ReadView(Enqueue(r, path, content), path) == Some(content)
    ensures forall p | p != path :: ReadView(Enqueue(r, path, content), p) == ReadView(r, p)
  {
    var r', n := Enqueue(r, path, content), r.next;
    assert forall j | j in r.effects :: EffectGood(r, j) && StatusGood(r, j);
    assert forall j: nat, p :: QueuedOn(r', j, p) <==> if j == n then p == path else QueuedOn(r, j, p);
    NewestIs(r', path, n);
    forall p | p != path ensures ReadView(r', p) == ReadView(r, p) {
      if Newest(r, p).Some? { NewestIs(r', p, Newest(r, p).value); }
      assert Newest(r', p) == Newest(r, p);
    }
  }

  lemma RejectKeepsGood(r: Resource, id: nat, uid: nat)
    requires ResourceGood(r, uid) && Queued(r, id)
    ensures ResourceGood(Reject(r, id), uid)
  {
    var r' := Reject(r, id);
    forall j | j in r'.status ensures StatusGood(r', j) { assert StatusGood(r, j); }
    forall j | j in r'.effects ensures EffectGood(r', j) && LinkedGood(r', j) && PredecessorGood(r', j, uid) {
      assert EffectGood(r, j) && LinkedGood(r, j) && PredecessorGood(r, j, uid);
    }
  }

  lemma RevertKeepsPredecessor(r: Resource, r': Resource, id: nat, uid: nat, content: Bytes, j: nat)
    requires ResourceGood(r, uid) && RevertedTo(r, r', id, uid, content) && j in r.effects
    requires ValidDir(r'.dir) && Standing(r', Key(Revert, id), r.effects[id].path, uid) && ClockGood(r')
    ensures PredecessorGood(r', j, uid)
  {
    var e := r.effects[j];
    assert PredecessorGood(r, j, uid) && EffectGood(r, j);
    if Queued(r', j) && e.after.Some? {
      if e.path == r.effects[id].path {
        StandsAlone(r, id, e.after.value, uid);
      } else {
        PublicationElsewhere(r, r', Key(Revert, id), r.effects[id].path, content, uid, e.path);
      }
    }
  }

  /** Receipts differ in their times, so at most one of them describes the target. */
  lemma StandsAlone(r: Resource, id: nat, j: nat, uid: nat)
    requires ClockGood(r) && id in r.effects && Standing(r, Key(Apply, id), r.effects[id].path, uid)
    ensures j != id ==> !Standing(r, Key(Apply, j), r.effects[id].path, uid)
    ensures !Standing(r, Key(Revert, j), r.effects[id].path, uid)
  {
  }

  lemma RevertKeepsStatus(r: Resource, r': Resource, id: nat, uid: nat, content: Bytes, j: nat)
    requires ResourceGood(r, uid) && RevertedTo(r, r', id, uid, content) && j in r.status
    ensures StatusGood(r', j)
  {
    assert StatusGood(r, j);
  }

  lemma RevertKeepsGood(r: Resource, r': Resource, id: nat, uid: nat, content: Bytes)
    requires ResourceGood(r, uid) && RevertedTo(r, r', id, uid, content)
    ensures ResourceGood(r', uid)
  {
    var path := r.effects[id].path;
    PublicationIsNew(r, r', Key(Revert, id), path, content, uid);
    assert r'.status.Keys == r.status.Keys && r'.effects == r.effects;
    hide PublishedTo, StatusGood, EffectGood, LinkedGood, PredecessorGood, ClockGood, Standing;
    forall j | j in r'.status ensures StatusGood(r', j) { RevertKeepsStatus(r, r', id, uid, content, j); }
    forall j | j in r'.effects ensures EffectGood(r', j) && LinkedGood(r', j) && PredecessorGood(r', j, uid) {
      PublicationKeepsEffect(r, r', Key(Revert, id), path, content, uid, j);
      RevertKeepsPredecessor(r, r', id, uid, content, j);
    }
  }
}
