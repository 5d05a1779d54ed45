/** Concrete runs showing that the two exceptions in `LossAllowed` cannot be dropped. */
module TransactionWindows {
  import opened Wrappers
  import opened FileSystem
  import opened TransactionWorld

  const KEY := Key(Apply, 1)

  function File(bytes: Bytes, origin: Origin): Inode {
    Inode(bytes, 420, 0, true, 0, 0, origin)
  }

  /** A replacement about to be published by rename: the target still holds the baseline `[7]`. */
  function BeforeRename(): World {
    World(Dir(map["s" := 1, "p" := 2], map[1 := File([1], Driver(KEY)), 2 := File([7], Outside)], 1),
          map[KEY := TxRecord("p", "s", Publishing, MustBe(2, 1, Sha256([7]), None, None), 1, Sha256([1]), Some(1),
              Some(ByRename))],
          map[KEY := Preimage("p", Some(Saved([7], 420, 2)))], map[], [], 0, 0)
  }

  /** A creation about to be published by link. */
  function BeforeLink(): World {
    World(Dir(map["s" := 1], map[1 := File([1], Driver(KEY))], 1),
          map[KEY := TxRecord("p", "s", Publishing, MustBeAbsent, 1, Sha256([1]), Some(1), Some(ByLink))],
          map[KEY := Preimage("p", None)], map[], [], 0, 0)
  }

  lemma BeforeRenameIsGood()
    ensures WorldGood(BeforeRename())
  {
  }

  /** In rename mode one in-place edit between the last check and rename(2) is destroyed and in no preimage. */
  lemma RenameWindowIsReal() returns (edited: World, published: World)
    ensures WorldGood(BeforeRename()) && Matches(Inspect(BeforeRename().dir, "p"), BeforeRename().tx[KEY].expected)
    ensures OutsideStep(BeforeRename(), edited, "p")
    ensures "p" in edited.dir.names && edited.dir.inodes[edited.dir.names["p"]].bytes == [9]
    ensures "s" in edited.dir.names && published == RenameStage(edited, KEY, 1)
    ensures WorldGood(published) && published.losses == [Loss(KEY, 2, [9], Overwritten, 1, 1)]
    ensures !PreimageLoss(published, published.losses[0])
  {
    var w := BeforeRename();
    BeforeRenameIsGood();
    hide WorldGood;
    edited := w.(dir := w.dir.(inodes := w.dir.inodes[2 := File([9], Outside)]), edits := 1);
    assert OutsideEdit(w.dir, edited.dir, "p");
    OutsideKeepsGood(w, edited, "p");
    assert SoleName(edited.dir, "p");
    RenameStageKeepsGood(edited, KEY, 1);
    published := RenameStage(edited, KEY, 1);
  }

  function Linked(): World {
    OnDir(BeforeLink(), Link(BeforeLink().dir, "s", "p"))
  }

  /** An editor writes `[9]` in place to the target just linked. */
  function LinkedThenEdited(): World {
    var w := Linked();
    w.(dir := w.dir.(inodes := w.dir.inodes[1 := File([9], Outside)]), edits := 1)
  }

  /** An editor then replaces the target by another file. */
  function EditedThenReplaced(): World {
    var w := LinkedThenEdited();
    w.(dir := w.dir.(names := w.dir.names["p" := 2], inodes := w.dir.inodes[2 := File([3], Outside)]), edits := 2)
  }

  lemma LinkedIsGood()
    ensures WorldGood(BeforeLink()) && WorldGood(Linked())
  {
    assert WorldGood(BeforeLink());
    OnDirKeepsGood(BeforeLink(), Linked().dir);
  }

  lemma EditsAreOutsideSteps()
    ensures OutsideStep(Linked(), LinkedThenEdited(), "p")
    ensures OutsideStep(LinkedThenEdited(), EditedThenReplaced(), "p")
    ensures WorldGood(EditedThenReplaced())
  {
    LinkedIsGood();
    assert OutsideEdit(Linked().dir, LinkedThenEdited().dir, "p");
    OutsideKeepsGood(Linked(), LinkedThenEdited(), "p");
    assert OutsideEdit(LinkedThenEdited().dir, EditedThenReplaced().dir, "p");
    OutsideKeepsGood(LinkedThenEdited(), EditedThenReplaced(), "p");
  }

  /**
   * In link mode an edit made to the freshly linked file is destroyed when an editor then replaces the target
   * and the driver drops the stage name, the edit's last link.
   */
  lemma OwnFileLossIsReal()
    ensures Linked().dir.names["p"] == Linked().dir.names["s"] == 1
    ensures OutsideStep(Linked(), LinkedThenEdited(), "p") && OutsideStep(LinkedThenEdited(), EditedThenReplaced(), "p")
    ensures var done := UnlinkStage(EditedThenReplaced(), KEY, 2, 2);
            WorldGood(done) && done.losses == [Loss(KEY, 1, [9], Unlinked, 2, 2)] && !PreimageLoss(done, done.losses[0])
  {
    EditsAreOutsideSteps();
    var w := EditedThenReplaced();
    assert SoleName(w.dir, "s") && w.dir.inodes[1].bytes == [9];
    UnlinkStageKeepsGood(w, KEY, 2, 2);
  }

  /** One outside step is enough to lose the driver's own bytes: a replacement of the target just linked. */
  lemma OneStepLosesOwnBytes() returns (replaced: World)
    ensures OutsideStep(Linked(), replaced, "p") && replaced.edits == 1
    ensures "s" in replaced.dir.names
    ensures var done := UnlinkStage(replaced, KEY, 1, 1);
            WorldGood(done) && done.losses == [Loss(KEY, 1, [1], Unlinked, 1, 1)]
  {
    LinkedIsGood();
    var w := Linked();
    replaced := w.(dir := w.dir.(names := w.dir.names["p" := 2], inodes := w.dir.inodes[2 := File([3], Outside)]),
        edits := 1);
    assert OutsideEdit(w.dir, replaced.dir, "p");
    OutsideKeepsGood(w, replaced, "p");
    hide WorldGood, OutsideEdit;
    assert SoleName(replaced.dir, "s") && replaced.dir.inodes[1].bytes == [1];
    UnlinkStageKeepsGood(replaced, KEY, 1, 1);
  }
}
