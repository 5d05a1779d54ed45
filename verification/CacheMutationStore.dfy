/**
 * The mutate-the-cache simulation: an authoritative base, and pending effects replayed over it
 * (cache-mutation-store.ts).
 */
module CacheMutationStore {
  import opened Wrappers

  datatype Entry = Entry(actionId: nat, kind: string, payload: string)

  predicate Ordered(pending: seq<Entry>) {
    forall i, j | 0 <= i < j < |pending| :: pending[i].actionId < pending[j].actionId
  }

  /** overlay-store.ts:7-10, for entries in order. */
  predicate ValidEntries(pending: seq<Entry>) {
    Ordered(pending) && forall i | 0 <= i < |pending| :: pending[i].actionId > 0 && pending[i].kind != ""
  }

  /**
   * The fold of the pending effects over the base; None when a reducer throws or is missing
   * (cache-mutation-store.ts:19-25).
   */
  function Replay<T>(base: T, pending: seq<Entry>, reduce: (T, Entry) -> Option<T>): Option<T> {
    if pending == [] then Some(base)
    else match reduce(base, pending[0])
      case None => None
      case Some(next) => Replay(next, pending[1..], reduce)
  }

  /** Append and sort by action id. */
  function Inserted(pending: seq<Entry>, e: Entry): (s: seq<Entry>)
    ensures |s| == |pending| + 1 && forall x :: x in s <==> x in pending || x == e
  {
    if pending == [] || e.actionId < pending[0].actionId then [e] + pending
    else [pending[0]] + Inserted(pending[1..], e)
  }

  lemma OrderedCons(h: Entry, s: seq<Entry>)
    ensures Ordered([h] + s) <==> Ordered(s) && forall x | x in s :: h.actionId < x.actionId
  {
    var all := [h] + s;
    if Ordered(all) {
      forall i, j | 0 <= i < j < |s| ensures s[i].actionId < s[j].actionId {
        assert all[i + 1].actionId < all[j + 1].actionId;
      }
      forall x | x in s ensures h.actionId < x.actionId {
        var k :| 0 <= k < |s| && s[k] == x;
        assert all[0].actionId < all[k + 1].actionId;
      }
    }
    if Ordered(s) && forall x | x in s :: h.actionId < x.actionId {
      forall i, j | 0 <= i < j < |all| ensures all[i].actionId < all[j].actionId {
        assert all[j] == s[j - 1] && s[j - 1] in s;
      }
    }
  }

  /** Inserting keeps the order exactly when the id is new. */
  lemma {:induction false} InsertedOrdered(pending: seq<Entry>, e: Entry)
    requires Ordered(pending)
    ensures Ordered(Inserted(pending, e)) <==> forall x | x in pending :: x.actionId != e.actionId
  {
    if pending == [] {
    } else if e.actionId < pending[0].actionId {
      OrderedCons(e, pending);
      assert forall x | x in pending :: pending[0].actionId <= x.actionId;
    } else {
      var h, rest := pending[0], pending[1..];
      assert pending == [h] + rest;
      OrderedCons(h, rest);
      InsertedOrdered(rest, e);
      hide Ordered;
      OrderedCons(h, Inserted(rest, e));
      assert forall x :: x in pending <==> x == h || x in rest;
    }
  }

  predicate HasId(pending: seq<Entry>, id: nat) {
    exists i | 0 <= i < |pending| :: pending[i].actionId == id
  }

  /** Retire one action; a missing one is harmless. */
  function Without(pending: seq<Entry>, id: nat): (s: seq<Entry>)
    ensures forall x :: x in s <==> x in pending && x.actionId != id
  {
    if pending == [] then []
    else if pending[0].actionId == id then Without(pending[1..], id)
    else [pending[0]] + Without(pending[1..], id)
  }

  lemma {:induction false} WithoutOrdered(pending: seq<Entry>, id: nat)
    requires ValidEntries(pending)
    ensures ValidEntries(Without(pending, id)) && !HasId(Without(pending, id), id)
  {
    if pending != [] {
      WithoutOrdered(pending[1..], id);
      var s, rest := Without(pending, id), Without(pending[1..], id);
      if pending[0].actionId != id {
        assert s[1..] == rest;
        forall i, j | 0 <= i < j < |s| ensures s[i].actionId < s[j].actionId {
          assert s[j] == rest[j - 1] && s[j] in pending[1..];
          if i > 0 { assert s[i] == rest[i - 1]; }
        }
        forall i | 0 <= i < |s| ensures s[i].actionId > 0 && s[i].kind != "" { assert s[i] in pending; }
        forall i | 0 <= i < |s| ensures s[i].actionId != id { assert s[i] in s; }
      }
    }
  }

  lemma {:induction false} WithoutHead(pending: seq<Entry>)
    requires Ordered(pending) && pending != []
    ensures Without(pending, pending[0].actionId) == pending[1..]
  {
    AbsentIsKept(pending[1..], pending[0].actionId);
  }

  lemma {:induction false} AbsentIsKept(pending: seq<Entry>, id: nat)
    requires !HasId(pending, id)
    ensures Without(pending, id) == pending
  {
    if pending != [] {
      assert pending[0].actionId != id;
      forall i | 0 <= i < |pending[1..]| ensures pending[1..][i].actionId != id {
        assert pending[1..][i] == pending[i + 1];
      }
      AbsentIsKept(pending[1..], id);
    }
  }

  lemma HasFirst(t: seq<Entry>)
    ensures t == [] || exists x :: x in t
  {
    if t != [] { assert t[0] in t; }
  }

  /** Entries in order are determined by which entries they are. */
  lemma {:induction false} OrderedUnique(s: seq<Entry>, t: seq<Entry>)
    requires Ordered(s) && Ordered(t) && forall x :: x in s <==> x in t
    ensures s == t
  {
    if s == [] {
      HasFirst(t);
    } else {
      assert s[0] in s && t != [] by { assert s[0] in t; }
      assert t[0] in t && t[0] in s && s[0] in t;
      assert s[0] == t[0] by { FirstIsLeast(s, t[0]); FirstIsLeast(t, s[0]); }
      forall x ensures x in s[1..] <==> x in t[1..] {
        NotFirst(s, x);
        NotFirst(t, x);
      }
      OrderedUnique(s[1..], t[1..]);
    }
  }

  lemma FirstIsLeast(s: seq<Entry>, x: Entry)
    requires Ordered(s) && x in s
    ensures s[0] == x || s[0].actionId < x.actionId
  {
  }

  lemma NotFirst(s: seq<Entry>, x: Entry)
    requires Ordered(s) && s != []
    ensures x in s[1..] <==> x in s && x != s[0]
  {
    if x in s[1..] {
      var i :| 0 <= i < |s[1..]| && s[1..][i] == x;
      assert s[i + 1] == x;
    }
    if x in s && x != s[0] {
      var i :| 0 <= i < |s| && s[i] == x;
      assert s[1..][i - 1] == x;
    }
  }

  // ---- arrival order ---------------------------------------------------------------------------

  /** The pending entries after a series of adds; None when one repeats an id or is invalid. */
  function AddAll(pending: seq<Entry>, adds: seq<Entry>): Option<seq<Entry>>
    decreases |adds|
  {
    if adds == [] then Some(pending)
    else
      var next := Inserted(pending, adds[0]);
      if ValidEntries(next) then AddAll(next, adds[1..]) else None
  }

  lemma {:induction false} AddAllContents(pending: seq<Entry>, adds: seq<Entry>)
    requires ValidEntries(pending) && AddAll(pending, adds).Some?
    ensures ValidEntries(AddAll(pending, adds).value)
    ensures forall x :: x in AddAll(pending, adds).value <==> x in pending || x in adds
    decreases |adds|
  {
    if adds != [] {
      AddAllContents(Inserted(pending, adds[0]), adds[1..]);
      forall x ensures x in adds <==> x == adds[0] || x in adds[1..] {}
    }
  }

  predicate ValidEntry(e: Entry) {
    e.actionId > 0 && e.kind != ""
  }

  /** Entries that may all be added: each valid, under an id of its own that is not pending yet. */
  ghost predicate Addable(pending: seq<Entry>, adds: seq<Entry>) {
    && (forall x | x in adds ::
          ValidEntry(x) && multiset(adds)[x] == 1 && forall p | p in pending :: p.actionId != x.actionId)
    && (forall x, y | x in adds && y in adds && x.actionId == y.actionId :: x == y)
  }

  lemma InsertedValid(pending: seq<Entry>, e: Entry)
    requires ValidEntries(pending)
    ensures ValidEntries(Inserted(pending, e)) <==> ValidEntry(e) && forall p | p in pending :: p.actionId != e.actionId
  {
    var next := Inserted(pending, e);
    InsertedOrdered(pending, e);
    assert e in next;
    hide Ordered;
    if ValidEntry(e) {
      forall i | 0 <= i < |next| ensures next[i].actionId > 0 && next[i].kind != "" { assert next[i] in next; }
    }
  }

  lemma AddableCons(pending: seq<Entry>, e: Entry, rest: seq<Entry>)
    ensures Addable(pending, [e] + rest) <==>
              ValidEntry(e) && (forall p | p in pending :: p.actionId != e.actionId)
                && Addable(Inserted(pending, e), rest)
  {
    var adds := [e] + rest;
    assert adds[0] == e && adds[1..] == rest;
    assert forall x :: x in adds <==> x == e || x in rest;
    assert multiset(adds) == multiset{e} + multiset(rest);
    if Addable(pending, adds) {
      assert multiset(adds)[e] == 1;
      assert e !in rest;
    }
  }

  /** A series of adds is accepted exactly when its entries may all be added, whatever their order. */
  lemma {:induction false} AddAllSucceeds(pending: seq<Entry>, adds: seq<Entry>)
    requires ValidEntries(pending)
    ensures AddAll(pending, adds).Some? <==> Addable(pending, adds)
    decreases |adds|
  {
    if adds != [] {
      assert adds == [adds[0]] + adds[1..];
      hide Addable, ValidEntries;
      InsertedValid(pending, adds[0]);
      AddableCons(pending, adds[0], adds[1..]);
      if ValidEntries(Inserted(pending, adds[0])) { AddAllSucceeds(Inserted(pending, adds[0]), adds[1..]); }
    }
  }

  lemma AddableAnyOrder(pending: seq<Entry>, adds: seq<Entry>, others: seq<Entry>)
    requires multiset(adds) == multiset(others) && Addable(pending, adds)
    ensures Addable(pending, others)
  {
    forall x ensures x in adds <==> x in others { assert x in multiset(adds) <==> x in multiset(others); }
  }

  /** Validity does not depend on the order of arrival, nor do the pending entries, and so the view. */
  lemma ArrivalOrderIsIrrelevant<T>(base: T, pending: seq<Entry>, adds: seq<Entry>, others: seq<Entry>,
                                    reduce: (T, Entry) -> Option<T>)
    requires ValidEntries(pending) && multiset(adds) == multiset(others)
    requires AddAll(pending, adds).Some?
    ensures AddAll(pending, others) == AddAll(pending, adds)
    ensures Replay(base, AddAll(pending, adds).value, reduce) == Replay(base, AddAll(pending, others).value, reduce)
  {
    AddAllSucceeds(pending, adds);
    AddAllSucceeds(pending, others);
    AddableAnyOrder(pending, adds, others);
    AddAllContents(pending, adds);
    AddAllContents(pending, others);
    forall x ensures x in adds <==> x in others { assert x in multiset(adds) <==> x in multiset(others); }
    OrderedUnique(AddAll(pending, adds).value, AddAll(pending, others).value);
  }

  /** The same series through the store's own `add`, which also refuses an entry whose replay throws. */
  function StoreAll<T>(base: T, pending: seq<Entry>, adds: seq<Entry>,
                       reduce: (T, Entry) -> Option<T>): Option<seq<Entry>>
    decreases |adds|
  {
    if adds == [] then Some(pending)
    else
      var next := Inserted(pending, adds[0]);
      if ValidEntries(next) && Replay(base, next, reduce).Some? then StoreAll(base, next, adds[1..], reduce) else None
  }

  /** The first `k` adds can be replayed, whatever is to come. */
  ghost predicate PrefixReplays<T>(base: T, pending: seq<Entry>, adds: seq<Entry>, k: nat,
                                   reduce: (T, Entry) -> Option<T>)
    requires 0 < k <= |adds|
  {
    var now := AddAll(pending, adds[..k]);
    now.Some? && Replay(base, now.value, reduce).Some?
  }

  lemma PrefixReplaysCons<T>(base: T, pending: seq<Entry>, adds: seq<Entry>, k: nat, reduce: (T, Entry) -> Option<T>)
    requires 1 < k <= |adds| && ValidEntries(Inserted(pending, adds[0]))
    ensures PrefixReplays(base, pending, adds, k, reduce) <==>
              PrefixReplays(base, Inserted(pending, adds[0]), adds[1..], k - 1, reduce)
  {
    assert adds[..k][0] == adds[0] && adds[..k][1..] == adds[1..][..k - 1];
  }

  /** The store takes a series exactly when every prefix of it replays, and then holds its entries in id order. */
  lemma {:induction false} StoreAllSucceeds<T>(base: T, pending: seq<Entry>, adds: seq<Entry>,
                                               reduce: (T, Entry) -> Option<T>)
    requires ValidEntries(pending)
    ensures StoreAll(base, pending, adds, reduce).Some? <==>
              AddAll(pending, adds).Some? && forall k | 0 < k <= |adds| :: PrefixReplays(base, pending, adds, k, reduce)
    ensures StoreAll(base, pending, adds, reduce).Some? ==>
              StoreAll(base, pending, adds, reduce) == AddAll(pending, adds)
    decreases |adds|
  {
    if adds != [] {
      var next := Inserted(pending, adds[0]);
      assert adds[..1] == [adds[0]];
      hide Inserted;
      if ValidEntries(next) {
        assert AddAll(pending, adds[..1]) == AddAll(next, adds[..1][1..]) == Some(next);
        hide ValidEntries;
        assert PrefixReplays(base, pending, adds, 1, reduce) <==> Replay(base, next, reduce).Some?;
        StoreAllSucceeds(base, next, adds[1..], reduce);
        hide PrefixReplays;
        forall k | 1 < k <= |adds|
          ensures PrefixReplays(base, pending, adds, k, reduce) <==> PrefixReplays(base, next, adds[1..], k - 1, reduce)
        {
          PrefixReplaysCons(base, pending, adds, k, reduce);
        }
        if forall k | 0 < k <= |adds| :: PrefixReplays(base, pending, adds, k, reduce) {
          forall k | 0 < k <= |adds| - 1 ensures PrefixReplays(base, next, adds[1..], k, reduce) {
            assert PrefixReplays(base, pending, adds, k + 1, reduce);
          }
        }
      }
    }
  }

  /**
   * With reducers that may throw, what a store has taken in one order it takes in another exactly when every prefix of
   * that order replays; it then ends the same. Reducers that never throw leave no such condition.
   */
  lemma AnotherOrder<T(!new)>(base: T, pending: seq<Entry>, adds: seq<Entry>, others: seq<Entry>,
                       reduce: (T, Entry) -> Option<T>)
    requires ValidEntries(pending) && multiset(adds) == multiset(others)
    requires StoreAll(base, pending, adds, reduce).Some?
    ensures StoreAll(base, pending, others, reduce).Some? <==>
              forall k | 0 < k <= |others| :: PrefixReplays(base, pending, others, k, reduce)
    ensures StoreAll(base, pending, others, reduce).Some? ==>
              StoreAll(base, pending, others, reduce) == StoreAll(base, pending, adds, reduce)
    ensures NeverThrows(reduce) ==> StoreAll(base, pending, others, reduce).Some?
  {
    StoreAllSucceeds(base, pending, adds, reduce);
    StoreAllSucceeds(base, pending, others, reduce);
    ArrivalOrderIsIrrelevant(base, pending, adds, others, reduce);
    if NeverThrows(reduce) {
      forall k | 0 < k <= |others| ensures PrefixReplays(base, pending, others, k, reduce) {
        AddAllPrefix(pending, others, k);
        AlwaysReplays(base, AddAll(pending, others[..k]).value, reduce);
      }
    }
  }

  ghost predicate NeverThrows<T(!new)>(reduce: (T, Entry) -> Option<T>) {
    forall t, e :: reduce(t, e).Some?
  }

  lemma {:induction false} AlwaysReplays<T(!new)>(base: T, pending: seq<Entry>, reduce: (T, Entry) -> Option<T>)
    requires NeverThrows(reduce)
    ensures Replay(base, pending, reduce).Some?
    decreases |pending|
  {
    if pending != [] {
      assert reduce(base, pending[0]).Some?;
      AlwaysReplays(reduce(base, pending[0]).value, pending[1..], reduce);
    }
  }

  lemma {:induction false} AddAllPrefix(pending: seq<Entry>, adds: seq<Entry>, k: nat)
    requires AddAll(pending, adds).Some? && k <= |adds|
    ensures AddAll(pending, adds[..k]).Some?
    decreases |adds|
  {
    if k > 0 {
      assert adds[..k][0] == adds[0] && adds[..k][1..] == adds[1..][..k - 1];
      AddAllPrefix(Inserted(pending, adds[0]), adds[1..], k - 1);
    }
  }

  /** A reducer over the existence of one thing: edits of what does not exist throw. */
  function Make(made: bool, e: Entry): Option<bool> {
    if e.kind == "create" || made then Some(true) else None
  }

  /** The condition can fail: an edit of what a creation makes is taken after the creation and not before it. */
  lemma OrderCanMatter()
    ensures var create, edit := Entry(1, "create", ""), Entry(2, "edit", "");
            var reduce := Make;
            StoreAll(false, [], [create, edit], reduce) == Some([create, edit])
              && StoreAll(false, [], [edit, create], reduce) == None
  {
    var create, edit := Entry(1, "create", ""), Entry(2, "edit", "");
    var reduce := Make;
    assert Replay(false, [create], reduce) == Some(true);
    assert [create, edit][1..] == [edit];
    assert Inserted([], create) == [create];
    assert Inserted([create], edit) == [create, edit] by { assert [create][1..] == []; }
    assert Replay(false, [create, edit], reduce) == Replay(true, [edit], reduce) == Some(true);
    assert ValidEntries([create]) && ValidEntries([create, edit]);
    assert Inserted([], edit) == [edit] && Replay(false, [edit], reduce) == None;
    assert StoreAll(false, [create], [edit], reduce) == Some([create, edit]);
  }

  // ---- the store -------------------------------------------------------------------------------

  class CacheMutationStore<T(!new)> {
    const reduce: (T, Entry) -> Option<T>
    var base: T
    var pending: seq<Entry>
    var view: T

    /** The cached view is the replay, whatever happened. */
    ghost predicate Valid()
      reads this
    {
      ValidEntries(pending) && Replay(base, pending, reduce) == Some(view)
    }

    constructor (base: T, reduce: (T, Entry) -> Option<T>)
      ensures Valid() && this.base == base && pending == [] && view == base && this.reduce == reduce
    {
      this.base := base;
      this.reduce := reduce;
      pending := [];
      view := base;
    }

    /** Replay first; a reducer that throws leaves everything as it was (cache-mutation-store.ts:26-30). */
    method Save(newBase: T, newPending: seq<Entry>) returns (ok: bool)
      requires Valid() && ValidEntries(newPending)
      modifies this
      ensures Valid() && (ok <==> Replay(newBase, newPending, reduce).Some?)
      ensures if ok then base == newBase && pending == newPending
              else base == old(base) && pending == old(pending) && view == old(view)
    {
      var current, k := Some(newBase), 0;
      while k < |newPending| && current.Some?
        invariant 0 <= k <= |newPending|
        invariant current.Some? ==>
                    Replay(newBase, newPending, reduce) == Replay(current.value, newPending[k..], reduce)
        invariant current.None? ==> Replay(newBase, newPending, reduce) == None
      {
        assert newPending[k..][1..] == newPending[k + 1..];
        current := reduce(current.value, newPending[k]);
        k := k + 1;
      }
      ok := current.Some?;
      if ok { base, pending, view := newBase, newPending, current.value; }
    }

    method Add(e: Entry) returns (ok: bool)
      requires Valid()
      modifies this
      ensures Valid() && base == old(base)
      ensures ok <==>
                e.actionId > 0 && e.kind != "" && !HasId(old(pending), e.actionId)
                  && Replay(base, Inserted(old(pending), e), reduce).Some?
      ensures pending == if ok then Inserted(old(pending), e) else old(pending)
      ensures !ok ==> view == old(view)
    {
      var next := Inserted(pending, e);
      InsertedOrdered(pending, e);
      assert e in next && (HasId(pending, e.actionId) <==> exists x | x in pending :: x.actionId == e.actionId);
      if !ValidEntries(next) {
        if e.actionId > 0 && e.kind != "" && Ordered(next) {
          forall i | 0 <= i < |next| ensures next[i].actionId > 0 && next[i].kind != "" { assert next[i] in next; }
        }
        return false;
      }
      ok := Save(base, next);
    }

    method Remove(actionId: nat) returns (ok: bool)
      requires Valid()
      modifies this
      ensures Valid() && base == old(base)
      ensures pending == if ok then Without(old(pending), actionId) else old(pending)
      ensures ok ==> !HasId(pending, actionId) && Replay(base, Without(old(pending), actionId), reduce) == Some(view)
      ensures !ok ==> view == old(view)
    {
      WithoutOrdered(pending, actionId);
      ok := Save(base, Without(pending, actionId));
    }

    method Refresh(newBase: T) returns (ok: bool)
      requires Valid()
      modifies this
      ensures Valid() && pending == old(pending) && (ok <==> Replay(newBase, pending, reduce).Some?)
      ensures if ok then base == newBase else base == old(base) && view == old(view)
    {
      ok := Save(newBase, pending);
    }

    /** Retiring the oldest effect together with a base that already includes it changes nothing a reader sees. */
    method Commit(actionId: nat, newBase: T) returns (ok: bool)
      requires Valid()
      modifies this
      ensures Valid()
      ensures if ok then base == newBase && pending == Without(old(pending), actionId)
              else base == old(base) && pending == old(pending) && view == old(view)
      ensures old(pending) != [] && actionId == old(pending)[0].actionId
              && reduce(old(base), old(pending)[0]) == Some(newBase) ==>
                ok && view == old(view) && pending == old(pending)[1..]
    {
      WithoutOrdered(pending, actionId);
      if pending != [] && actionId == pending[0].actionId { WithoutHead(pending); }
      ok := Save(newBase, Without(pending, actionId));
    }
  }
}
