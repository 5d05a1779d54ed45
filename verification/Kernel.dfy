/** The kernel's hooks and operator commands over its store, as far as they carry authority (kernel.ts, store.ts). */
module Kernel {
  import opened Wrappers
  import opened Authority

  const SHARED_AUDIENCE := "gkos:shared-audience"

  lemma ForgetKeepsRecord(s: State, ids: set<CallId>, g: Grant)
    requires OnRecord(s, g)
    ensures OnRecord(Next(s, Forget(ids)), g) && Next(s, Forget(ids)).now == s.now
  {
  }

  class Kernel {
    var state: GoodState

    constructor (found: GoodState)
      ensures state == found
    {
      state := found;
    }

    /** One synchronous step. */
    method Do(e: Event)
      requires Possible(state, e)
      modifies this
      ensures state == Next(old(state), e)
    {
      NextKeepsGood(state, e);
      state := Next(state, e);
    }

    /** store.ts:36-39: the row found by identity, new or old; an old one keeps its status. */
    method InsertGrant(g: Grant) returns (row: Grant)
      requires g.handle !in state.grants && g.status == Active && g.audience == OwnerOnly
      modifies this
      ensures state == Next(old(state), Introduce(g))
      ensures row.handle in state.grants && state.grants[row.handle] == row && row.key == g.key
      ensures KeyTaken(old(state), g.key) ==>
                row.handle in old(state).grants && old(state).grants[row.handle] == row && state == old(state)
      ensures !KeyTaken(old(state), g.key) ==> row == g
    {
      Do(Introduce(g));
      if KeyTaken(state, g.key) {
        var h :| h in state.grants && state.grants[h].key == g.key;
        row := state.grants[h];
      } else {
        row := g;
      }
      assert !KeyTaken(old(state), g.key) ==> state.grants[g.handle] == g;
    }

    /** store.ts:65: drop the untainted rows of the session, then insert, ignoring rows already there. */
    method SetObservers(session: Session, people: set<Person>)
      requires ObserversOf(state, session).Keys <= people
      modifies this
      ensures state == Next(old(state), Observe(session, people))
    {
      var rows := RewriteRows(ObserversOf(state, session), people);
      NextKeepsGood(state, Observe(session, people));
      state := state.(observers := state.observers[session := rows]);
    }

    static method RewriteRows(before: map<Person, bool>, people: set<Person>) returns (rows: map<Person, bool>)
      ensures rows == Replaced(before, people)
    {
      rows := map p | p in before && before[p] :: true;
      assert rows == Replaced(before, {});
      var waiting := people;
      ghost var done: set<Person> := {};
      while waiting != {}
        invariant done + waiting == people && rows == Replaced(before, done)
        decreases waiting
      {
        hide Replaced;
        var p :| p in waiting;
        rows := InsertRow(rows, before, done, p);
        waiting, done := waiting - {p}, done + {p};
      }
      assert done == people;
    }

    /** INSERT OR IGNORE. */
    static method InsertRow(rows: map<Person, bool>, ghost before: map<Person, bool>, ghost done: set<Person>,
                            p: Person)
      returns (next: map<Person, bool>)
      requires rows == Replaced(before, done)
      ensures next == Replaced(before, done + {p})
    {
      hide Replaced;
      OneMoreRow(before, done, p);
      next := if p in rows then rows else rows[p := false];
    }

    /** A participant who is not the owner joins the observers (kernel.ts:80, 90). */
    method AddParticipant(session: Session, sender: Person)
      modifies this
      ensures sender in ObserversOf(state, session) && ObserversGrow(old(state), state)
      ensures state == old(state).(observers := state.observers)
    {
      var people := ObserversOf(state, session).Keys + {sender};
      SetObservers(session, people);
      ghost var rows := ObserversOf(old(state), session);
      assert ObserversOf(state, session) == Replaced(rows, people);
      NextObserversGrow(old(state), session, people);
    }

    /** A turn seen by a shared audience (kernel.ts:79). */
    method SharedTurn(session: Session)
      modifies this
      ensures SHARED_AUDIENCE in ObserversOf(state, session) && ObserversOf(state, session)[SHARED_AUDIENCE]
      ensures state == Next(old(state), Taint(session, SHARED_AUDIENCE))
    {
      Do(Taint(session, SHARED_AUDIENCE));
    }

    /**
     * The end of a preflight: expired entries go, then the call is stashed under the grant it resolved (kernel.ts:93).
     */
    method StashCall(id: CallId, agentId: string, sessionKey: Session, tool: string, params: string, grant: Grant,
                     lifetime: nat)
      requires OnRecord(state, grant)
      modifies this
      ensures state == Next(Next(old(state), Forget(set k | k in old(state).stash
              && old(state).stash[k].expiresAt < old(state).now)),
                            Stash(id, agentId, sessionKey, tool, params, grant, old(state).now + lifetime))
    {
      hide StateGood, Next;
      var expired := set k | k in state.stash && state.stash[k].expiresAt < state.now;
      ForgetKeepsRecord(state, expired, grant);
      Do(Forget(expired));
      Do(Stash(id, agentId, sessionKey, tool, params, grant, state.now + lifetime));
    }

    /** store.ts:69: whatever is recorded for the call is used up by asking. */
    method ConsumeToolApproval(id: CallId, tool: string, params: string) returns (approval: Option<nat>)
      modifies this
      ensures approval == ApprovalOf(old(state), id, tool, params)
      ensures state == old(state).(decisions := old(state).decisions - {id})
    {
      approval := None;
      if id in state.decisions {
        var d := state.decisions[id];
        if d.tool == tool && d.params == params && d.allow { approval := Some(d.serial); }
      }
      WithoutDecisionIsGood(state, id);
      state := state.(decisions := state.decisions - {id});
    }

    /**
     * The execution boundary (kernel.ts:58-66): the stash entry is consumed first, everything is checked again, and
     * only then does the call reach the session, at most once and with its own approval.
     */
    method OnToolResult(id: CallId, tool: string, params: string, isError: bool) returns (executed: bool)
      modifies this
      ensures executed <==> !isError && Admits(old(state), id, tool, params)
      ensures state == if isError then Next(old(state), Forget({id})) else Next(old(state), Execute(id, tool, params))
      ensures id !in state.stash
    {
      hide StateGood, Authorizes, ObserversOf, Replaced, KeyTaken;
      executed := false;
      if isError { Do(Forget({id})); return; }
      NextKeepsGood(state, Execute(id, tool, params));
      ghost var found := state;
      executed := Admits(state, id, tool, params);
      if !executed { Do(Forget({id})); return; }
      var p := state.stash[id];
      Do(Forget({id}));
      var approval := ConsumeToolApproval(id, tool, params);
      assert approval == ApprovalOf(found, id, tool, params);
      state := state.(calls := state.calls + [Call(id, p.serial, tool, params, approval)]);
    }

    /** Authority goes before any cleanup is awaited (kernel.ts:101). */
    method Revoke(handle: Handle) returns (ok: bool)
      modifies this
      ensures ok <==> handle in old(state).grants
      ensures !ok ==> state == old(state)
      ensures ok ==> handle in state.grants && state.grants[handle] == old(state).grants[handle].(status := Revoked)
      ensures ok ==> forall id | id in state.stash :: state.stash[id].grant.handle != handle
      ensures ok ==> state == Next(Next(old(state), SetStatus(handle, Revoked)),
                                  Forget(set k | k in old(state).stash && old(state).stash[k].grant.handle == handle))
    {
      if handle !in state.grants { return false; }
      Do(SetStatus(handle, Revoked));
      var bound := set k | k in state.stash && state.stash[k].grant.handle == handle;
      Do(Forget(bound));
      ok := true;
    }
  }

  lemma OneMoreRow(before: map<Person, bool>, done: set<Person>, p: Person)
    ensures Replaced(before, done + {p}) == if p in Replaced(before, done) then Replaced(before, done)
            else Replaced(before, done)[p := false]
  {
  }

  lemma NextObserversGrow(s: State, session: Session, people: set<Person>)
    requires ObserversOf(s, session).Keys <= people
    ensures ObserversGrow(s, Next(s, Observe(session, people)))
  {
  }

  lemma WithoutDecisionIsGood(s: State, id: CallId)
    requires StateGood(s)
    ensures StateGood(s.(decisions := s.decisions - {id}))
  {
    forall i | 0 <= i < |s.calls| ensures CallGood(s.(decisions := s.decisions - {id}), s.calls[i]) {
      assert CallGood(s, s.calls[i]);
    }
  }
}
