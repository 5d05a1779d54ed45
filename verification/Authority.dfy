/** Grants, observers, tool decisions and the preflight stash as one transition system (store.ts, kernel.ts). */
module Authority {
  import opened Wrappers

  type Handle = string
  type Session = string
  type CallId = string
  type Person = string

  datatype GrantStatus = Active | Revoked | Lockdown
  datatype Audience = OwnerOnly | Shared
  datatype Scope = AgentScope | SessionScope(key: Session)
  datatype ResourceId = ResourceId(vendor: string, resourceType: string, resourceKey: string, operatorId: string)

  /** The columns of the unique index `grant_identity` (store.ts:13). */
  datatype GrantKey = GrantKey(agentId: string, resource: ResourceId, scope: Scope)

  datatype Grant = Grant(handle: Handle, cellId: string, key: GrantKey, audience: Audience, status: GrantStatus,
                         expiresAt: Option<nat>)

  /** A preflighted call; `serial` numbers the preflights of the whole history. */
  datatype Preflight = Preflight(serial: nat, agentId: string, sessionKey: Session, tool: string, params: string,
                                 grant: Grant, expiresAt: nat)

  /** A recorded decision on a call; `serial` numbers the decisions of the whole history. */
  datatype Decision = Decision(serial: nat, call: CallId, tool: string, params: string, allow: bool)

  /** History: a call that reached a driver session, by which preflight and, if approved, by which decision. */
  datatype Call = Call(id: CallId, preflight: nat, tool: string, params: string, approval: Option<nat>)

  /**
   * `stash` is volatile; `preflights`, `decided` and `calls` are histories. `observers` maps each observer to its
   * taint.
   */
  datatype State = State(now: nat, grants: map<Handle, Grant>, observers: map<Session, map<Person, bool>>,
                         decisions: map<CallId, Decision>, stash: map<CallId, Preflight>,
                         preflights: seq<Preflight>, decided: seq<Decision>, calls: seq<Call>)

  const CELL := "default"

  function ObserversOf(s: State, session: Session): map<Person, bool> {
    if session in s.observers then s.observers[session] else map[]
  }

  /** store.ts:33. */
  predicate Authorizes(s: State, expected: Grant, agentId: string, sessionKey: Session) {
    expected.handle in s.grants &&
    var g := s.grants[expected.handle];
    && g.status == Active && g.audience == OwnerOnly && (g.expiresAt.Some? ==> s.now < g.expiresAt.value)
    && g.key.agentId == agentId && g.cellId == CELL
       && (g.key.scope == AgentScope || g.key.scope == SessionScope(sessionKey))
    && g.key.resource == expected.key.resource
  }

  /** Everything `exec` requires of a stashed call before it reaches the session (kernel.ts:66). */
  predicate Admits(s: State, id: CallId, tool: string, params: string) {
    id in s.stash &&
    var p := s.stash[id];
    && s.now <= p.expiresAt && p.tool == tool && p.params == params
    && Authorizes(s, p.grant, p.agentId, p.sessionKey)
    && !(p.grant.audience == OwnerOnly && ObserversOf(s, p.sessionKey) != map[])
  }

  // ---- the invariant ---------------------------------------------------------------------------

  predicate GrantsGood(s: State) {
    && (forall h | h in s.grants :: s.grants[h].handle == h)
    && (forall h, k | h in s.grants && k in s.grants && s.grants[h].key == s.grants[k].key :: h == k)
  }

  predicate StashGood(s: State) {
    && (forall id | id in s.stash ::
          s.stash[id].serial < |s.preflights| && s.preflights[s.stash[id].serial] == s.stash[id])
    && (forall id, k | id in s.stash && k in s.stash && s.stash[id].serial == s.stash[k].serial :: id == k)
    && (forall id, i | id in s.stash && 0 <= i < |s.calls| :: s.calls[i].preflight != s.stash[id].serial)
  }

  /** The grant on record under this handle, unchanged but for its status. */
  predicate OnRecord(s: State, g: Grant) {
    g.handle in s.grants && g.audience == OwnerOnly && s.grants[g.handle] == g.(status := s.grants[g.handle].status)
  }

  predicate PreflightsGood(s: State) {
    forall i | 0 <= i < |s.preflights| :: s.preflights[i].serial == i && OnRecord(s, s.preflights[i].grant)
  }

  predicate DecisionsGood(s: State) {
    && (forall id | id in s.decisions ::
          s.decisions[id].serial < |s.decided| && s.decided[s.decisions[id].serial] == s.decisions[id]
            && s.decisions[id].call == id)
    && (forall id, i | id in s.decisions && 0 <= i < |s.calls| :: s.calls[i].approval != Some(s.decisions[id].serial))
  }

  predicate Allows(d: Decision, c: Call) {
    d.allow && d.call == c.id && d.tool == c.tool && d.params == c.params
  }

  predicate CallGood(s: State, c: Call) {
    && c.preflight < |s.preflights| && s.preflights[c.preflight].tool == c.tool
       && s.preflights[c.preflight].params == c.params
    && (c.approval.Some? ==> c.approval.value < |s.decided| && Allows(s.decided[c.approval.value], c))
  }

  predicate CallsGood(s: State) {
    && (forall i | 0 <= i < |s.calls| :: CallGood(s, s.calls[i]))
    && (forall i, j | 0 <= i < j < |s.calls| :: s.calls[i].preflight != s.calls[j].preflight)
    && (forall i, j | 0 <= i < j < |s.calls| && s.calls[i].approval.Some? :: s.calls[i].approval != s.calls[j].approval)
  }

  predicate StateGood(s: State) {
    GrantsGood(s) && StashGood(s) && PreflightsGood(s) && DecisionsGood(s) && CallsGood(s)
  }

  const EMPTY_STATE := State(0, map[], map[], map[], map[], [], [], [])

  type GoodState = s: State | StateGood(s) witness EMPTY_STATE

  // ---- steps -----------------------------------------------------------------------------------

  datatype Event =
    | Pass(time: nat)
    | Introduce(grant: Grant)
    | SetStatus(handle: Handle, status: GrantStatus)
    | Observe(session: Session, people: set<Person>)
    | Taint(session: Session, person: Person)
    | Stash(id: CallId, agentId: string, sessionKey: Session, tool: string, params: string, grant: Grant,
        expiresAt: nat)
    | Forget(ids: set<CallId>)
    | Decide(id: CallId, tool: string, params: string, allow: bool)
    | Execute(id: CallId, tool: string, params: string)
    | Restart

  /** What the kernel's own callers guarantee about each event. */
  predicate Possible(s: State, e: Event) {
    match e
    // Handles are fresh random strings; introductions are active and for the owner only (kernel.ts:98).
    case Introduce(g) => g.handle !in s.grants && g.status == Active && g.audience == OwnerOnly
    // kernel.ts:101 and approvals.ts:14 are the only callers.
    case SetStatus(h, status) => status != Active
    // Every caller adds to the observers it has just read (kernel.ts:80, 90).
    case Observe(session, people) => ObserversOf(s, session).Keys <= people
    // The grant was on record when the preflight resolved it; by now its status may be another.
    case Stash(_, _, _, _, _, g, _) => OnRecord(s, g)
    case _ => true
  }

  predicate KeyTaken(s: State, key: GrantKey) {
    exists h | h in s.grants :: s.grants[h].key == key
  }

  function Next(s: State, e: Event): State {
    match e
    case Pass(time) => if time > s.now then s.(now := time) else s
    // INSERT OR IGNORE on both keys.
    case Introduce(g) => if g.handle in s.grants || KeyTaken(s, g.key) then s else s.(grants := s.grants[g.handle := g])
    case SetStatus(h, status) =>
      if h in s.grants then s.(grants := s.grants[h := s.grants[h].(status := status)]) else s
    case Observe(session, people) => s.(observers := s.observers[session := Replaced(ObserversOf(s, session), people)])
    case Taint(session, person) => s.(observers := s.observers[session := ObserversOf(s, session)[person := true]])
    case Stash(id, agentId, sessionKey, tool, params, g, expiresAt) =>
      var p := Preflight(|s.preflights|, agentId, sessionKey, tool, params, g, expiresAt);
      s.(stash := s.stash[id := p], preflights := s.preflights + [p])
    case Forget(ids) => s.(stash := s.stash - ids)
    case Decide(id, tool, params, allow) =>
      var d := Decision(|s.decided|, id, tool, params, allow);
      s.(decisions := s.decisions[id := d], decided := s.decided + [d])
    case Execute(id, tool, params) =>
      var spent := s.(stash := s.stash - {id});
      if !Admits(s, id, tool, params) then spent
      else
        var c := Call(id, s.stash[id].serial, tool, params, ApprovalOf(s, id, tool, params));
        spent.(decisions := s.decisions - {id}, calls := s.calls + [c])
    case Restart => s.(stash := map[])
  }

  /** Untainted rows are replaced by `people`, tainted rows stay (store.ts:65). */
  function Replaced(rows: map<Person, bool>, people: set<Person>): map<Person, bool> {
    map p | p in people + rows.Keys && (p in people || rows[p]) :: p in rows && rows[p]
  }

  /** The decision a call consumes, if it allows exactly this call (store.ts:69). */
  function ApprovalOf(s: State, id: CallId, tool: string, params: string): Option<nat> {
    if id in s.decisions && s.decisions[id].tool == tool && s.decisions[id].params == params && s.decisions[id].allow
    then Some(s.decisions[id].serial)
    else None
  }

  lemma NextKeepsGrants(s: State, e: Event)
    requires GrantsGood(s) && Possible(s, e)
    ensures GrantsGood(Next(s, e))
  {
  }

  lemma StashKeepsStash(s: State, e: Event)
    requires StashGood(s) && CallsGood(s) && e.Stash?
    ensures StashGood(Next(s, e))
  {
    forall i | 0 <= i < |s.calls| ensures s.calls[i].preflight < |s.preflights| { assert CallGood(s, s.calls[i]); }
    hide Admits, ApprovalOf, Replaced, KeyTaken, CallsGood, CallGood;
  }

  /** An entry goes, with at most the call it was for. */
  lemma StashSpent(s: State, s': State, id: CallId)
    requires StashGood(s) && s'.stash == s.stash - {id} && s'.preflights == s.preflights
    requires s'.calls == s.calls
             || (id in s.stash && |s'.calls| == |s.calls| + 1 && s'.calls[..|s.calls|] == s.calls
                 && s'.calls[|s.calls|].preflight == s.stash[id].serial)
    ensures StashGood(s')
  {
    forall k, i | k in s'.stash && 0 <= i < |s'.calls| ensures s'.calls[i].preflight != s'.stash[k].serial {
      assert i < |s.calls| ==> s'.calls[i] == s.calls[i];
    }
  }

  lemma ExecuteKeepsStash(s: State, e: Event)
    requires StashGood(s) && e.Execute?
    ensures StashGood(Next(s, e))
  {
    hide ApprovalOf, Replaced, KeyTaken, Authorizes, ObserversOf;
    if Admits(s, e.id, e.tool, e.params) {
      StashSpent(s, Next(s, e), e.id);
    } else {
      StashSpent(s, Next(s, e), e.id);
    }
  }

  lemma NextKeepsStash(s: State, e: Event)
    requires StashGood(s) && CallsGood(s)
    ensures StashGood(Next(s, e))
  {
    if e.Stash? {
      StashKeepsStash(s, e);
    } else if e.Execute? {
      ExecuteKeepsStash(s, e);
    } else {
      hide Admits, ApprovalOf, Replaced, KeyTaken, CallsGood;
    }
  }

  lemma NextKeepsPreflights(s: State, e: Event)
    requires PreflightsGood(s) && Possible(s, e)
    ensures PreflightsGood(Next(s, e))
  {
    hide Admits, ApprovalOf, Replaced, KeyTaken;
    forall i | 0 <= i < |s.preflights| ensures OnRecord(Next(s, e), s.preflights[i].grant) {
      assert OnRecord(s, s.preflights[i].grant);
    }
  }

  lemma DecideKeepsDecisions(s: State, e: Event)
    requires DecisionsGood(s) && e.Decide? && forall i | 0 <= i < |s.calls| :: CallGood(s, s.calls[i])
    ensures DecisionsGood(Next(s, e))
  {
    forall i | 0 <= i < |s.calls| ensures s.calls[i].approval != Some(|s.decided|) { assert CallGood(s, s.calls[i]); }
    hide Admits, ApprovalOf, Replaced, KeyTaken, CallGood, Allows;
  }

  lemma ExecuteKeepsDecisions(s: State, e: Event)
    requires DecisionsGood(s) && e.Execute? && Admits(s, e.id, e.tool, e.params)
    ensures DecisionsGood(Next(s, e))
  {
    hide Admits, Replaced, KeyTaken;
  }

  lemma DecisionsStay(s: State, e: Event)
    requires DecisionsGood(s) && !e.Decide? && (e.Execute? ==> !Admits(s, e.id, e.tool, e.params))
    ensures DecisionsGood(Next(s, e))
  {
    hide Admits, Replaced, KeyTaken, ApprovalOf, ObserversOf;
    assert Next(s, e).decisions == s.decisions && Next(s, e).decided == s.decided && Next(s, e).calls == s.calls;
  }

  lemma NextKeepsDecisions(s: State, e: Event)
    requires DecisionsGood(s) && CallsGood(s)
    ensures DecisionsGood(Next(s, e))
  {
    if e.Decide? {
      forall i | 0 <= i < |s.calls| ensures CallGood(s, s.calls[i]) {}
      DecideKeepsDecisions(s, e);
    } else if e.Execute? && Admits(s, e.id, e.tool, e.params) {
      ExecuteKeepsDecisions(s, e);
    } else {
      DecisionsStay(s, e);
    }
  }

  /** An executed call takes its preflight and its decision out of circulation. */
  lemma ExecuteKeepsCalls(s: State, id: CallId, tool: string, params: string)
    requires StashGood(s) && DecisionsGood(s) && CallsGood(s) && Admits(s, id, tool, params)
    ensures CallsGood(Next(s, Execute(id, tool, params)))
  {
    var s' := Next(s, Execute(id, tool, params));
    hide Authorizes, Replaced, KeyTaken;
    forall i | 0 <= i < |s'.calls| ensures CallGood(s', s'.calls[i]) {
      if i < |s.calls| { assert CallGood(s, s.calls[i]); }
    }
  }

  lemma CallsStay(s: State, e: Event)
    requires e.Execute? ==> !Admits(s, e.id, e.tool, e.params)
    ensures Next(s, e).calls == s.calls && s.preflights <= Next(s, e).preflights && s.decided <= Next(s, e).decided
  {
    hide Admits, ApprovalOf, Replaced, KeyTaken, ObserversOf;
  }

  lemma NextKeepsCalls(s: State, e: Event)
    requires StashGood(s) && DecisionsGood(s) && CallsGood(s)
    ensures CallsGood(Next(s, e))
  {
    if e.Execute? && Admits(s, e.id, e.tool, e.params) {
      ExecuteKeepsCalls(s, e.id, e.tool, e.params);
    } else {
      CallsStay(s, e);
      var s' := Next(s, e);
      hide Next, Allows, StashGood, DecisionsGood;
      forall i | 0 <= i < |s'.calls| ensures CallGood(s', s'.calls[i]) { assert CallGood(s, s.calls[i]); }
    }
  }

  lemma NextKeepsGood(s: State, e: Event)
    requires StateGood(s) && Possible(s, e)
    ensures StateGood(Next(s, e))
  {
    hide GrantsGood, StashGood, PreflightsGood, DecisionsGood, CallsGood, Next, Possible;
    NextKeepsGrants(s, e);
    NextKeepsStash(s, e);
    NextKeepsPreflights(s, e);
    NextKeepsDecisions(s, e);
    NextKeepsCalls(s, e);
  }

  // ---- runs ------------------------------------------------------------------------------------

  ghost predicate IsRun(run: seq<State>, events: seq<Event>) {
    && |run| == |events| + 1 && StateGood(run[0])
    && forall i | 0 <= i < |events| :: Possible(run[i], events[i]) && run[i + 1] == Next(run[i], events[i])
  }

  lemma {:induction false} RunGood(run: seq<State>, events: seq<Event>, i: nat)
    requires IsRun(run, events) && i < |run|
    ensures StateGood(run[i])
  {
    if i > 0 {
      RunGood(run, events, i - 1);
      hide StateGood, Next;
      NextKeepsGood(run[i - 1], events[i - 1]);
    }
  }

  /**
   * At the instant a call reaches a session its grant is active for that agent, session and cell, and nobody observes.
   */
  lemma CallsAreAuthorized(s: State, e: Event)
    requires StateGood(s) && Possible(s, e)
    ensures s.calls <= Next(s, e).calls && |Next(s, e).calls| <= |s.calls| + 1
    ensures |Next(s, e).calls| > |s.calls| ==>
              var c := Next(s, e).calls[|s.calls|];
              && c.preflight < |s.preflights| && c.tool == s.preflights[c.preflight].tool
                 && c.params == s.preflights[c.preflight].params
              && var p := s.preflights[c.preflight];
                 Authorizes(s, p.grant, p.agentId, p.sessionKey) && ObserversOf(s, p.sessionKey) == map[]
  {
    if e.Execute? && Admits(s, e.id, e.tool, e.params) {
      var p := s.stash[e.id];
      assert OnRecord(s, s.preflights[p.serial].grant);
    }
  }

  /** Over a whole run each preflight executes at most once, with its own tool and parameters. */
  lemma OneCallPerPreflight(run: seq<State>, events: seq<Event>, i: nat, a: nat, b: nat)
    requires IsRun(run, events) && i < |run| && a < b < |run[i].calls|
    ensures run[i].calls[a].preflight != run[i].calls[b].preflight
    ensures run[i].calls[a].preflight < |run[i].preflights|
    ensures run[i].preflights[run[i].calls[a].preflight].tool == run[i].calls[a].tool
    ensures run[i].preflights[run[i].calls[a].preflight].params == run[i].calls[a].params
    // An operator's approval is used for one call, the one it was given for.
    ensures run[i].calls[a].approval.Some? ==>
              run[i].calls[a].approval != run[i].calls[b].approval && run[i].calls[a].approval.value < |run[i].decided|
              && Allows(run[i].decided[run[i].calls[a].approval.value], run[i].calls[a])
  {
    RunGood(run, events, i);
    assert CallGood(run[i], run[i].calls[a]);
  }

  /** Grants keep everything but their status, which never becomes active again. */
  predicate GrantsNarrow(s: State, s': State) {
    forall h | h in s.grants :: h in s'.grants && s'.grants[h] == s.grants[h].(status := s'.grants[h].status)
                                && (s'.grants[h].status == Active ==> s.grants[h].status == Active)
  }

  /** Observers and taints stay. */
  ghost predicate ObserversGrow(s: State, s': State) {
    forall x, p | p in ObserversOf(s, x) :: p in ObserversOf(s', x) && (ObserversOf(s, x)[p] ==> ObserversOf(s', x)[p])
  }

  /** Authority only shrinks: what a later state keeps of an earlier one. */
  ghost predicate Narrows(s: State, s': State) {
    GrantsNarrow(s, s') && ObserversGrow(s, s') && s.calls <= s'.calls
  }

  lemma NextNarrowsGrants(s: State, e: Event)
    requires Possible(s, e)
    ensures GrantsNarrow(s, Next(s, e))
  {
    hide Admits, ApprovalOf, Replaced, ObserversOf, KeyTaken, OnRecord;
    match e {
      case Introduce(g) =>
      case SetStatus(h, status) =>
        assert Next(s, e).grants == if h in s.grants then s.grants[h := s.grants[h].(status := status)] else s.grants;
      case _ => assert Next(s, e).grants == s.grants;
    }
  }

  lemma NextGrowsObservers(s: State, e: Event)
    requires Possible(s, e)
    ensures ObserversGrow(s, Next(s, e))
  {
    if e.Observe? || e.Taint? {
      hide Admits, ApprovalOf, KeyTaken;
    } else {
      hide Admits, ApprovalOf, KeyTaken, Replaced;
      assert Next(s, e).observers == s.observers;
    }
  }

  lemma NextNarrows(s: State, e: Event)
    requires GrantsGood(s) && Possible(s, e)
    ensures Narrows(s, Next(s, e))
  {
    NextNarrowsGrants(s, e);
    NextGrowsObservers(s, e);
    hide GrantsNarrow, ObserversGrow, Possible, GrantsGood, Admits, ApprovalOf, KeyTaken, Replaced;
  }

  lemma {:induction false} RunNarrows(run: seq<State>, events: seq<Event>, i: nat, j: nat)
    requires IsRun(run, events) && i <= j < |run|
    ensures Narrows(run[i], run[j])
    decreases j - i
  {
    if i < j {
      RunNarrows(run, events, i, j - 1);
      RunGood(run, events, j - 1);
      NextNarrows(run[j - 1], events[j - 1]);
      hide IsRun, Next, StateGood;
      NarrowsTwice(run[i], run[j - 1], run[j]);
    }
  }

  lemma NarrowsTwice(s: State, s1: State, s2: State)
    requires Narrows(s, s1) && Narrows(s1, s2)
    ensures Narrows(s, s2)
  {
  }

  /** What is true of a call just executed. */
  ghost predicate Live(s: State, p: Preflight) {
    && p.grant.handle in s.grants && s.grants[p.grant.handle].status == Active
       && s.grants[p.grant.handle].key == p.grant.key
    && ObserversOf(s, p.sessionKey) == map[]
  }

  lemma NewCallIsLive(s: State, e: Event, n: nat)
    requires StateGood(s) && Possible(s, e) && n < |Next(s, e).calls|
    ensures Next(s, e).calls[n].preflight < |Next(s, e).preflights|
    ensures n >= |s.calls| ==> Live(s, Next(s, e).preflights[Next(s, e).calls[n].preflight])
    ensures n < |s.calls| ==> Next(s, e).calls[n] == s.calls[n] && s.calls[n].preflight < |s.preflights|
                              && Next(s, e).preflights[s.calls[n].preflight] == s.preflights[s.calls[n].preflight]
  {
    hide Next, Possible, GrantsGood, StashGood, DecisionsGood, Allows, ObserversOf;
    CallsAreAuthorized(s, e);
    PreflightsStay(s, e);
    if n < |s.calls| {
      assert CallGood(s, s.calls[n]);
    } else {
      assert OnRecord(s, s.preflights[Next(s, e).calls[n].preflight].grant);
    }
  }

  lemma PreflightsStay(s: State, e: Event)
    ensures s.preflights <= Next(s, e).preflights
  {
  }

  lemma DeadKeysStayDead(s: State, s': State, h: Handle, p: Preflight)
    requires Narrows(s, s') && GrantsGood(s') && h in s.grants && s.grants[h].status != Active && Live(s', p)
    ensures p.grant.key != s.grants[h].key
  {
  }

  /** The last step of a run, with what every step leaves. */
  lemma LastStep(run: seq<State>, events: seq<Event>, i: nat, j: nat, n: nat)
    requires IsRun(run, events) && i <= j < |run| && |run[i].calls| <= n < |run[j].calls|
    ensures i < j <= |events| && StateGood(run[j - 1]) && Possible(run[j - 1], events[j - 1])
    ensures run[j] == Next(run[j - 1], events[j - 1])
    ensures Narrows(run[i], run[j - 1])
  {
    hide StateGood, Next, Possible, Narrows;
    assert i < j;
    RunGood(run, events, j - 1);
    RunNarrows(run, events, i, j - 1);
    StepOfRun(run, events, j - 1);
  }

  lemma StepOfRun(run: seq<State>, events: seq<Event>, i: nat)
    requires IsRun(run, events) && i < |events|
    ensures Possible(run[i], events[i]) && run[i + 1] == Next(run[i], events[i])
  {
    hide Next, Possible;
  }

  /**
   * After a revocation or a lockdown at step `i` no call under that grant executes again, nor under any grant made
   * later for the same agent, resource, operator and scope: introducing it again yields the dead grant.
   */
  lemma {:induction false} NoCallAfterRevocation(run: seq<State>, events: seq<Event>, i: nat, j: nat, h: Handle, n: nat)
    requires IsRun(run, events) && i <= j < |run| && h in run[i].grants && run[i].grants[h].status != Active
    requires |run[i].calls| <= n < |run[j].calls|
    ensures run[j].calls[n].preflight < |run[j].preflights|
    ensures run[j].preflights[run[j].calls[n].preflight].grant.key != run[i].grants[h].key
    decreases j
  {
    hide IsRun, Next, Possible, Live, Narrows, GrantsGood, StashGood, PreflightsGood, DecisionsGood, CallsGood;
    LastStep(run, events, i, j, n);
    NewCallIsLive(run[j - 1], events[j - 1], n);
    if n < |run[j - 1].calls| {
      NoCallAfterRevocation(run, events, i, j - 1, h, n);
    } else {
      DeadKeysStayDead(run[i], run[j - 1], h, run[j].preflights[run[j].calls[n].preflight]);
    }
  }

  /** After the first outside participant at step `i` no call of that session executes again. */
  lemma {:induction false} NoCallAfterOutsider(run: seq<State>, events: seq<Event>, i: nat, j: nat, x: Session,
                                               p: Person, n: nat)
    requires IsRun(run, events) && i <= j < |run| && p in ObserversOf(run[i], x)
    requires |run[i].calls| <= n < |run[j].calls|
    ensures run[j].calls[n].preflight < |run[j].preflights|
    ensures run[j].preflights[run[j].calls[n].preflight].sessionKey != x
    decreases j
  {
    hide IsRun, StateGood, Next, Possible, Narrows, ObserversOf, Live;
    LastStep(run, events, i, j, n);
    StillObserved(run[i], run[j - 1], x, p);
    NewCallIsLive(run[j - 1], events[j - 1], n);
    if n < |run[j - 1].calls| {
      NoCallAfterOutsider(run, events, i, j - 1, x, p, n);
    } else {
      LiveIsAlone(run[j - 1], run[j].preflights[run[j].calls[n].preflight], p);
    }
  }

  lemma StillObserved(s: State, s': State, x: Session, p: Person)
    requires Narrows(s, s') && p in ObserversOf(s, x)
    ensures p in ObserversOf(s', x)
  {
  }

  lemma LiveIsAlone(s: State, f: Preflight, p: Person)
    requires Live(s, f)
    ensures p !in ObserversOf(s, f.sessionKey)
  {
  }

  /** Observers of a session and their taints are never lost. */
  lemma ObserversOnlyGrow(run: seq<State>, events: seq<Event>, i: nat, j: nat, x: Session, p: Person)
    requires IsRun(run, events) && i <= j < |run| && p in ObserversOf(run[i], x)
    ensures p in ObserversOf(run[j], x) && (ObserversOf(run[i], x)[p] ==> ObserversOf(run[j], x)[p])
  {
    RunNarrows(run, events, i, j);
  }
}
