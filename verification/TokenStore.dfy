/** Account records and their refreshes: generations, and one refresh at a time per account (token-store.ts). */
module TokenStore {
  import opened Wrappers

  type Operator = string

  datatype Phase = Waiting | Running | Settled

  /**
   * One `refresh` promise; `cleaned` once its `finally` callback ran. `since` is a history: the writes logged when it
   * began.
   */
  datatype Refresh = Refresh(operator: Operator, generation: nat, phase: Phase, cleaned: bool, since: nat)

  datatype Author = ByPut | ByRemove | ByRefresh(k: nat)
  /** History: a record was written (Some) or deleted (None). */
  datatype Write<V> = Write(operator: Operator, value: Option<V>, author: Author)

  datatype State<V> = State(records: map<Operator, V>, generations: map<Operator, nat>, refreshes: seq<Refresh>,
                             flights: map<Operator, nat>, log: seq<Write<V>>)

  function GenerationOf<V>(s: State<V>, op: Operator): nat {
    if op in s.generations then s.generations[op] else 0
  }

  function WritesTo<V>(log: seq<Write<V>>, op: Operator): nat {
    if log == [] then 0 else WritesTo(log[..|log| - 1], op) + if log[|log| - 1].operator == op then 1 else 0
  }

  /** The record the last write to an account left; `initial` is what the file held when the process started. */
  function LastWritten<V>(initial: map<Operator, V>, log: seq<Write<V>>, op: Operator): Option<V> {
    if log == [] then (if op in initial then Some(initial[op]) else None)
    else if log[|log| - 1].operator == op then log[|log| - 1].value
    else LastWritten(initial, log[..|log| - 1], op)
  }

  function RecordOf<V>(s: State<V>, op: Operator): Option<V> {
    if op in s.records then Some(s.records[op]) else None
  }

  // ---- the invariant ---------------------------------------------------------------------------

  ghost predicate GenerationsCount<V>(s: State<V>) {
    forall op :: GenerationOf(s, op) == WritesTo(s.log, op)
  }

  predicate RefreshGood<V>(s: State<V>, k: nat)
    requires k < |s.refreshes|
  {
    var r := s.refreshes[k];
    && r.since <= |s.log| && r.generation == WritesTo(s.log[..r.since], r.operator)
    && (r.phase != Settled ==> r.operator in s.flights && s.flights[r.operator] == k)
    && (r.cleaned ==> r.phase == Settled)
  }

  predicate FlightsGood<V>(s: State<V>) {
    && (forall k | 0 <= k < |s.refreshes| :: RefreshGood(s, k))
    && (forall op | op in s.flights ::
          s.flights[op] < |s.refreshes| && s.refreshes[s.flights[op]].operator == op
            && !s.refreshes[s.flights[op]].cleaned)
  }

  /** A refresh wrote only if nothing else had written its account since it began. */
  predicate WriteGood<V>(s: State<V>, n: nat)
    requires n < |s.log|
  {
    s.log[n].author.ByRefresh? ==>
      var k := s.log[n].author.k;
      k < |s.refreshes| && s.refreshes[k].operator == s.log[n].operator && s.refreshes[k].since <= n &&
      forall i | s.refreshes[k].since <= i < n :: s.log[i].operator != s.log[n].operator
  }

  ghost predicate StateGood<V>(s: State<V>, initial: map<Operator, V>) {
    && GenerationsCount(s) && FlightsGood(s)
    && (forall n | 0 <= n < |s.log| :: WriteGood(s, n))
    && (forall op :: RecordOf(s, op) == LastWritten(initial, s.log, op))
  }

  // ---- steps -----------------------------------------------------------------------------------

  datatype Event<V> =
    | Put(op: Operator, value: V) | Remove(op: Operator) | Begin(op: Operator)
    | Run(k: nat) | Return(k: nat, value: V) | Throw(k: nat) | Cleanup(k: nat)

  predicate Enabled<V>(s: State<V>, e: Event<V>) {
    match e
    case Run(k) => k < |s.refreshes| && s.refreshes[k].phase == Waiting
    case Return(k, _) => k < |s.refreshes| && s.refreshes[k].phase == Running
    case Throw(k) => k < |s.refreshes| && s.refreshes[k].phase == Running
    case Cleanup(k) => k < |s.refreshes| && s.refreshes[k].phase == Settled && !s.refreshes[k].cleaned
    case _ => true
  }

  function Written<V>(s: State<V>, op: Operator, value: Option<V>, author: Author): State<V> {
    s.(records := if value.Some? then s.records[op := value.value] else s.records - {op},
       generations := s.generations[op := GenerationOf(s, op) + 1], log := s.log + [Write(op, value, author)])
  }

  function SetPhase<V>(s: State<V>, k: nat, p: Phase): State<V>
    requires k < |s.refreshes|
  {
    s.(refreshes := s.refreshes[k := s.refreshes[k].(phase := p)])
  }

  function Next<V>(s: State<V>, e: Event<V>): State<V>
    requires Enabled(s, e)
  {
    match e
    case Put(op, value) => Written(s, op, Some(value), ByPut)
    case Remove(op) => Written(s, op, None, ByRemove)
    // A refresh in flight is shared (token-store.ts:57-58).
    case Begin(op) =>
      if op in s.flights then s
      else s.(refreshes := s.refreshes + [Refresh(op, GenerationOf(s, op), Waiting, false, |s.log|)],
          flights := s.flights[op := |s.refreshes|])
    case Run(k) => SetPhase(s, k, Running)
    // A put or remove meanwhile supersedes the result (token-store.ts:60-62).
    case Return(k, value) =>
      var r := s.refreshes[k];
      if GenerationOf(s, r.operator) != r.generation then SetPhase(s, k, Settled)
      else SetPhase(Written(s, r.operator, Some(value), ByRefresh(k)), k, Settled)
    case Throw(k) => SetPhase(s, k, Settled)
    case Cleanup(k) =>
      var op := s.refreshes[k].operator;
      s.(refreshes := s.refreshes[k := s.refreshes[k].(cleaned := true)],
         flights := if op in s.flights && s.flights[op] == k then s.flights - {op} else s.flights)
  }

  lemma {:induction false} NoneSince<V>(log: seq<Write<V>>, since: nat, op: Operator)
    requires since <= |log|
    ensures WritesTo(log[..since], op) <= WritesTo(log, op)
    ensures WritesTo(log[..since], op) == WritesTo(log, op) <==> forall i | since <= i < |log| :: log[i].operator != op
    decreases |log|
  {
    if since == |log| {
      assert log[..since] == log;
    } else {
      var front := log[..|log| - 1];
      NoneSince(front, since, op);
      assert front[..since] == log[..since];
      assert forall i | since <= i < |log| - 1 :: front[i] == log[i];
    }
  }

  lemma WrittenKeepsGood<V>(s: State<V>, initial: map<Operator, V>, op: Operator, value: Option<V>, author: Author)
    requires StateGood(s, initial)
    requires author.ByRefresh? ==>
               author.k < |s.refreshes| && s.refreshes[author.k].operator == op
                 && GenerationOf(s, op) == s.refreshes[author.k].generation
    ensures StateGood(Written(s, op, value, author), initial)
  {
    var s' := Written(s, op, value, author);
    var log := s'.log;
    assert log[..|log| - 1] == s.log;
    forall k | 0 <= k < |s'.refreshes| ensures RefreshGood(s', k) {
      assert RefreshGood(s, k) && log[..s.refreshes[k].since] == s.log[..s.refreshes[k].since];
    }
    forall n | 0 <= n < |log| ensures WriteGood(s', n) {
      if n < |s.log| {
        assert WriteGood(s, n);
      } else if author.ByRefresh? {
        assert RefreshGood(s, author.k);
        NoneSince(s.log, s.refreshes[author.k].since, op);
      }
    }
  }

  lemma PhaseKeepsGood<V>(s: State<V>, initial: map<Operator, V>, k: nat, p: Phase)
    requires StateGood(s, initial) && k < |s.refreshes| && s.refreshes[k].phase != Settled
    ensures StateGood(SetPhase(s, k, p), initial)
  {
    var s' := SetPhase(s, k, p);
    forall j | 0 <= j < |s'.refreshes| ensures RefreshGood(s', j) { assert RefreshGood(s, j); }
    forall n | 0 <= n < |s.log| ensures WriteGood(s', n) { assert WriteGood(s, n); }
    forall op
      ensures RecordOf(s', op) == LastWritten(initial, s'.log, op) && GenerationOf(s', op) == WritesTo(s'.log, op)
    {
      assert RecordOf(s, op) == LastWritten(initial, s.log, op) && GenerationOf(s, op) == WritesTo(s.log, op);
    }
  }

  lemma BeginKeepsGood<V>(s: State<V>, initial: map<Operator, V>, op: Operator)
    requires StateGood(s, initial)
    ensures StateGood(Next(s, Begin(op)), initial)
  {
    var s' := Next(s, Begin(op));
    assert s.log[..|s.log|] == s.log;
    forall j | 0 <= j < |s'.refreshes| ensures RefreshGood(s', j) { if j < |s.refreshes| { assert RefreshGood(s, j); } }
    forall n | 0 <= n < |s.log| ensures WriteGood(s', n) { assert WriteGood(s, n); }
    forall x ensures RecordOf(s', x) == LastWritten(initial, s'.log, x) && GenerationOf(s', x) == WritesTo(s'.log, x) {
      assert RecordOf(s, x) == LastWritten(initial, s.log, x) && GenerationOf(s, x) == WritesTo(s.log, x);
    }
  }

  lemma CleanupKeepsGood<V>(s: State<V>, initial: map<Operator, V>, k: nat)
    requires StateGood(s, initial) && Enabled(s, Cleanup(k))
    ensures StateGood(Next(s, Cleanup(k)), initial)
  {
    var s' := Next(s, Cleanup(k));
    forall j | 0 <= j < |s'.refreshes| ensures RefreshGood(s', j) { assert RefreshGood(s, j); }
    forall n | 0 <= n < |s.log| ensures WriteGood(s', n) { assert WriteGood(s, n); }
    forall x ensures RecordOf(s', x) == LastWritten(initial, s'.log, x) && GenerationOf(s', x) == WritesTo(s'.log, x) {
      assert RecordOf(s, x) == LastWritten(initial, s.log, x) && GenerationOf(s, x) == WritesTo(s.log, x);
    }
  }

  lemma NextKeepsGood<V>(s: State<V>, initial: map<Operator, V>, e: Event<V>)
    requires StateGood(s, initial) && Enabled(s, e)
    ensures StateGood(Next(s, e), initial)
  {
    hide StateGood;
    match e
    case Put(op, value) => WrittenKeepsGood(s, initial, op, Some(value), ByPut);
    case Remove(op) => WrittenKeepsGood(s, initial, op, None, ByRemove);
    case Begin(op) => BeginKeepsGood(s, initial, op);
    case Run(k) => PhaseKeepsGood(s, initial, k, Running);
    case Return(k, value) =>
      var r := s.refreshes[k];
      if GenerationOf(s, r.operator) == r.generation {
        WrittenKeepsGood(s, initial, r.operator, Some(value), ByRefresh(k));
        PhaseKeepsGood(Written(s, r.operator, Some(value), ByRefresh(k)), initial, k, Settled);
      } else {
        PhaseKeepsGood(s, initial, k, Settled);
      }
    case Throw(k) => PhaseKeepsGood(s, initial, k, Settled);
    case Cleanup(k) => CleanupKeepsGood(s, initial, k);
  }

  // ---- runs ------------------------------------------------------------------------------------

  ghost predicate IsRun<V>(run: seq<State<V>>, events: seq<Event<V>>) {
    && |run| == |events| + 1
    && run[0] == State(run[0].records, map[], [], map[], [])
    && forall i | 0 <= i < |events| :: Enabled(run[i], events[i]) && run[i + 1] == Next(run[i], events[i])
  }

  lemma {:induction false} RunGood<V>(run: seq<State<V>>, events: seq<Event<V>>, i: nat)
    requires IsRun(run, events) && i < |run|
    ensures StateGood(run[i], run[0].records)
  {
    if i > 0 {
      RunGood(run, events, i - 1);
      hide StateGood;
      NextKeepsGood(run[i - 1], run[0].records, events[i - 1]);
    }
  }

  /**
   * Over every interleaving the stored record is the one the latest write left, and no refresh ever wrote after a put,
   * a remove or another refresh of its account that came later than its own start.
   */
  lemma SupersededNeverWins<V>(run: seq<State<V>>, events: seq<Event<V>>, i: nat, op: Operator, n: nat, m: nat)
    requires IsRun(run, events) && i < |run| && n < |run[i].log| && run[i].log[n].author.ByRefresh?
    ensures RecordOf(run[i], op) == LastWritten(run[0].records, run[i].log, op)
    ensures run[i].log[n].author.k < |run[i].refreshes|
    ensures run[i].refreshes[run[i].log[n].author.k].operator == run[i].log[n].operator
    ensures run[i].refreshes[run[i].log[n].author.k].since <= m < n ==> run[i].log[m].operator != run[i].log[n].operator
  {
    RunGood(run, events, i);
    assert WriteGood(run[i], n);
  }

  /** At most one refresh per account has not settled. */
  lemma OneRefreshAtATime<V>(run: seq<State<V>>, events: seq<Event<V>>, i: nat, a: nat, b: nat)
    requires IsRun(run, events) && i < |run| && a < |run[i].refreshes| && b < |run[i].refreshes|
    requires run[i].refreshes[a].operator == run[i].refreshes[b].operator
    requires run[i].refreshes[a].phase != Settled && run[i].refreshes[b].phase != Settled
    ensures a == b
  {
    RunGood(run, events, i);
    assert RefreshGood(run[i], a) && RefreshGood(run[i], b);
  }

  // ---- the store -------------------------------------------------------------------------------

  class TokenStore<V(!new)> {
    ghost const initial: map<Operator, V>
    var state: State<V>

    ghost predicate Valid()
      reads this
    {
      StateGood(state, initial)
    }

    constructor (found: map<Operator, V>)
      ensures Valid() && state == State(found, map[], [], map[], []) && initial == found
    {
      initial := found;
      state := State(found, map[], [], map[], []);
    }

    /** token-store.ts:23-32; a throwing write leaves record and generation alone. */
    method Put(op: Operator, value: V, writes: bool) returns (ok: bool)
      requires Valid()
      modifies this
      ensures Valid() && ok == writes && state == if ok then Next(old(state), Event.Put(op, value)) else old(state)
    {
      ok := writes;
      if ok {
        NextKeepsGood(state, initial, Event.Put(op, value));
        state := Written(state, op, Some(value), ByPut);
      }
    }

    /** token-store.ts:49-53. */
    method Remove(op: Operator, unlinks: bool) returns (ok: bool)
      requires Valid()
      modifies this
      ensures Valid() && ok == unlinks && state == if ok then Next(old(state), Event.Remove(op)) else old(state)
      ensures ok ==> RecordOf(state, op) == None
    {
      ok := unlinks;
      if ok {
        NextKeepsGood(state, initial, Event.Remove(op));
        state := Written(state, op, None, ByRemove);
      }
    }

    /** token-store.ts:55-67: the refresh in flight, or a new one. */
    method RefreshAccount(op: Operator) returns (k: nat)
      requires Valid()
      modifies this
      ensures Valid() && state == Next(old(state), Begin(op))
      ensures k < |state.refreshes| && state.refreshes[k].operator == op && op in state.flights
      ensures state.flights[op] == k
      ensures op in old(state).flights ==> state == old(state)
    {
      NextKeepsGood(state, initial, Begin(op));
      state := Next(state, Begin(op));
      k := state.flights[op];
    }

    /** The operation of refresh `k` returned: its result is stored unless something else was, meanwhile. */
    method Arrive(k: nat, value: V) returns (stored: bool)
      requires Valid() && k < |state.refreshes| && state.refreshes[k].phase == Running
      modifies this
      ensures Valid() && state == Next(old(state), Return(k, value))
      ensures var r := old(state).refreshes[k];
              && (stored <==> forall i | r.since <= i < |old(state).log| :: old(state).log[i].operator != r.operator)
              && RecordOf(state, r.operator) == if stored then Some(value) else RecordOf(old(state), r.operator)
    {
      var r := state.refreshes[k];
      assert RefreshGood(state, k);
      NoneSince(state.log, r.since, r.operator);
      NextKeepsGood(state, initial, Return(k, value));
      stored := GenerationOf(state, r.operator) == r.generation;
      if stored { state := Written(state, r.operator, Some(value), ByRefresh(k)); }
      state := SetPhase(state, k, Settled);
    }
  }
}
