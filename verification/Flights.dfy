/** One promise chain per instance over an event loop whose callbacks run in any order (actions.ts:51-63). */
module Flights {
  import opened Wrappers

  type Instance = string

  datatype Phase = Waiting | Running | Settled(ok: bool)

  /**
   * The promise made by one `serial` call: it starts once `after` settled; `cleaned` once its `finally` callback ran.
   */
  datatype Task = Task(instance: Instance, after: Option<nat>, phase: Phase, cleaned: bool)

  /** `tasks` in order of arrival; `starts` is a history of the tasks begun. */
  datatype Loop = Loop(tasks: seq<Task>, flights: map<Instance, nat>, stopped: bool, starts: seq<nat>)

  datatype Event = Arrive(inst: Instance) | Start(task: nat) | Finish(task: nat, ok: bool) | Cleanup(task: nat) | Stop

  // ---- the invariant ---------------------------------------------------------------------------

  predicate Done(l: Loop, k: nat)
    requires k < |l.tasks|
  {
    l.tasks[k].phase.Settled?
  }

  /** Every earlier task of the same instance has settled. */
  predicate PredecessorsDone(l: Loop, k: nat)
    requires k < |l.tasks|
  {
    forall q | 0 <= q < k && l.tasks[q].instance == l.tasks[k].instance :: Done(l, q)
  }

  predicate Chained(l: Loop, k: nat)
    requires k < |l.tasks|
  {
    match l.tasks[k].after
    case None => PredecessorsDone(l, k)
    case Some(p) =>
      && p < k && l.tasks[p].instance == l.tasks[k].instance
      && forall q | p < q < k :: l.tasks[q].instance != l.tasks[k].instance
  }

  predicate TaskGood(l: Loop, k: nat)
    requires k < |l.tasks|
  {
    && Chained(l, k)
    && (l.tasks[k].phase != Waiting ==> PredecessorsDone(l, k))
    && (l.tasks[k].cleaned ==> Done(l, k))
    && (l.tasks[k].instance !in l.flights ==> Done(l, k))
    && (k in l.starts <==> l.tasks[k].phase != Waiting)
  }

  /** The entry of an instance is its newest task, whose callback has not run. */
  predicate FlightGood(l: Loop, inst: Instance)
    requires inst in l.flights
  {
    var k := l.flights[inst];
    && k < |l.tasks| && l.tasks[k].instance == inst && !l.tasks[k].cleaned
    && forall q | k < q < |l.tasks| :: l.tasks[q].instance != inst
  }

  predicate StartsOrdered(l: Loop) {
    && (forall s | s in l.starts :: s < |l.tasks|)
    && (forall a, b | 0 <= a < b < |l.starts| && l.starts[a] < |l.tasks| && l.starts[b] < |l.tasks| &&
                      l.tasks[l.starts[a]].instance == l.tasks[l.starts[b]].instance :: l.starts[a] < l.starts[b])
  }

  predicate LoopGood(l: Loop) {
    && (forall k | 0 <= k < |l.tasks| :: TaskGood(l, k))
    && (forall inst | inst in l.flights :: FlightGood(l, inst))
    && StartsOrdered(l)
  }

  const IDLE := Loop([], map[], false, [])

  type GoodLoop = l: Loop | LoopGood(l) witness IDLE

  // ---- steps -----------------------------------------------------------------------------------

  predicate Ready(l: Loop, after: Option<nat>) {
    after.Some? ==> after.value < |l.tasks| && Done(l, after.value)
  }

  /** A promise callback runs only when its promise is ready for it. */
  predicate Enabled(l: Loop, e: Event) {
    match e
    case Arrive(_) => !l.stopped
    case Start(k) => k < |l.tasks| && l.tasks[k].phase == Waiting && Ready(l, l.tasks[k].after)
    case Finish(k, _) => k < |l.tasks| && l.tasks[k].phase == Running
    case Cleanup(k) => k < |l.tasks| && Done(l, k) && !l.tasks[k].cleaned
    case Stop => true
  }

  function Next(l: Loop, e: Event): Loop
    requires Enabled(l, e)
  {
    match e
    case Arrive(inst) =>
      var after := if inst in l.flights then Some(l.flights[inst]) else None;
      l.(tasks := l.tasks + [Task(inst, after, Waiting, false)], flights := l.flights[inst := |l.tasks|])
    case Start(k) => l.(tasks := l.tasks[k := l.tasks[k].(phase := Running)], starts := l.starts + [k])
    case Finish(k, ok) => l.(tasks := l.tasks[k := l.tasks[k].(phase := Settled(ok))])
    case Cleanup(k) =>
      var inst := l.tasks[k].instance;
      l.(tasks := l.tasks[k := l.tasks[k].(cleaned := true)],
         flights := if inst in l.flights && l.flights[inst] == k then l.flights - {inst} else l.flights)
    case Stop => l.(stopped := true)
  }

  lemma ReadyMeansAllDone(l: Loop, k: nat)
    requires LoopGood(l) && Enabled(l, Start(k))
    ensures PredecessorsDone(l, k)
  {
    assert TaskGood(l, k);
    if l.tasks[k].after.Some? { assert TaskGood(l, l.tasks[k].after.value); }
  }

  /**
   * `activeEffects`: an instance without an entry has nothing waiting or running, and once its callbacks ran it has
   * none.
   */
  lemma EntryTellsActivity(l: Loop, inst: Instance)
    requires LoopGood(l)
    ensures inst !in l.flights ==> forall k | 0 <= k < |l.tasks| && l.tasks[k].instance == inst :: Done(l, k)
    ensures (forall k | 0 <= k < |l.tasks| && l.tasks[k].instance == inst :: l.tasks[k].cleaned) ==> inst !in l.flights
  {
    if inst in l.flights { assert FlightGood(l, inst); }
    forall k | 0 <= k < |l.tasks| && l.tasks[k].instance == inst && inst !in l.flights ensures Done(l, k) {
      assert TaskGood(l, k);
    }
  }

  lemma ArriveKeepsTasks(l: Loop, inst: Instance)
    requires LoopGood(l) && Enabled(l, Arrive(inst))
    ensures forall k | 0 <= k <= |l.tasks| :: TaskGood(Next(l, Arrive(inst)), k)
  {
    var l' := Next(l, Arrive(inst));
    EntryTellsActivity(l, inst);
    if inst in l.flights { assert FlightGood(l, inst); }
    assert forall q | 0 <= q < |l.tasks| && l.tasks[q].instance == inst && Done(l, q) :: Done(l', q);
    forall k | 0 <= k <= |l.tasks| ensures TaskGood(l', k) {
      if k < |l.tasks| { assert TaskGood(l, k); }
    }
  }

  lemma StartKeepsTasks(l: Loop, s: nat)
    requires LoopGood(l) && Enabled(l, Start(s))
    ensures forall k | 0 <= k < |l.tasks| :: TaskGood(Next(l, Start(s)), k)
  {
    var l' := Next(l, Start(s));
    ReadyMeansAllDone(l, s);
    forall k | 0 <= k < |l.tasks| ensures TaskGood(l', k) { assert TaskGood(l, k); }
  }

  lemma FinishKeepsTasks(l: Loop, t: nat, ok: bool)
    requires LoopGood(l) && Enabled(l, Finish(t, ok))
    ensures forall k | 0 <= k < |l.tasks| :: TaskGood(Next(l, Finish(t, ok)), k)
  {
    var l' := Next(l, Finish(t, ok));
    forall k | 0 <= k < |l.tasks| ensures TaskGood(l', k) { assert TaskGood(l, k); }
  }

  /** Only the newest task's callback removes the entry, and every other task of its instance has settled by then. */
  lemma CleanupKeepsTasks(l: Loop, t: nat)
    requires LoopGood(l) && Enabled(l, Cleanup(t))
    ensures forall k | 0 <= k < |l.tasks| :: TaskGood(Next(l, Cleanup(t)), k)
  {
    var l' := Next(l, Cleanup(t));
    assert TaskGood(l, t);
    if l.tasks[t].instance in l.flights { assert FlightGood(l, l.tasks[t].instance); }
    forall k | 0 <= k < |l.tasks| ensures TaskGood(l', k) { assert TaskGood(l, k); }
  }

  lemma NextKeepsFlights(l: Loop, e: Event)
    requires LoopGood(l) && Enabled(l, e)
    ensures forall inst | inst in Next(l, e).flights :: FlightGood(Next(l, e), inst)
  {
    var l' := Next(l, e);
    forall inst | inst in l'.flights ensures FlightGood(l', inst) {
      if inst in l.flights { assert FlightGood(l, inst); }
    }
  }

  lemma StartsKeepOrder(l: Loop, k: nat)
    requires LoopGood(l) && Enabled(l, Start(k))
    ensures forall a | a in l.starts && l.tasks[a].instance == l.tasks[k].instance :: a < k
  {
    forall a | a in l.starts && l.tasks[a].instance == l.tasks[k].instance ensures a < k {
      assert TaskGood(l, a) && TaskGood(l, k);
    }
  }

  lemma NextKeepsStarts(l: Loop, e: Event)
    requires LoopGood(l) && Enabled(l, e)
    ensures StartsOrdered(Next(l, e))
  {
    assert forall a | 0 <= a < |l.starts| :: l.starts[a] in l.starts && l.starts[a] < |l.tasks|;
    if e.Start? { StartsKeepOrder(l, e.task); }
    hide TaskGood, FlightGood;
  }

  lemma NextKeepsGood(l: Loop, e: Event)
    requires LoopGood(l) && Enabled(l, e)
    ensures LoopGood(Next(l, e))
  {
    NextKeepsFlights(l, e);
    NextKeepsStarts(l, e);
    hide FlightGood, StartsOrdered;
    match e
    case Arrive(inst) => ArriveKeepsTasks(l, inst);
    case Start(k) => StartKeepsTasks(l, k);
    case Finish(k, ok) => FinishKeepsTasks(l, k, ok);
    case Cleanup(k) => CleanupKeepsTasks(l, k);
    case Stop => forall k | 0 <= k < |l.tasks| ensures TaskGood(Next(l, e), k) { assert TaskGood(l, k); }
  }

  // ---- what the chain guarantees ---------------------------------------------------------------

  lemma AtMostOneRunning(l: Loop, a: nat, b: nat)
    requires LoopGood(l) && a < |l.tasks| && b < |l.tasks| && l.tasks[a].instance == l.tasks[b].instance
    requires l.tasks[a].phase == Running && l.tasks[b].phase == Running
    ensures a == b
  {
    assert TaskGood(l, a) && TaskGood(l, b);
  }

  /** A rejection never breaks the chain: whatever waits, some task of its instance is running or may start at once. */
  lemma {:induction false} NeverStuck(l: Loop, k: nat) returns (p: nat)
    requires LoopGood(l) && k < |l.tasks| && l.tasks[k].phase == Waiting
    ensures p <= k && l.tasks[p].instance == l.tasks[k].instance
    ensures l.tasks[p].phase == Running || Enabled(l, Start(p))
  {
    assert TaskGood(l, k);
    p := k;
    if l.tasks[k].after.Some? {
      var before := l.tasks[k].after.value;
      if l.tasks[before].phase == Waiting { p := NeverStuck(l, before); }
      else if l.tasks[before].phase == Running { p := before; }
    }
  }

  // ---- runs ------------------------------------------------------------------------------------

  ghost predicate IsRun(run: seq<Loop>, events: seq<Event>) {
    && |run| == |events| + 1 && LoopGood(run[0])
    && forall i | 0 <= i < |events| :: Enabled(run[i], events[i]) && run[i + 1] == Next(run[i], events[i])
  }

  lemma {:induction false} RunGood(run: seq<Loop>, events: seq<Event>, i: nat)
    requires IsRun(run, events) && i < |run|
    ensures LoopGood(run[i])
  {
    if i > 0 {
      RunGood(run, events, i - 1);
      NextKeepsGood(run[i - 1], events[i - 1]);
    }
  }

  /** What `stop` awaits: the newest task of every instance with an entry. */
  function Awaited(l: Loop): set<nat> {
    set inst | inst in l.flights :: l.flights[inst]
  }

  lemma {:induction false} StoppedTakesNothingNew(run: seq<Loop>, events: seq<Event>, i: nat, j: nat)
    requires IsRun(run, events) && i <= j < |run| && run[i].stopped
    ensures run[j].stopped && |run[j].tasks| == |run[i].tasks|
    ensures forall k | 0 <= k < |run[i].tasks| :: run[j].tasks[k].instance == run[i].tasks[k].instance
                                                  && (Done(run[i], k) ==> Done(run[j], k))
    decreases j - i
  {
    if i < j {
      StoppedTakesNothingNew(run, events, i, j - 1);
      assert Enabled(run[j - 1], events[j - 1]) && run[j] == Next(run[j - 1], events[j - 1]);
    }
  }

  lemma AwaitedCoversAll(l: Loop, l': Loop, k: nat)
    requires LoopGood(l) && LoopGood(l') && |l'.tasks| == |l.tasks| && k < |l.tasks|
    requires forall q | 0 <= q < |l.tasks| ::
               l'.tasks[q].instance == l.tasks[q].instance && (Done(l, q) ==> Done(l', q))
    requires forall t | t in Awaited(l) && t < |l'.tasks| :: Done(l', t)
    ensures Done(l', k)
  {
    var inst := l.tasks[k].instance;
    assert TaskGood(l, k);
    if inst in l.flights {
      assert FlightGood(l, inst);
      assert l.flights[inst] in Awaited(l);
      assert TaskGood(l', l.flights[inst]);
    }
  }

  /**
   * Once the promises awaited by `stop` (called at step `i`) have settled (by step `j`), nothing waits or runs, and no
   * task is accepted, started or finished ever after.
   */
  lemma QuiescentAfterStop(run: seq<Loop>, events: seq<Event>, i: nat, j: nat, k: nat)
    requires IsRun(run, events) && i < |events| && events[i] == Stop && i < j <= k < |run|
    requires forall t | t in Awaited(run[i]) && t < |run[j].tasks| :: Done(run[j], t)
    ensures forall t | 0 <= t < |run[k].tasks| :: Done(run[k], t)
    ensures k < |events| ==> events[k].Cleanup? || events[k].Stop?
  {
    RunGood(run, events, i);
    RunGood(run, events, j);
    assert run[i + 1] == Next(run[i], events[i]);
    StoppedTakesNothingNew(run, events, i + 1, j);
    StoppedTakesNothingNew(run, events, j, k);
    forall t | 0 <= t < |run[k].tasks| ensures Done(run[k], t) {
      AwaitedCoversAll(run[i], run[j], t);
    }
    if k < |events| {
      assert run[k].stopped && Enabled(run[k], events[k]);
      OnlyUnsettledMove(run[k], events[k]);
    }
  }

  /** Once stopped, only an unsettled task can make anything but a callback or another stop happen. */
  lemma OnlyUnsettledMove(l: Loop, e: Event)
    requires l.stopped && Enabled(l, e)
    ensures e.Cleanup? || e.Stop? || exists t | 0 <= t < |l.tasks| :: !Done(l, t)
  {
    if e.Start? || e.Finish? { assert !Done(l, e.task); }
  }

  /** Per instance, tasks start in the order they arrived, whatever the outcome of their predecessors. */
  lemma StartsFollowArrival(run: seq<Loop>, events: seq<Event>, i: nat, a: nat, b: nat)
    requires IsRun(run, events) && i < |run| && a < b < |run[i].starts|
    ensures run[i].starts[a] < |run[i].tasks| && run[i].starts[b] < |run[i].tasks|
    ensures run[i].tasks[run[i].starts[a]].instance == run[i].tasks[run[i].starts[b]].instance ==>
              run[i].starts[a] < run[i].starts[b] && Done(run[i], run[i].starts[a])
  {
    RunGood(run, events, i);
    var l := run[i];
    assert l.starts[a] in l.starts && l.starts[b] in l.starts;
    assert TaskGood(l, l.starts[b]);
  }

  // ---- the coordinator's part ------------------------------------------------------------------

  class Serializer {
    var loop: GoodLoop

    constructor ()
      ensures loop == IDLE
    {
      loop := IDLE;
    }

    /** actions.ts:57-63; None is the rejection of a stopped coordinator. */
    method Serial(inst: Instance) returns (task: Option<nat>)
      modifies this
      ensures task == None <==> old(loop).stopped
      ensures task == None ==> loop == old(loop)
      ensures task.Some? ==> loop == Next(old(loop), Arrive(inst)) && task.value == |old(loop).tasks|
    {
      if loop.stopped { return None; }
      NextKeepsGood(loop, Arrive(inst));
      var after := if inst in loop.flights then Some(loop.flights[inst]) else None;
      task := Some(|loop.tasks|);
      loop := loop.(tasks := loop.tasks + [Task(inst, after, Waiting, false)],
          flights := loop.flights[inst := |loop.tasks|]);
    }

    /** One callback of the event loop; nothing happens when it is not ready. */
    method Dispatch(e: Event)
      modifies this
      ensures loop == if Enabled(old(loop), e) then Next(old(loop), e) else old(loop)
    {
      if Enabled(loop, e) {
        NextKeepsGood(loop, e);
        loop := Next(loop, e);
      }
    }

    /** Closes the queue and says what to wait for; `activeEffects` counts the same entries. */
    method StopAll() returns (awaited: set<nat>)
      modifies this
      ensures loop == Next(old(loop), Stop) && awaited == Awaited(old(loop))
    {
      awaited := Awaited(loop);
      NextKeepsGood(loop, Stop);
      loop := loop.(stopped := true);
    }
  }
}
