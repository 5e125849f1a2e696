/** The per-key task queue: a chain of promises and a counter for each key, dropped when the counter
    reaches zero and created again on demand.

    A `Lane` is everything about one key.  `tasks` lists the accepted tasks in order of acceptance;
    `objects` has the queue-state objects ever created for the key, of which `current` is the one
    in the map.  Steps of a lane may come in any order that the promise chain allows.  */
module KeyedQueue {
  import opened Wrappers

  datatype Phase = Waiting | Running | Settled(ok: bool) | Cleaned

  /** `after` is the task whose settling this one waits for: the tail when it was enqueued. */
  datatype Task = Task(home: nat, after: Option<nat>, phase: Phase)

  datatype QueueState = QueueState(tail: Option<nat>, pending: nat)

  datatype Lane = Lane(tasks: seq<Task>, objects: seq<QueueState>, current: Option<nat>, started: seq<nat>)

  datatype Step = Enqueue | Start(task: nat) | Settle(task: nat, ok: bool) | Cleanup(task: nat)

  const EMPTY := Lane([], [], None, [])

  function Pending(l: Lane): nat {
    if l.current.Some? && l.current.value < |l.objects| then l.objects[l.current.value].pending else 0
  }

  /** The queue-state object that a call of enqueue works on, new or found in the map. */
  function Found(l: Lane): (nat, seq<QueueState>) {
    if l.current.Some? && l.current.value < |l.objects| then (l.current.value, l.objects)
    else (|l.objects|, l.objects + [QueueState(None, 0)])
  }

  predicate Full(l: Lane, limit: nat) {
    Pending(l) >= limit
  }

  function EnqueueStep(l: Lane): Lane {
    var (o, objects) := Found(l);
    Lane(l.tasks + [Task(o, objects[o].tail, Waiting)],
         objects[o := QueueState(Some(|l.tasks|), objects[o].pending + 1)], Some(o), l.started)
  }

  function SetPhase(l: Lane, i: nat, phase: Phase): Lane
    requires i < |l.tasks|
  {
    l.(tasks := l.tasks[i := l.tasks[i].(phase := phase)])
  }

  predicate IsOver(phase: Phase) {
    phase.Settled? || phase.Cleaned?
  }

  function CleanupStep(l: Lane, i: nat): Lane
    requires i < |l.tasks| && l.tasks[i].home < |l.objects| && l.objects[l.tasks[i].home].pending > 0
  {
    var o := l.tasks[i].home;
    var r := SetPhase(l, i, Cleaned);
    Lane(r.tasks, l.objects[o := l.objects[o].(pending := l.objects[o].pending - 1)],
         if l.objects[o].pending == 1 && l.current == Some(o) then None else l.current, l.started)
  }

  predicate Enabled(l: Lane, step: Step, limit: nat) {
    match step
    case Enqueue => !Full(l, limit)
    case Start(i) =>
      i < |l.tasks| && l.tasks[i].phase.Waiting? &&
      (l.tasks[i].after.None? || (l.tasks[i].after.value < |l.tasks| && IsOver(l.tasks[l.tasks[i].after.value].phase)))
    case Settle(i, _) => i < |l.tasks| && l.tasks[i].phase.Running?
    case Cleanup(i) =>
      i < |l.tasks| && l.tasks[i].phase.Settled? && l.tasks[i].home < |l.objects| &&
      l.objects[l.tasks[i].home].pending > 0
  }

  function Apply(l: Lane, step: Step, limit: nat): Lane
    requires Enabled(l, step, limit)
  {
    match step
    case Enqueue => EnqueueStep(l)
    case Start(i) => SetPhase(l, i, Running).(started := l.started + [i])
    case Settle(i, ok) => SetPhase(l, i, Settled(ok))
    case Cleanup(i) => CleanupStep(l, i)
  }

  // ---------------------------------------------------------------- the invariant of one key

  /** Accepted tasks whose cleanup has not run. */
  function Outstanding(tasks: seq<Task>): nat {
    if tasks == [] then 0
    else Outstanding(tasks[..|tasks| - 1]) + if tasks[|tasks| - 1].phase.Cleaned? then 0 else 1
  }

  /** Started tasks are the first ones accepted, in that order, and only the latest may be running. */
  ghost predicate OrderInv(l: Lane) {
    |l.started| <= |l.tasks| &&
    (forall i :: 0 <= i < |l.started| ==> l.started[i] == i && !l.tasks[i].phase.Waiting?) &&
    (forall i :: 0 <= i < |l.started| - 1 ==> IsOver(l.tasks[i].phase)) &&
    (forall i :: |l.started| <= i < |l.tasks| ==> l.tasks[i].phase.Waiting?)
  }

  /** A task waits for the one accepted just before it, unless everything before it was cleaned up. */
  ghost predicate ChainInv(l: Lane) {
    forall i :: 0 <= i < |l.tasks| ==>
      if l.tasks[i].after.Some? then i > 0 && l.tasks[i].after.value == i - 1
      else forall j :: 0 <= j < i ==> l.tasks[j].phase.Cleaned?
  }

  /** The mapped object counts the outstanding tasks, and they all belong to it; no object is mapped
      exactly when nothing is outstanding. */
  ghost predicate CountInv(l: Lane, limit: nat) {
    (forall i :: 0 <= i < |l.tasks| && !l.tasks[i].phase.Cleaned? ==> l.current == Some(l.tasks[i].home)) &&
    match l.current
    case None => Outstanding(l.tasks) == 0
    case Some(o) =>
      o < |l.objects| && |l.tasks| > 0 && l.objects[o].tail == Some(|l.tasks| - 1) &&
      0 < l.objects[o].pending == Outstanding(l.tasks) <= limit
  }

  ghost predicate LaneInv(l: Lane, limit: nat) {
    OrderInv(l) && ChainInv(l) && CountInv(l, limit)
  }

  lemma {:induction false} OutstandingZero(tasks: seq<Task>)
    ensures Outstanding(tasks) == 0 <==> forall i :: 0 <= i < |tasks| ==> tasks[i].phase.Cleaned?
  {
    if tasks != [] {
      OutstandingZero(tasks[..|tasks| - 1]);
    }
  }

  lemma {:induction false} OutstandingUpdate(tasks: seq<Task>, i: nat, task: Task)
    requires i < |tasks|
    ensures Outstanding(tasks[i := task]) ==
      Outstanding(tasks) - (if tasks[i].phase.Cleaned? then 0 else 1) + (if task.phase.Cleaned? then 0 else 1)
  {
    var last := |tasks| - 1;
    if i < last {
      OutstandingUpdate(tasks[..last], i, task);
      assert tasks[i := task][..last] == tasks[..last][i := task];
    } else {
      assert tasks[i := task][..last] == tasks[..last];
    }
  }

  lemma EnqueueKeepsCount(l: Lane, limit: nat)
    requires CountInv(l, limit) && !Full(l, limit)
    ensures CountInv(EnqueueStep(l), limit)
  {
    assert EnqueueStep(l).tasks[..|l.tasks|] == l.tasks;
    OutstandingZero(l.tasks);
  }

  lemma EnqueueKeepsOrder(l: Lane, limit: nat)
    requires LaneInv(l, limit)
    ensures OrderInv(EnqueueStep(l)) && ChainInv(EnqueueStep(l))
  {
    OutstandingZero(l.tasks);
  }

  lemma EnqueueKeepsInv(l: Lane, limit: nat)
    requires LaneInv(l, limit) && !Full(l, limit)
    ensures LaneInv(EnqueueStep(l), limit)
  {
    EnqueueKeepsCount(l, limit);
    EnqueueKeepsOrder(l, limit);
  }

  lemma StartsInTurn(l: Lane, i: nat, limit: nat)
    requires LaneInv(l, limit) && Enabled(l, Start(i), limit)
    ensures i == |l.started| && forall j :: 0 <= j < i ==> IsOver(l.tasks[j].phase)
  {
    if l.tasks[i].after.Some? {
      assert IsOver(l.tasks[i - 1].phase);
    } else if i > 0 {
      assert l.tasks[i - 1].phase.Cleaned?;
    }
  }

  /** Starting and settling a task leave it outstanding. */
  lemma StayingOutstanding(l: Lane, i: nat, phase: Phase, limit: nat)
    requires CountInv(l, limit) && i < |l.tasks| && !l.tasks[i].phase.Cleaned? && !phase.Cleaned?
    ensures CountInv(SetPhase(l, i, phase), limit)
  {
    OutstandingUpdate(l.tasks, i, l.tasks[i].(phase := phase));
  }

  lemma StartKeepsInv(l: Lane, i: nat, limit: nat)
    requires LaneInv(l, limit) && Enabled(l, Start(i), limit)
    ensures LaneInv(Apply(l, Start(i), limit), limit)
  {
    StartsInTurn(l, i, limit);
    StayingOutstanding(l, i, Running, limit);
  }

  lemma SettleKeepsInv(l: Lane, i: nat, ok: bool, limit: nat)
    requires LaneInv(l, limit) && Enabled(l, Settle(i, ok), limit)
    ensures LaneInv(Apply(l, Settle(i, ok), limit), limit)
  {
    StayingOutstanding(l, i, Settled(ok), limit);
  }

  lemma CleanupKeepsCount(l: Lane, i: nat, limit: nat)
    requires CountInv(l, limit) && Enabled(l, Cleanup(i), limit)
    ensures CountInv(CleanupStep(l, i), limit)
  {
    OutstandingUpdate(l.tasks, i, l.tasks[i].(phase := Cleaned));
    OutstandingZero(CleanupStep(l, i).tasks);
  }

  lemma CleanupKeepsInv(l: Lane, i: nat, limit: nat)
    requires LaneInv(l, limit) && Enabled(l, Cleanup(i), limit)
    ensures LaneInv(CleanupStep(l, i), limit)
  {
    CleanupKeepsCount(l, i, limit);
    assert CleanupStep(l, i).tasks == l.tasks[i := l.tasks[i].(phase := Cleaned)];
  }

  lemma StepKeepsInv(l: Lane, step: Step, limit: nat)
    requires LaneInv(l, limit) && Enabled(l, step, limit)
    ensures LaneInv(Apply(l, step, limit), limit)
  {
    match step
    case Enqueue => EnqueueKeepsInv(l, limit);
    case Start(i) => StartKeepsInv(l, i, limit);
    case Settle(i, ok) => SettleKeepsInv(l, i, ok, limit);
    case Cleanup(i) => CleanupKeepsInv(l, i, limit);
  }

  /** A settled task can always be cleaned up, and its object is then the mapped one: the identity
      test in the cleanup never fails. */
  lemma CleanupFindsItsState(l: Lane, i: nat, limit: nat)
    requires LaneInv(l, limit) && i < |l.tasks| && l.tasks[i].phase.Settled?
    ensures Enabled(l, Cleanup(i), limit) && l.current == Some(l.tasks[i].home)
  {
  }

  // ---------------------------------------------------------------- all keys, all runs

  type Key = string

  type Queue = map<Key, Lane>

  function LaneOf(q: Queue, k: Key): Lane {
    if k in q then q[k] else EMPTY
  }

  /** A run of any number of keys; steps that are not possible when their turn comes are skipped. */
  function Run(q: Queue, steps: seq<(Key, Step)>, limit: nat): Queue
    decreases |steps|
  {
    if steps == [] then q
    else
      var (k, step) := steps[0];
      Run(if Enabled(LaneOf(q, k), step, limit) then q[k := Apply(LaneOf(q, k), step, limit)] else q, steps[1..], limit)
  }

  ghost predicate LanesInv(q: Queue, limit: nat) {
    forall k :: LaneInv(LaneOf(q, k), limit)
  }

  lemma LaneChanges(q: Queue, k: Key, step: Step, limit: nat)
    requires LanesInv(q, limit) && Enabled(LaneOf(q, k), step, limit)
    ensures LanesInv(q[k := Apply(LaneOf(q, k), step, limit)], limit)
  {
    StepKeepsInv(LaneOf(q, k), step, limit);
    var r := q[k := Apply(LaneOf(q, k), step, limit)];
    forall j
      ensures LaneInv(LaneOf(r, j), limit)
    {
      assert LaneInv(LaneOf(q, j), limit);
    }
  }

  lemma {:induction false} RunKeepsInv(q: Queue, steps: seq<(Key, Step)>, limit: nat)
    requires LanesInv(q, limit)
    ensures LanesInv(Run(q, steps, limit), limit)
    decreases |steps|
  {
    if steps != [] {
      var (k, step) := steps[0];
      if Enabled(LaneOf(q, k), step, limit) {
        LaneChanges(q, k, step, limit);
      }
      RunKeepsInv(if Enabled(LaneOf(q, k), step, limit) then q[k := Apply(LaneOf(q, k), step, limit)] else q,
                  steps[1..], limit);
    }
  }

  /** For every key and every run, whatever tasks fail and however often the key's state is dropped
      and made again: the n-th task to start is the n-th accepted, at most one runs at a time and
      nothing starts before all earlier ones are over, and the pending count is the number of tasks
      accepted and not yet cleaned up, never above the limit. */
  lemma QueuedTasksRunInOrder(steps: seq<(Key, Step)>, limit: nat, k: Key)
    ensures var l := LaneOf(Run(map[], steps, limit), k);
      (forall i :: 0 <= i < |l.started| ==> l.started[i] == i) && |l.started| <= |l.tasks| &&
      (forall i, j :: 0 <= i < j < |l.tasks| && !l.tasks[j].phase.Waiting? ==> IsOver(l.tasks[i].phase)) &&
      Pending(l) == Outstanding(l.tasks) <= limit &&
      (l.current.Some? <==> Outstanding(l.tasks) > 0)
  {
    RunKeepsInv(map[], steps, limit);
    OutstandingZero(LaneOf(Run(map[], steps, limit), k).tasks);
  }

  /** In every run a task is accepted exactly while fewer than the limit are accepted and not yet cleaned
      up, and the next task may start exactly when all accepted before it are over. */
  lemma AcceptedAndStartedIff(steps: seq<(Key, Step)>, limit: nat, k: Key, i: nat)
    ensures var l := LaneOf(Run(map[], steps, limit), k);
      (Enabled(l, Enqueue, limit) <==> Outstanding(l.tasks) < limit) &&
      (Enabled(l, Start(i), limit) <==>
        i < |l.tasks| && l.tasks[i].phase == Waiting &&
        forall j :: 0 <= j < i ==> l.tasks[j].phase.Settled? || l.tasks[j].phase == Cleaned)
  {
    QueuedTasksRunInOrder(steps, limit, k);
    RunKeepsInv(map[], steps, limit);
    var l := LaneOf(Run(map[], steps, limit), k);
    assert LaneInv(l, limit);
    if Enabled(l, Start(i), limit) {
      StartsInTurn(l, i, limit);
    }
  }

  /** What each step does to the tasks of its key, and that it does nothing to those of another. */
  lemma StepsMoveOneTask(l: Lane, step: Step, limit: nat)
    requires LaneInv(l, limit) && Enabled(l, step, limit)
    ensures var r := Apply(l, step, limit);
      match step
      case Enqueue =>
        |r.tasks| == |l.tasks| + 1 && r.tasks[..|l.tasks|] == l.tasks && r.tasks[|l.tasks|].phase == Waiting &&
        r.started == l.started
      case Start(i) =>
        r.tasks == l.tasks[i := l.tasks[i].(phase := Running)] && r.started == l.started + [i]
      case Settle(i, ok) =>
        r.tasks == l.tasks[i := l.tasks[i].(phase := Settled(ok))] && r.started == l.started
      case Cleanup(i) =>
        r.tasks == l.tasks[i := l.tasks[i].(phase := Cleaned)] && r.started == l.started
  {
  }

  // ---------------------------------------------------------------- counting settled tasks

  /** Accepted tasks that have not settled. */
  function Unsettled(tasks: seq<Task>): nat {
    if tasks == [] then 0
    else Unsettled(tasks[..|tasks| - 1]) + if IsOver(tasks[|tasks| - 1].phase) then 0 else 1
  }

  lemma {:induction false} OutstandingOrUnsettled(tasks: seq<Task>)
    ensures Unsettled(tasks) <= Outstanding(tasks)
    ensures Unsettled(tasks) == Outstanding(tasks) <==> forall i :: 0 <= i < |tasks| ==> !tasks[i].phase.Settled?
  {
    if tasks != [] {
      OutstandingOrUnsettled(tasks[..|tasks| - 1]);
    }
  }

  /** The pending count is never below the number of tasks accepted and not settled, and equals it
      exactly as long as no settled task of the key still waits for its cleanup callback. */
  lemma PendingCountsUnsettled(steps: seq<(Key, Step)>, limit: nat, k: Key)
    ensures var l := LaneOf(Run(map[], steps, limit), k);
      Unsettled(l.tasks) <= Pending(l) &&
      (Pending(l) == Unsettled(l.tasks) <==> forall i :: 0 <= i < |l.tasks| ==> !l.tasks[i].phase.Settled?)
  {
    QueuedTasksRunInOrder(steps, limit, k);
    OutstandingOrUnsettled(LaneOf(Run(map[], steps, limit), k).tasks);
  }

  /** A run in which they differ: the only task has settled and its callback has yet to run. */
  lemma SettledTaskStillPending(limit: nat, k: Key, ok: bool)
    requires limit >= 1
    ensures var l := LaneOf(Run(map[], [(k, Enqueue), (k, Start(0)), (k, Settle(0, ok))], limit), k);
      Pending(l) == 1 && Unsettled(l.tasks) == 0
  {
    var one := Lane([Task(0, None, Waiting)], [QueueState(Some(0), 1)], Some(0), []);
    var two := Lane([Task(0, None, Running)], [QueueState(Some(0), 1)], Some(0), [0]);
    var three := Lane([Task(0, None, Settled(ok))], [QueueState(Some(0), 1)], Some(0), [0]);
    var steps := [(k, Enqueue), (k, Start(0)), (k, Settle(0, ok))];
    assert EnqueueStep(EMPTY) == one;
    assert Apply(one, Start(0), limit) == two;
    assert Apply(two, Settle(0, ok), limit) == three;
    assert steps[1..] == [(k, Start(0)), (k, Settle(0, ok))] && steps[1..][1..] == [(k, Settle(0, ok))];
    assert map[k := one][k := two] == map[k := two] && map[k := two][k := three] == map[k := three];
    assert Enabled(one, Start(0), limit) && Enabled(two, Settle(0, ok), limit);
    assert Run(map[], steps, limit) == Run(map[k := one], steps[1..], limit);
    assert Run(map[k := one], steps[1..], limit) == Run(map[k := two], steps[1..][1..], limit);
    assert Run(map[k := two], steps[1..][1..], limit) == Run(map[k := three], [], limit);
  }

  // ---------------------------------------------------------------- the mutable queue

  class StateObject {
    ghost var tail: Option<nat>
    var pending: nat

    constructor ()
      ensures tail == None && pending == 0
    {
      tail, pending := None, 0;
    }
  }

  /** The mapped object, if any, is the lane's current one and has its tail and pending count. */
  ghost predicate Agrees(l: Lane, homes: seq<StateObject>, mapped: Option<StateObject>, fields: QueueState) {
    |homes| == |l.objects| &&
    match l.current
    case None => mapped.None?
    case Some(o) => o < |l.objects| && mapped == Some(homes[o]) && l.objects[o] == fields
  }

  lemma EnqueueAgrees(l: Lane, homes: seq<StateObject>, mapped: Option<StateObject>, fields: QueueState,
                      state: StateObject)
    requires Agrees(l, homes, mapped, fields)
    requires match mapped case Some(o) => o == state case None => fields == QueueState(None, 0)
    ensures fields.pending == Pending(l)
    ensures Agrees(EnqueueStep(l), if mapped.Some? then homes else homes + [state], Some(state),
                   QueueState(Some(|l.tasks|), fields.pending + 1))
  {
  }

  /** `lanes` is the history the specification speaks of, and `homes` the objects that the lanes
      number; the code itself keeps only `states`. */
  class KeyedQueue {
    const maxPendingPerKey: nat
    var states: map<Key, StateObject>
    ghost var lanes: Queue
    ghost var homes: map<Key, seq<StateObject>>

    ghost function HomesOf(k: Key): seq<StateObject>
      reads this
    {
      if k in homes then homes[k] else []
    }

    /** What the code's fields have to do with the lane of one key. */
    ghost predicate Matches(k: Key)
      reads this, states.Values
    {
      if k in states then Agrees(LaneOf(lanes, k), HomesOf(k), Some(states[k]),
                                 QueueState(states[k].tail, states[k].pending))
      else Agrees(LaneOf(lanes, k), HomesOf(k), None, QueueState(None, 0))
    }

    ghost predicate Coupled()
      reads this, states.Values
    {
      (forall k :: Matches(k)) && (forall j, k :: j in states && k in states && states[j] == states[k] ==> j == k)
    }

    ghost predicate Valid()
      reads this, states.Values
    {
      maxPendingPerKey >= 1 && LanesInv(lanes, maxPendingPerKey) && Coupled()
    }

    constructor (maxPendingPerKey: nat)
      requires maxPendingPerKey >= 1
      ensures Valid() && lanes == map[] && states == map[] && this.maxPendingPerKey == maxPendingPerKey
    {
      this.maxPendingPerKey := maxPendingPerKey;
      states, lanes, homes := map[], map[], map[];
    }

    /** Looks the key's state object up, or makes one. */
    method Find(key: Key) returns (state: StateObject)
      requires Matches(key)
      ensures key in states ==> state == states[key]
      ensures key !in states ==> fresh(state) && state.tail == None && state.pending == 0
    {
      if key in states {
        state := states[key];
      } else {
        state := new StateObject();
      }
    }

    /** Chains a task onto the key's tail, or refuses it when the queue is full. */
    method Enqueue(key: Key) returns (accepted: bool)
      requires Valid()
      modifies this, if key in states then {states[key]} else {}
      ensures Valid()
      ensures accepted <==> !Full(LaneOf(old(lanes), key), maxPendingPerKey)
      ensures !accepted ==> lanes == old(lanes) && states == old(states)
      ensures forall k :: k in states ==> (k in old(states) && states[k] == old(states)[k]) || fresh(states[k])
      ensures accepted ==> lanes == old(lanes)[key := EnqueueStep(LaneOf(old(lanes), key))]
    {
      ghost var l := LaneOf(lanes, key);
      assert Matches(key);
      var state := Find(key);
      EnqueueAgrees(l, HomesOf(key), if key in states then Some(state) else None,
                    QueueState(state.tail, state.pending), state);
      if state.pending >= maxPendingPerKey {
        return false;
      }
      Chain(key, state);
      LaneChanges(old(lanes), key, Step.Enqueue, maxPendingPerKey);
      accepted := true;
    }

    /** The three assignments of an accepted task. */
    method Chain(key: Key, state: StateObject)
      requires Coupled() && (key in states ==> state == states[key])
      requires key !in states ==> state !in states.Values && state.tail == None && state.pending == 0
      modifies this, state
      ensures Coupled() && states == old(states)[key := state]
      ensures lanes == old(lanes)[key := EnqueueStep(LaneOf(old(lanes), key))]
    {
      ghost var l := LaneOf(lanes, key);
      assert Matches(key);
      EnqueueAgrees(l, HomesOf(key), if key in states then Some(state) else None,
                    QueueState(state.tail, state.pending), state);
      homes := homes[key := if key in states then HomesOf(key) else HomesOf(key) + [state]];
      state.pending := state.pending + 1;
      state.tail := Some(|l.tasks|);
      states := states[key := state];
      lanes := lanes[key := EnqueueStep(l)];
      forall k | k != key
        ensures Matches(k)
      {
        assert old(Matches(k));
      }
    }

    /** The promise chain reaches the task: its predecessor is over. */
    ghost method OnStart(key: Key, i: nat)
      requires Valid() && Enabled(LaneOf(lanes, key), Step.Start(i), maxPendingPerKey)
      modifies this
      ensures Valid()
      ensures lanes == old(lanes)[key := Apply(old(LaneOf(lanes, key)), Step.Start(i), maxPendingPerKey)]
      ensures states == old(states) && homes == old(homes)
    {
      Progress(key, Step.Start(i));
    }

    /** The task's promise settles, either way. */
    ghost method OnSettled(key: Key, i: nat, ok: bool)
      requires Valid() && Enabled(LaneOf(lanes, key), Step.Settle(i, ok), maxPendingPerKey)
      modifies this
      ensures Valid()
      ensures lanes == old(lanes)[key := Apply(old(LaneOf(lanes, key)), Step.Settle(i, ok), maxPendingPerKey)]
      ensures states == old(states) && homes == old(homes)
    {
      Progress(key, Step.Settle(i, ok));
    }

    /** What happens on the promise chain leaves the queue's own fields alone. */
    ghost method Progress(key: Key, step: Step)
      requires Valid() && (step.Start? || step.Settle?) && Enabled(LaneOf(lanes, key), step, maxPendingPerKey)
      modifies this
      ensures Valid()
      ensures lanes == old(lanes)[key := Apply(old(LaneOf(lanes, key)), step, maxPendingPerKey)]
      ensures states == old(states) && homes == old(homes)
    {
      LaneChanges(lanes, key, step, maxPendingPerKey);
      assert Matches(key);
      lanes := lanes[key := Apply(LaneOf(lanes, key), step, maxPendingPerKey)];
      forall k | k != key
        ensures Matches(k)
      {
        assert old(Matches(k));
      }
    }

    /** The callback that runs once a task is settled, with the state object its task was chained to. */
    method Cleanup(key: Key, state: StateObject, ghost i: nat)
      requires Valid()
      requires i < |LaneOf(lanes, key).tasks| && LaneOf(lanes, key).tasks[i].phase.Settled?
      requires LaneOf(lanes, key).tasks[i].home < |HomesOf(key)| &&
        state == HomesOf(key)[LaneOf(lanes, key).tasks[i].home]
      modifies this, state
      ensures Valid() && old(Enabled(LaneOf(lanes, key), Step.Cleanup(i), maxPendingPerKey))
      ensures lanes == old(lanes)[key := CleanupStep(LaneOf(old(lanes), key), i)]
    {
      assert Matches(key);
      CleanupFindsItsState(LaneOf(lanes, key), i, maxPendingPerKey);
      LaneChanges(lanes, key, Step.Cleanup(i), maxPendingPerKey);
      CountDown(key, state, i);
    }

    /** The decrement, and dropping the state at zero. */
    method CountDown(key: Key, state: StateObject, ghost i: nat)
      requires Coupled() && i < |LaneOf(lanes, key).tasks| && key in states && states[key] == state
      requires var l := LaneOf(lanes, key);
        l.current == Some(l.tasks[i].home) && |l.objects| > l.tasks[i].home && l.objects[l.tasks[i].home].pending > 0
      modifies this, state
      ensures Coupled()
      ensures lanes == old(lanes)[key := CleanupStep(LaneOf(old(lanes), key), i)]
    {
      assert Matches(key);
      ghost var l := LaneOf(lanes, key);
      state.pending := state.pending - 1;
      if state.pending == 0 && key in states && states[key] == state {
        states := states - {key};
      }
      lanes := lanes[key := CleanupStep(l, i)];
      forall k | k != key
        ensures Matches(k)
      {
        assert old(Matches(k));
      }
    }

    method PendingTurns(key: Key) returns (n: nat)
      requires Valid()
      ensures n == Pending(LaneOf(lanes, key)) == Outstanding(LaneOf(lanes, key).tasks) <= maxPendingPerKey
    {
      assert Matches(key);
      n := if key in states then states[key].pending else 0;
    }

    /** What draining waits for: no key has a state object, and so no accepted task of any key is
        still queued, running or to be cleaned up. */
    method IsIdle() returns (idle: bool)
      requires Valid()
      ensures idle <==> forall k :: Outstanding(LaneOf(lanes, k).tasks) == 0
    {
      idle := states.Keys == {};
      if idle {
        forall k
          ensures Outstanding(LaneOf(lanes, k).tasks) == 0
        {
          assert Matches(k) && LaneInv(LaneOf(lanes, k), maxPendingPerKey);
        }
      } else {
        var k: Key :| k in states.Keys;
        assert Matches(k) && LaneInv(LaneOf(lanes, k), maxPendingPerKey);
      }
    }
  }
}
