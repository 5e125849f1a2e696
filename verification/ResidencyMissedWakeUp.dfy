/** A run of the residency protocol that misses a wake-up: at its end nothing is going on, and still a
    startup is parked beside a runtime that nobody uses. */
module ResidencyMissedWakeUp {
  import opened Wrappers
  import opened ResidencyModel
  import opened ResidencyOutcomes
  import opened ResidencyProgress
  import WakeUps = ResidencyWakeUps

  /** A Host with room for one runtime and one registry for two sessions. */
  const EMPTY := State(1, map[0 := 2], map[], 0, {}, map[0 := map[]], map[], 0, map[])

  ghost predicate Reached(s: State) {
    exists steps :: Run(EMPTY, steps, s)
  }

  lemma {:induction false} RunsOn(a: State, xs: seq<Step>, b: State, step: Step)
    requires Run(a, xs, b) && Enabled(b, step)
    ensures Run(a, xs + [step], Apply(b, step))
    decreases |xs|
  {
    if xs == [] {
      assert ([] + [step])[1..] == [];
      assert Run(Apply(b, step), [], Apply(b, step));
    } else {
      assert (xs + [step])[1..] == xs[1..] + [step];
      RunsOn(Apply(a, xs[0]), xs[1..], b, step);
    }
  }

  lemma Reach(a: State, step: Step, b: State)
    requires Reached(a) && Enabled(a, step) && Apply(a, step) == b
    ensures Reached(b)
  {
    var steps :| Run(EMPTY, steps, a);
    RunsOn(EMPTY, steps, a, step);
  }

  // ---------------------------------------------------------------- the first session

  function First(reservations: nat, phase: Phase, lease: Option<LeaseId>, status: Status): Entry {
    Entry(0, "a", reservations, phase, lease, false, NotRequested, status)
  }

  const NEW := Status(false, false, false, 0)

  function UsedAt(now: int): Status {
    Status(false, false, true, now)
  }

  function Alone(entry: Entry, residents: map<LeaseId, Resident>, leases: nat, tasks: map<TaskId, Task>): State {
    State(1, map[0 := 2], residents, leases, {}, map[0 := map["a" := 0]], map[0 := entry], 1, tasks)
  }

  const ONE_STARTING := Alone(First(1, Starting, Some(0), NEW), map[0 := Resident(0, false, false)], 1,
                              map[0 := Awaiting(0)])
  const ONE_READY := Alone(First(1, Ready, Some(0), UsedAt(0)), map[0 := Resident(0, true, false)], 1,
                           map[0 := Awaiting(0)])
  const ONE_IDLE := Alone(First(0, Ready, Some(0), UsedAt(2)), map[0 := Resident(0, true, false)], 1, map[])

  lemma OneCalls()
    ensures Reached(Alone(First(1, Acquiring, None, NEW), map[], 0, map[0 := Awaiting(0)]))
  {
    assert Run(EMPTY, [], EMPTY);
    var gated := Alone(First(1, Gated(None), None, NEW), map[], 0, map[0 := Awaiting(0)]);
    Reach(EMPTY, AcquireCreate(0, 0, "a", None), gated);
    Reach(gated, OpenGate(0), Alone(First(1, Acquiring, None, NEW), map[], 0, map[0 := Awaiting(0)]));
  }

  lemma OneStarts()
    ensures Reached(ONE_STARTING)
  {
    OneCalls();
    var acquiring := Alone(First(1, Acquiring, None, NEW), map[], 0, map[0 := Awaiting(0)]);
    var granted := Alone(First(1, Granted, Some(0), NEW), map[0 := Resident(0, false, false)], 1,
                         map[0 := Awaiting(0)]);
    Reach(acquiring, TryAcquire(0, None), granted);
    Reach(granted, Proceed(0), ONE_STARTING);
  }

  lemma OneIsReady()
    ensures Reached(ONE_READY)
  {
    OneStarts();
    var activated :=
      Alone(First(1, Activated, Some(0), UsedAt(0)), map[0 := Resident(0, true, false)], 1, map[0 := Awaiting(0)]);
    Reach(ONE_STARTING, StartSucceeded(0, UsedAt(0)), activated);
    Reach(activated, Publish(0), ONE_READY);
  }

  lemma OneIsIdle()
    ensures Reached(ONE_IDLE)
  {
    OneIsReady();
    var active := Alone(First(1, Ready, Some(0), UsedAt(1)), map[0 := Resident(0, true, false)], 1,
                        map[0 := Active(0)]);
    Reach(ONE_READY, TurnResume(0, 1), active);
    Reach(active, EndTurn(0, 2), ONE_IDLE);
  }

  // ---------------------------------------------------------------- the second session

  function Both(first: Entry, phase: Phase, evicting: bool, waiters: set<EntryId>, tasks: map<TaskId, Task>): State {
    State(1, map[0 := 2], map[0 := Resident(0, true, evicting)], 1, waiters, map[0 := map["a" := 0, "b" := 1]],
          map[0 := first, 1 := Entry(0, "b", 1, phase, None, false, NotRequested, NEW)], 2, tasks)
  }

  const IDLE := First(0, Ready, Some(0), UsedAt(2))
  const HELD := First(1, Ready, Some(0), UsedAt(2))
  const ASKED := First(1, Ready, Some(0), UsedAt(3))
  const REST := First(0, Ready, Some(0), UsedAt(3))

  /** The second caller finds the Host full and sets out to evict the first runtime. */
  lemma TwoCalls()
    ensures Reached(Both(IDLE, Acquiring, false, {}, map[1 := Awaiting(1)]))
  {
    OneIsIdle();
    var gated := Both(IDLE, Gated(None), false, {}, map[1 := Awaiting(1)]);
    Reach(ONE_IDLE, AcquireCreate(1, 0, "b", None), gated);
    Reach(gated, OpenGate(1), Both(IDLE, Acquiring, false, {}, map[1 := Awaiting(1)]));
  }

  const JOINED := Both(HELD, Evicting(0, 0), true, {}, map[1 := Awaiting(1), 2 := Awaiting(0)])
  const REFUSED := Both(HELD, EvictRefused(0), true, {}, map[1 := Awaiting(1), 2 := Awaiting(0)])
  const SERVED := Both(ASKED, EvictRefused(0), true, {}, map[1 := Awaiting(1), 2 := Active(0)])
  const OVER := Both(REST, EvictRefused(0), true, {}, map[1 := Awaiting(1)])

  /** A status request joins the first session just before. */
  lemma StatusJoins()
    ensures Reached(JOINED)
  {
    TwoCalls();
    var acquiring := Both(IDLE, Acquiring, false, {}, map[1 := Awaiting(1)]);
    var evicting := Both(IDLE, Evicting(0, 0), true, {}, map[1 := Awaiting(1)]);
    Reach(acquiring, TryAcquire(1, Some(0)), evicting);
    Reach(evicting, AcquireShared(2, 0, "a"), JOINED);
  }

  /** So the eviction is refused. */
  lemma TwoIsRefused()
    ensures Reached(SERVED)
  {
    StatusJoins();
    Reach(JOINED, EvictCheck(1), REFUSED);
    Reach(REFUSED, TurnResume(2, 3), SERVED);
  }

  /** It is over before the refusal comes back, and then nobody is parked yet whom it could wake. */
  lemma StatusEnds()
    ensures Reached(OVER)
  {
    TwoIsRefused();
    Reach(SERVED, EndStatus(2), OVER);
  }

  const STUCK := Both(REST, Waiting, false, {1}, map[1 := Awaiting(1)])

  lemma NothingGoesOn(step: Step)
    requires Ongoing(step)
    ensures !Enabled(STUCK, step)
  {
  }

  /** In the end the runtime of "a" is free to be evicted and no step is under way, yet the startup of
      "b" is parked and its caller waits. */
  lemma WakeUpMissed()
    ensures Init(EMPTY) && exists steps :: Run(EMPTY, steps, STUCK)
    ensures 1 in STUCK.entries && STUCK.entries[1].phase == Waiting && !Busy(STUCK) && WakeUps.Overlooks(STUCK)
  {
    StatusEnds();
    Reach(OVER, EvictGiveUp(1), STUCK);
    forall step | Ongoing(step)
      ensures !Enabled(STUCK, step)
    {
      NothingGoesOn(step);
    }
    assert Reclaimable(STUCK, 0);
  }
}
