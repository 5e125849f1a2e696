/** The registries and their shared coordinator as mutable state.

    Every method is one synchronous stretch of the program and does exactly one step of
    `ResidencyModel`; `Valid` is the invariant all steps keep.  */
module ResidencyHost {
  import opened Wrappers
  import opened SetFacts
  import opened ResidencyModel
  import opened ResidencyInvariants
  import opened ResidencyTheorems

  class Host {
    const capacity: nat
    const limits: map<RegistryId, nat>
    var residents: map<LeaseId, Resident>
    var nextLeaseId: LeaseId
    var waiters: set<EntryId>
    var sessions: map<RegistryId, map<Key, EntryId>>
    var entries: map<EntryId, Entry>
    var nextEntryId: EntryId
    var tasks: map<TaskId, Task>

    function Snapshot(): State
      reads this
    {
      State(capacity, limits, residents, nextLeaseId, waiters, sessions, entries, nextEntryId, tasks)
    }

    ghost predicate Valid()
      reads this
    {
      Inv(Snapshot())
    }

    constructor (capacity: nat, limits: map<RegistryId, nat>)
      ensures Valid() && Init(Snapshot())
      ensures this.capacity == capacity && this.limits == limits
    {
      this.capacity, this.limits := capacity, limits;
      residents, nextLeaseId, waiters := map[], 0, {};
      sessions := map r | r in limits :: map[];
      entries, nextEntryId, tasks := map[], 0, map[];
      new;
      InitInv(Snapshot());
    }

    method Wake()
      modifies this
      ensures Snapshot() == Notify(old(Snapshot()))
    {
      var before := entries;
      var rest := waiters;
      while rest != {}
        invariant waiters == rest <= old(waiters)
        invariant entries.Keys == before.Keys
        invariant forall e :: e in before ==>
          entries[e] == if e in old(waiters) && e !in rest then before[e].(phase := Acquiring) else before[e]
        invariant Snapshot() == old(Snapshot()).(waiters := waiters, entries := entries)
        decreases rest
      {
        var e := Pick(rest);
        rest, waiters := rest - {e}, waiters - {e};
        if e in entries {
          entries := entries[e := entries[e].(phase := Acquiring)];
        }
      }
      forall e | e in before ensures entries[e] == Notify(old(Snapshot())).entries[e] {
        assert e !in rest;
      }
      assert entries == Notify(old(Snapshot())).entries;
    }

    /** The coordinator's scan for the idle resident that was used longest ago. */
    method LruIdleCandidate() returns (candidate: Option<LeaseId>)
      ensures candidate.Some? ==> LruIdleLease(Snapshot(), candidate.value)
      ensures candidate.None? ==> forall l :: !IdleLease(Snapshot(), l)
    {
      candidate := None;
      var rest := residents.Keys;
      while rest != {}
        invariant rest <= residents.Keys
        invariant candidate.Some? ==> IdleLease(Snapshot(), candidate.value)
        invariant forall l :: l !in rest && IdleLease(Snapshot(), l) ==>
          candidate.Some? && entries[residents[candidate.value].owner].status.lastUsedAt
                             <= entries[residents[l].owner].status.lastUsedAt
        decreases rest
      {
        var l := Pick(rest);
        rest := rest - {l};
        var r := residents[l];
        if !r.evicting && r.active && Attached(Snapshot(), r.owner) && Quiet(entries[r.owner]) {
          if candidate.None? ||
             entries[r.owner].status.lastUsedAt < entries[residents[candidate.value].owner].status.lastUsedAt
          {
            candidate := Some(l);
          }
        }
      }
    }

    // -------------------------------------------------------------- a caller's turn

    method DetachEntry(e: EntryId)
      requires Attached(Snapshot(), e)
      modifies this
      ensures Snapshot() == Detach(old(Snapshot()), e)
    {
      var r, k := entries[e].registry, entries[e].key;
      sessions := sessions[r := sessions[r] - {k}];
      entries := entries[e := entries[e].(disposal := Owed)];
      assert entries == Detach(old(Snapshot()), e).entries;
    }

    /** Makes room in a full registry by removing its least recently used idle entry. */
    method TakeIdleEntryForCapacity(r: RegistryId) returns (victim: Result<Option<EntryId>, string>)
      requires Valid() && r in sessions && r in limits
      modifies this
      ensures |old(sessions)[r]| < limits[r] ==> victim == Ok(None)
      ensures victim == Ok(None) ==> |old(sessions)[r]| < limits[r] && Snapshot() == old(Snapshot())
      ensures victim.Ok? && victim.value.Some? ==>
        LruIdleIn(old(Snapshot()), r, victim.value.value) &&
        Snapshot() == Detach(old(Snapshot()), victim.value.value)
      ensures victim.Err? ==> Snapshot() == old(Snapshot()) && forall v :: !IdleIn(Snapshot(), r, v)
    {
      if |sessions[r]| < limits[r] {
        return Ok(None);
      }
      var candidate: Option<EntryId> := None;
      var rest := sessions[r].Keys;
      while rest != {}
        invariant Snapshot() == old(Snapshot())
        invariant rest <= sessions[r].Keys
        invariant candidate.Some? ==> IdleIn(Snapshot(), r, candidate.value)
        invariant forall k :: k in sessions[r] && k !in rest && IdleIn(Snapshot(), r, sessions[r][k]) ==>
          candidate.Some? && entries[candidate.value].status.lastUsedAt <= entries[sessions[r][k]].status.lastUsedAt
        decreases rest
      {
        var k := Pick(rest);
        rest := rest - {k};
        assert Mapped(Snapshot(), r, k);
        var e := sessions[r][k];
        if entries[e].phase.Ready? && Quiet(entries[e]) {
          if candidate.None? || entries[e].status.lastUsedAt < entries[candidate.value].status.lastUsedAt {
            candidate := Some(e);
          }
        }
      }
      forall v | IdleIn(Snapshot(), r, v)
        ensures candidate.Some? && entries[candidate.value].status.lastUsedAt <= entries[v].status.lastUsedAt
      {
        assert entries[v].key !in rest && sessions[r][entries[v].key] == v;
      }
      if candidate.None? {
        return Err("registry is full and no idle runtime can be evicted");
      }
      DetachEntry(candidate.value);
      victim := Ok(candidate);
    }

    method TakeReservation(e: EntryId, t: TaskId, task: Task)
      requires e in entries
      modifies this
      ensures Snapshot() == Reserve(old(Snapshot()), e, t, task)
    {
      entries := entries[e := entries[e].(reservations := entries[e].reservations + 1)];
      tasks := tasks[t := task];
    }

    method Join(t: TaskId, r: RegistryId, k: Key)
      requires Valid() && Enabled(Snapshot(), AcquireShared(t, r, k))
      modifies this
      ensures Valid() && Snapshot() == Apply(old(Snapshot()), AcquireShared(t, r, k))
    {
      ghost var s := Snapshot();
      TakeReservation(sessions[r][k], t, Awaiting(sessions[r][k]));
      StepKeepsInv(s, AcquireShared(t, r, k));
    }

    /** Puts a fresh entry, still behind its start gate, into the map. */
    method PrepareEntry(t: TaskId, r: RegistryId, k: Key, evicted: Option<EntryId>)
      requires r in sessions
      modifies this
      ensures Snapshot() == Insert(old(Snapshot()), t, r, k, evicted)
    {
      var e := nextEntryId;
      entries := entries[e := Entry(r, k, 1, Gated(evicted), None, false, NotRequested,
                                    Status(false, false, false, 0))];
      nextEntryId := e + 1;
      sessions := sessions[r := sessions[r][k := e]];
      tasks := tasks[t := Awaiting(e)];
    }

    /** Joins the mapped entry, or puts a fresh one in its place.  Failing changes nothing. */
    method AcquireForTurn(t: TaskId, r: RegistryId, k: Key) returns (victim: Result<Option<EntryId>, string>)
      requires Valid() && t !in tasks && r in sessions && r in limits
      modifies this
      ensures Valid()
      ensures Mapped(old(Snapshot()), r, k) ==>
        victim == Ok(None) && Snapshot() == Apply(old(Snapshot()), AcquireShared(t, r, k))
      ensures !Mapped(old(Snapshot()), r, k) && victim.Ok? ==>
        Enabled(old(Snapshot()), AcquireCreate(t, r, k, victim.value)) &&
        Snapshot() == Apply(old(Snapshot()), AcquireCreate(t, r, k, victim.value))
      ensures victim.Err? ==>
        Snapshot() == old(Snapshot()) && |sessions[r]| >= limits[r] && forall v :: !IdleIn(Snapshot(), r, v)
    {
      ghost var s := Snapshot();
      if k in sessions[r] {
        Join(t, r, k);
        return Ok(None);
      }
      victim := TakeIdleEntryForCapacity(r);
      if victim.Ok? {
        PrepareEntry(t, r, k, victim.value);
        StepKeepsInv(s, AcquireCreate(t, r, k, victim.value));
      }
    }

    /** The awaited startup settled: keep the runtime, give it up when unavailable, or fail. */
    method ResumeTurn(t: TaskId, now: int)
      requires Valid() && Enabled(Snapshot(), TurnResume(t, now))
      modifies this
      ensures Valid() && Snapshot() == Apply(old(Snapshot()), TurnResume(t, now))
    {
      ghost var s := Snapshot();
      var e := tasks[t].entry;
      if entries[e].phase.Failed? {
        entries := entries[e := entries[e].(reservations := Dec(entries[e].reservations))];
        tasks := tasks - {t};
      } else {
        entries := entries[e := entries[e].(status := entries[e].status.(lastUsedAt := now))];
        if entries[e].status.available {
          tasks := tasks[t := Active(e)];
        } else {
          entries := entries[e := entries[e].(reservations := Dec(entries[e].reservations))];
          tasks := tasks[t := Removing(e)];
        }
      }
      StepKeepsInv(s, TurnResume(t, now));
    }

    method RemoveUnavailableEntry(t: TaskId)
      requires Valid() && Enabled(Snapshot(), RemoveUnavailable(t))
      modifies this
      ensures Valid() && Snapshot() == Apply(old(Snapshot()), RemoveUnavailable(t))
    {
      ghost var s := Snapshot();
      if Attached(Snapshot(), tasks[t].entry) {
        DetachEntry(tasks[t].entry);
      }
      tasks := tasks - {t};
      StepKeepsInv(s, RemoveUnavailable(t));
    }

    /** Gives the reservation back to the entry if the map still holds it. */
    method ReleaseReservation(t: TaskId)
      requires t in tasks
      modifies this
      ensures Snapshot() == EndHoldStep(old(Snapshot()), t)
    {
      var e := tasks[t].entry;
      tasks := tasks - {t};
      if Attached(Snapshot(), e) {
        entries := entries[e := entries[e].(reservations := Dec(entries[e].reservations))];
        if entries[e].lease.Some? {
          Wake();
        }
      }
    }

    method FinishTurn(t: TaskId, now: int)
      requires Valid() && Enabled(Snapshot(), EndTurn(t, now))
      modifies this
      ensures Valid() && Snapshot() == Apply(old(Snapshot()), EndTurn(t, now))
    {
      ghost var s := Snapshot();
      var e := tasks[t].entry;
      entries := entries[e := entries[e].(status := entries[e].status.(turn := false, lastUsedAt := now))];
      ReleaseReservation(t);
      StepKeepsInv(s, EndTurn(t, now));
    }

    method FinishStatus(t: TaskId)
      requires Valid() && Enabled(Snapshot(), EndStatus(t))
      modifies this
      ensures Valid() && Snapshot() == Apply(old(Snapshot()), EndStatus(t))
    {
      ghost var s := Snapshot();
      ReleaseReservation(t);
      StepKeepsInv(s, EndStatus(t));
    }

    // -------------------------------------------------------------- abort, reset, pruning

    method BeginAbort(t: TaskId, r: RegistryId, k: Key)
      requires Valid() && Enabled(Snapshot(), AbortBegin(t, r, k))
      modifies this
      ensures Valid() && Snapshot() == Apply(old(Snapshot()), AbortBegin(t, r, k))
    {
      ghost var s := Snapshot();
      TakeReservation(sessions[r][k], t, Aborting(sessions[r][k]));
      StepKeepsInv(s, AbortBegin(t, r, k));
    }

    method EvictAborted(t: TaskId)
      requires Valid() && Enabled(Snapshot(), AbortEvict(t))
      modifies this
      ensures Valid() && Snapshot() == Apply(old(Snapshot()), AbortEvict(t))
    {
      ghost var s := Snapshot();
      if Attached(Snapshot(), tasks[t].entry) {
        DetachEntry(tasks[t].entry);
      }
      StepKeepsInv(s, AbortEvict(t));
    }

    method FinishAbort(t: TaskId)
      requires Valid() && Enabled(Snapshot(), AbortEnd(t))
      modifies this
      ensures Valid() && Snapshot() == Apply(old(Snapshot()), AbortEnd(t))
    {
      ghost var s := Snapshot();
      ReleaseReservation(t);
      StepKeepsInv(s, AbortEnd(t));
    }

    /** What reset and an unconditional eviction do to the map. */
    method RemoveSession(r: RegistryId, k: Key)
      requires Valid() && Enabled(Snapshot(), Remove(r, k))
      modifies this
      ensures Valid() && Snapshot() == Apply(old(Snapshot()), Remove(r, k))
    {
      ghost var s := Snapshot();
      DetachEntry(sessions[r][k]);
      StepKeepsInv(s, Remove(r, k));
    }

    method TakeIdle(r: RegistryId, now: int, ttl: int) returns (pruned: nat)
      requires MapInv(Snapshot()) && r in sessions
      modifies this
      ensures Snapshot() == DetachKeys(old(Snapshot()), r, PruneKeys(old(Snapshot()), r, now, ttl))
      ensures pruned == |PruneKeys(old(Snapshot()), r, now, ttl)|
    {
      ghost var s := Snapshot();
      ghost var all := PruneKeys(s, r, now, ttl);
      pruned := 0;
      var rest := sessions[r].Keys;
      assert all - rest == {};
      DetachNone(s, r);
      while rest != {}
        invariant rest <= s.sessions[r].Keys
        invariant pruned == |all - rest|
        invariant Snapshot() == DetachKeys(s, r, all - rest)
        decreases rest
      {
        var k := Pick(rest);
        CollectedSoFar(all, rest, k);
        var target := DetachTarget(s, r, all - rest, k, now, ttl);
        if target {
          pruned := pruned + 1;
        }
        rest := rest - {k};
      }
      assert all - rest == all;
    }

    /** One round of the pruning scan, `gone` being the keys taken out before it. */
    method DetachTarget(ghost s: State, r: RegistryId, ghost gone: set<Key>, k: Key, now: int, ttl: int)
      returns (target: bool)
      requires MapInv(s) && Mapped(s, r, k) && k !in gone && Snapshot() == DetachKeys(s, r, gone)
      modifies this
      ensures target == PruneTarget(s, r, k, now, ttl)
      ensures Snapshot() == DetachKeys(s, r, if target then gone + {k} else gone)
    {
      DetachOneMore(s, r, gone, k);
      target := PruneTarget(Snapshot(), r, k, now, ttl);
      if target {
        DetachEntry(sessions[r][k]);
      }
    }

    method PruneIdle(r: RegistryId, now: int, ttl: int) returns (pruned: nat)
      requires Valid() && r in sessions
      modifies this
      ensures Valid() && Snapshot() == Apply(old(Snapshot()), Prune(r, now, ttl))
      ensures pruned == |PruneKeys(old(Snapshot()), r, now, ttl)|
    {
      ghost var s := Snapshot();
      pruned := TakeIdle(r, now, ttl);
      StepKeepsInv(s, Prune(r, now, ttl));
    }

    method TakeAll(r: RegistryId)
      requires MapInv(Snapshot()) && r in sessions
      modifies this
      ensures Snapshot() == DetachKeys(old(Snapshot()), r, old(sessions)[r].Keys)
    {
      ghost var s := Snapshot();
      entries := map e | e in entries ::
        if Attached(Snapshot(), e) && entries[e].registry == r then entries[e].(disposal := Owed) else entries[e];
      sessions := sessions[r := map[]];
      assert s.sessions[r] - s.sessions[r].Keys == map[];
      assert entries == DetachKeys(s, r, s.sessions[r].Keys).entries;
    }

    method DisposeAllSessions(r: RegistryId)
      requires Valid() && r in sessions
      modifies this
      ensures Valid() && Snapshot() == Apply(old(Snapshot()), DisposeAll(r))
    {
      ghost var s := Snapshot();
      TakeAll(r);
      StepKeepsInv(s, DisposeAll(r));
    }

    // -------------------------------------------------------------- the startup continuation

    method OpenStartGate(e: EntryId)
      requires Valid() && Enabled(Snapshot(), OpenGate(e))
      modifies this
      ensures Valid() && Snapshot() == Apply(old(Snapshot()), OpenGate(e))
    {
      ghost var s := Snapshot();
      var replaced := entries[e].phase.replaced;
      var next := if replaced.Some? then AwaitPredecessor(replaced.value) else Acquiring;
      entries := entries[e := entries[e].(phase := next)];
      StepKeepsInv(s, OpenGate(e));
    }

    method PredecessorDisposed(e: EntryId)
      requires Valid() && Enabled(Snapshot(), PredecessorGone(e))
      modifies this
      ensures Valid() && Snapshot() == Apply(old(Snapshot()), PredecessorGone(e))
    {
      ghost var s := Snapshot();
      entries := entries[e := entries[e].(phase := Acquiring)];
      StepKeepsInv(s, PredecessorGone(e));
    }

    /** Registers the waiter, or fails at once when the startup was cancelled. */
    method WaitForChange(e: EntryId)
      requires e in entries
      modifies this
      ensures Snapshot() == Park(old(Snapshot()), e)
    {
      if entries[e].aborted {
        entries := entries[e := entries[e].(phase := Failing)];
      } else {
        entries := entries[e := entries[e].(phase := Waiting)];
        waiters := waiters + {e};
      }
    }

    method MarkEvicting(l: LeaseId, evicting: bool)
      modifies this
      ensures Snapshot() == SetEvicting(old(Snapshot()), l, evicting)
    {
      if l in residents {
        residents := residents[l := residents[l].(evicting := evicting)];
      }
    }

    method NewLease(e: EntryId)
      requires e in entries
      modifies this
      ensures Snapshot() == CreateLease(old(Snapshot()), e)
    {
      var l := nextLeaseId;
      nextLeaseId := nextLeaseId + 1;
      residents := residents[l := Resident(e, false, false)];
      entries := entries[e := entries[e].(phase := Granted, lease := Some(l))];
    }

    /** One round of the coordinator's acquire loop, up to its next await. */
    method TryAcquireLease(e: EntryId) returns (candidate: Option<LeaseId>)
      requires Valid() && e in entries && entries[e].phase.Acquiring?
      modifies this
      ensures Valid()
      ensures Enabled(old(Snapshot()), TryAcquire(e, candidate))
      ensures Snapshot() == Apply(old(Snapshot()), TryAcquire(e, candidate))
    {
      ghost var s := Snapshot();
      candidate := LruIdleCandidate();
      assert Snapshot() == s && Enabled(s, TryAcquire(e, candidate));
      if entries[e].aborted {
        entries := entries[e := entries[e].(phase := Failing)];
      } else if |residents| < capacity {
        NewLease(e);
      } else if candidate.Some? {
        MarkEvicting(candidate.value, true);
        entries := entries[e := entries[e].(phase := Evicting(candidate.value, residents[candidate.value].owner))];
      } else {
        WaitForChange(e);
      }
      StepKeepsInv(s, TryAcquire(e, candidate));
    }

    /** The mutation inside a resident's evict(): it re-checks that the entry is idle. */
    method EvictIfIdle(e: EntryId)
      requires Valid() && Enabled(Snapshot(), EvictCheck(e))
      modifies this
      ensures Valid() && Snapshot() == Apply(old(Snapshot()), EvictCheck(e))
    {
      ghost var s := Snapshot();
      var l, v := entries[e].phase.lease, entries[e].phase.victim;
      if Attached(Snapshot(), v) && Quiet(entries[v]) {
        DetachEntry(v);
        entries := entries[e := entries[e].(phase := AwaitEviction(l, v))];
      } else {
        entries := entries[e := entries[e].(phase := EvictRefused(l))];
      }
      StepKeepsInv(s, EvictCheck(e));
    }

    method GiveUpEviction(e: EntryId)
      requires Valid() && Enabled(Snapshot(), EvictGiveUp(e))
      modifies this
      ensures Valid() && Snapshot() == Apply(old(Snapshot()), EvictGiveUp(e))
    {
      ghost var s := Snapshot();
      MarkEvicting(entries[e].phase.lease, false);
      WaitForChange(e);
      StepKeepsInv(s, EvictGiveUp(e));
    }

    method FinishEviction(e: EntryId)
      requires Valid() && Enabled(Snapshot(), EvictDone(e))
      modifies this
      ensures Valid() && Snapshot() == Apply(old(Snapshot()), EvictDone(e))
    {
      ghost var s := Snapshot();
      MarkEvicting(entries[e].phase.lease, false);
      entries := entries[e := entries[e].(phase := Acquiring)];
      StepKeepsInv(s, EvictDone(e));
    }

    /** Deletes the lease and wakes the waiters, as the startup or disposal of `e` ends in `p`. */
    method ReleaseResidentLease(e: EntryId, p: Phase)
      requires e in entries && entries[e].lease.Some?
      modifies this
      ensures Snapshot() == ReleaseInto(old(Snapshot()), e, p)
    {
      residents := residents - {entries[e].lease.value};
      entries := entries[e := entries[e].(phase := p, lease := None)];
      Wake();
    }

    method ProceedWithLease(e: EntryId)
      requires Valid() && Enabled(Snapshot(), Proceed(e))
      modifies this
      ensures Valid() && Snapshot() == Apply(old(Snapshot()), Proceed(e))
    {
      ghost var s := Snapshot();
      if entries[e].aborted {
        assert EntryOk(entries[e]);
        ReleaseResidentLease(e, Failing);
      } else {
        entries := entries[e := entries[e].(phase := Starting)];
      }
      StepKeepsInv(s, Proceed(e));
    }

    method FailStart(e: EntryId)
      requires Valid() && Enabled(Snapshot(), StartFailed(e))
      modifies this
      ensures Valid() && Snapshot() == Apply(old(Snapshot()), StartFailed(e))
    {
      ghost var s := Snapshot();
      assert EntryOk(entries[e]);
      ReleaseResidentLease(e, Failing);
      StepKeepsInv(s, StartFailed(e));
    }

    method ActivateResidentLease(e: EntryId, status: Status)
      requires e in entries
      modifies this
      ensures Snapshot() == Notify(Activate(old(Snapshot()), e, status))
    {
      var lease := entries[e].lease;
      if lease.Some? && lease.value in residents {
        residents := residents[lease.value := residents[lease.value].(active := true)];
      }
      entries := entries[e := entries[e].(phase := Activated, status := status)];
      Wake();
    }

    method CompleteStart(e: EntryId, status: Status)
      requires Valid() && Enabled(Snapshot(), StartSucceeded(e, status))
      modifies this
      ensures Valid() && Snapshot() == Apply(old(Snapshot()), StartSucceeded(e, status))
    {
      ghost var s := Snapshot();
      if entries[e].aborted {
        entries := entries[e := entries[e].(phase := Discarding)];
      } else {
        ActivateResidentLease(e, status);
      }
      StepKeepsInv(s, StartSucceeded(e, status));
    }

    method FinishDiscard(e: EntryId)
      requires Valid() && Enabled(Snapshot(), Discarded(e))
      modifies this
      ensures Valid() && Snapshot() == Apply(old(Snapshot()), Discarded(e))
    {
      ghost var s := Snapshot();
      assert EntryOk(entries[e]);
      ReleaseResidentLease(e, Failing);
      StepKeepsInv(s, Discarded(e));
    }

    method PublishManaged(e: EntryId)
      requires Valid() && Enabled(Snapshot(), Publish(e))
      modifies this
      ensures Valid() && Snapshot() == Apply(old(Snapshot()), Publish(e))
    {
      ghost var s := Snapshot();
      entries := entries[e := entries[e].(phase := Ready)];
      StepKeepsInv(s, Publish(e));
    }

    method CleanUpFailure(e: EntryId)
      requires Valid() && Enabled(Snapshot(), Cleanup(e))
      modifies this
      ensures Valid() && Snapshot() == Apply(old(Snapshot()), Cleanup(e))
    {
      ghost var s := Snapshot();
      if Attached(Snapshot(), e) {
        sessions := sessions[entries[e].registry := sessions[entries[e].registry] - {entries[e].key}];
      }
      entries := entries[e := entries[e].(phase := Failed)];
      StepKeepsInv(s, Cleanup(e));
    }

    // -------------------------------------------------------------- disposal

    /** Cancels the startup, which also pulls a parked waiter out of the waiter set. */
    method CancelStartup(e: EntryId)
      requires e in entries
      modifies this
      ensures Snapshot() == StartDisposalStep(old(Snapshot()), e)
    {
      entries := entries[e := entries[e].(disposal := Running, aborted := true)];
      waiters := waiters - {e};
      if entries[e].phase.Waiting? {
        entries := entries[e := entries[e].(phase := Failing)];
      }
    }

    method BeginDisposal(e: EntryId)
      requires Valid() && Enabled(Snapshot(), StartDisposal(e))
      modifies this
      ensures Valid() && Snapshot() == Apply(old(Snapshot()), StartDisposal(e))
    {
      ghost var s := Snapshot();
      CancelStartup(e);
      StepKeepsInv(s, StartDisposal(e));
    }

    /** The runtime has stopped; only now its lease goes back. */
    method StopRuntime(e: EntryId)
      requires e in entries && (entries[e].phase.Ready? ==> entries[e].lease.Some?)
      modifies this
      ensures Snapshot() == FinishDisposalStep(old(Snapshot()), e)
    {
      ghost var s := Snapshot();
      entries := entries[e := entries[e].(disposal := Done)];
      if entries[e].phase.Ready? {
        ReleaseResidentLease(e, Disposed);
        assert Snapshot() == Notify(DropLease(s, e, s.entries[e].(disposal := Done, phase := Disposed)));
      }
    }

    method CompleteDisposal(e: EntryId)
      requires Valid() && Enabled(Snapshot(), FinishDisposal(e))
      modifies this
      ensures Valid() && Snapshot() == Apply(old(Snapshot()), FinishDisposal(e))
    {
      ghost var s := Snapshot();
      assert EntryOk(entries[e]);
      StopRuntime(e);
      StepKeepsInv(s, FinishDisposal(e));
    }
  }

  lemma DetachNone(s: State, r: RegistryId)
    requires r in s.sessions
    ensures DetachKeys(s, r, {}) == s
  {
    assert s.sessions[r] - {} == s.sessions[r];
    assert DetachKeys(s, r, {}).entries == s.entries;
  }

  lemma DetachedEntry(s: State, r: RegistryId, gone: set<Key>, k: Key, e: EntryId, f: EntryId)
    requires MapInv(s) && Mapped(s, r, k) && s.sessions[r][k] == e && k !in gone && f in s.entries
    requires Attached(DetachKeys(s, r, gone), e)
    ensures f in Detach(DetachKeys(s, r, gone), e).entries
    ensures Detach(DetachKeys(s, r, gone), e).entries[f] == DetachKeys(s, r, gone + {k}).entries[f]
  {
    DetachAttached(s, r, gone);
    assert s.entries[e].registry == r && s.entries[e].key == k;
  }

  lemma DetachedEntries(s: State, r: RegistryId, gone: set<Key>, k: Key)
    requires MapInv(s) && Mapped(s, r, k) && k !in gone && Attached(DetachKeys(s, r, gone), s.sessions[r][k])
    ensures Detach(DetachKeys(s, r, gone), s.sessions[r][k]).entries == DetachKeys(s, r, gone + {k}).entries
  {
    var left, right := Detach(DetachKeys(s, r, gone), s.sessions[r][k]).entries, DetachKeys(s, r, gone + {k}).entries;
    forall f | f in s.entries
      ensures left[f] == right[f]
    {
      DetachedEntry(s, r, gone, k, s.sessions[r][k], f);
    }
    assert left.Keys == right.Keys;
  }

  /** While the keys in `gone` are out of the map, `k` still stands as before, and taking it
      out as well is taking out one key more. */
  lemma DetachOneMore(s: State, r: RegistryId, gone: set<Key>, k: Key)
    requires MapInv(s) && Mapped(s, r, k) && k !in gone
    ensures Mapped(DetachKeys(s, r, gone), r, k) && DetachKeys(s, r, gone).sessions[r][k] == s.sessions[r][k]
    ensures s.sessions[r][k] in s.entries
    ensures DetachKeys(s, r, gone).entries[s.sessions[r][k]] == s.entries[s.sessions[r][k]]
    ensures Attached(DetachKeys(s, r, gone), s.sessions[r][k])
    ensures Detach(DetachKeys(s, r, gone), s.sessions[r][k]) == DetachKeys(s, r, gone + {k})
  {
    DetachAttached(s, r, gone);
    DetachedEntries(s, r, gone, k);
    var u, d := DetachKeys(s, r, gone + {k}), Detach(DetachKeys(s, r, gone), s.sessions[r][k]);
    assert d.sessions[r] == u.sessions[r];
    assert d.sessions == u.sessions;
  }
}
