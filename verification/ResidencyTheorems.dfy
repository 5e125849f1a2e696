/** Safety of the residency protocol over every run. */
module ResidencyTheorems {
  import opened Wrappers
  import opened SetFacts
  import opened ResidencyModel
  import opened ResidencyInvariants

  /** Every step that waits for a lease keeps the invariant. */
  lemma AcquireStepKeepsInv(s: State, step: Step)
    requires Inv(s) && Enabled(s, step)
    requires step.OpenGate? || step.PredecessorGone? || step.TryAcquire? || step.EvictCheck? || step.EvictGiveUp? ||
             step.EvictDone?
    ensures Inv(Apply(s, step))
  {
    match step
    case OpenGate(e) => PutKeepsInv(s, e, OpenGateStep(s, e).entries[e]);
    case PredecessorGone(e) => PutKeepsInv(s, e, s.entries[e].(phase := Acquiring));
    case TryAcquire(e, candidate) => TryAcquireKeepsInv(s, e, candidate);
    case EvictCheck(e) => EvictCheckKeepsInv(s, e);
    case EvictGiveUp(e) => EvictGiveUpKeepsInv(s, e);
    case EvictDone(e) => EvictDoneKeepsInv(s, e);
  }

  /** Every step of the worker start keeps the invariant. */
  lemma StartupStepKeepsInv(s: State, step: Step)
    requires Inv(s) && Enabled(s, step)
    requires step.Proceed? || step.StartFailed? || step.StartSucceeded? || step.Discarded? || step.Publish? ||
      step.Cleanup?
    ensures Inv(Apply(s, step))
  {
    match step
    case Proceed(e) =>
      if s.entries[e].aborted {
        ReleaseIntoFailingKeepsInv(s, e);
      } else {
        PutKeepsInv(s, e, s.entries[e].(phase := Starting));
      }
    case StartFailed(e) => ReleaseIntoFailingKeepsInv(s, e);
    case StartSucceeded(e, status) =>
      if s.entries[e].aborted {
        PutKeepsInv(s, e, s.entries[e].(phase := Discarding));
      } else {
        ActivateKeepsInv(s, e, status);
        NotifyKeepsInv(Activate(s, e, status));
      }
    case Discarded(e) => ReleaseIntoFailingKeepsInv(s, e);
    case Publish(e) => PutKeepsInv(s, e, s.entries[e].(phase := Ready));
    case Cleanup(e) => CleanupKeepsInv(s, e);
  }

  lemma EndTurnKeepsInv(s: State, t: TaskId, now: int)
    requires Inv(s) && t in s.tasks && s.tasks[t].Active? && s.tasks[t].entry in s.entries
    ensures Inv(EndTurnStep(s, t, now))
  {
    var e := s.tasks[t].entry;
    var cleared := s.entries[e].(status := s.entries[e].status.(turn := false, lastUsedAt := now));
    PutKeepsInv(s, e, cleared);
    EndHoldKeepsInv(Put(s, e, cleared), t);
  }

  predicate ByCaller(step: Step) {
    step.AcquireShared? || step.AcquireCreate? || step.TurnResume? || step.RemoveUnavailable? || step.EndTurn? ||
    step.EndStatus? || step.AbortBegin? || step.AbortEvict? || step.AbortEnd?
  }

  predicate ByRemoval(step: Step) {
    step.Remove? || step.Prune? || step.DisposeAll? || step.StartDisposal? || step.FinishDisposal? || step.Environment?
  }

  /** Every step of a turn, a status request or an abort keeps the invariant. */
  lemma CallerStepKeepsInv(s: State, step: Step)
    requires Inv(s) && Enabled(s, step) && ByCaller(step)
    ensures Inv(Apply(s, step))
  {
    match step
    case AcquireShared(t, r, k) => ReserveKeepsInv(s, s.sessions[r][k], t, Awaiting(s.sessions[r][k]));
    case AcquireCreate(t, r, k, victim) => AcquireCreateKeepsInv(s, t, r, k, victim);
    case TurnResume(t, now) => TurnResumeKeepsInv(s, t, now);
    case RemoveUnavailable(t) => RemoveUnavailableKeepsInv(s, t);
    case EndTurn(t, now) => EndTurnKeepsInv(s, t, now);
    case EndStatus(t) => EndHoldKeepsInv(s, t);
    case AbortBegin(t, r, k) => ReserveKeepsInv(s, s.sessions[r][k], t, Aborting(s.sessions[r][k]));
    case AbortEvict(t) => DetachIfAttachedKeepsInv(s, s.tasks[t].entry);
    case AbortEnd(t) => EndHoldKeepsInv(s, t);
  }

  /** Every removal and disposal keeps the invariant. */
  lemma RemovalStepKeepsInv(s: State, step: Step)
    requires Inv(s) && Enabled(s, step) && ByRemoval(step)
    ensures Inv(Apply(s, step))
  {
    match step
    case Remove(r, k) => DetachKeysKeepsInv(s, r, {k});
    case Prune(r, now, ttl) => DetachKeysKeepsInv(s, r, PruneKeys(s, r, now, ttl));
    case DisposeAll(r) => DetachKeysKeepsInv(s, r, s.sessions[r].Keys);
    case StartDisposal(e) => StartDisposalKeepsInv(s, e);
    case FinishDisposal(e) => FinishDisposalKeepsInv(s, e);
    case Environment(e, status) => PutKeepsInv(s, e, s.entries[e].(status := status));
  }

  lemma StepKeepsInv(s: State, step: Step)
    requires Inv(s) && Enabled(s, step)
    ensures Inv(Apply(s, step))
  {
    if ByCaller(step) {
      CallerStepKeepsInv(s, step);
    } else if ByRemoval(step) {
      RemovalStepKeepsInv(s, step);
    } else if step.Proceed? || step.StartFailed? || step.StartSucceeded? || step.Discarded? || step.Publish? ||
              step.Cleanup? {
      StartupStepKeepsInv(s, step);
    } else {
      AcquireStepKeepsInv(s, step);
    }
  }

  lemma InitInv(s: State)
    requires Init(s)
    ensures Inv(s)
  {
  }

  lemma {:induction false} RunKeepsInv(first: State, steps: seq<Step>, last: State)
    requires Inv(first) && Run(first, steps, last)
    ensures Inv(last)
    decreases |steps|
  {
    if steps != [] {
      StepKeepsInv(first, steps[0]);
      RunKeepsInv(Apply(first, steps[0]), steps[1..], last);
    }
  }

  // ---------------------------------------------------------------- what a run guarantees

  /** Entries that may have a worker process: starting, being discarded, or live. */
  function Runtimes(s: State): set<EntryId> {
    set e | e in s.entries && HasRuntime(s.entries[e].phase)
  }

  function LeaseHolders(s: State): set<EntryId> {
    set e | e in s.entries && HoldsLease(s.entries[e].phase)
  }

  /** Every runtime, mapped or detached, owns an unreleased lease nobody else owns;
      no lease outlives its owner's claim to it; so runtimes never exceed the capacity. */
  lemma RuntimesOwnLeases(first: State, steps: seq<Step>, last: State)
    requires Init(first) && Run(first, steps, last)
    ensures forall e :: e in Runtimes(last) ==>
      last.entries[e].lease.Some? && last.entries[e].lease.value in last.residents &&
      last.residents[last.entries[e].lease.value].owner == e
    ensures forall l :: l in last.residents ==> last.residents[l].owner in LeaseHolders(last)
    ensures |LeaseHolders(last)| == |last.residents| <= last.capacity
    ensures |Runtimes(last)| <= last.capacity
  {
    InitInv(first);
    RunKeepsInv(first, steps, last);
    LeaseCounts(last);
  }

  lemma LeaseCounts(s: State)
    requires EntriesInv(s) && LeaseInv(s)
    ensures |LeaseHolders(s)| == |s.residents|
    ensures |Runtimes(s)| <= |LeaseHolders(s)|
  {
    var lease := map e | e in s.entries && s.entries[e].lease.Some? :: s.entries[e].lease.value;
    forall e | e in LeaseHolders(s) ensures e in lease && lease[e] in s.residents && s.residents[lease[e]].owner == e {
      assert EntryOk(s.entries[e]);
    }
    InjectionSize(LeaseHolders(s), lease, s.residents.Keys);
    var owner := map l | l in s.residents :: s.residents[l].owner;
    forall l | l in s.residents ensures owner[l] in LeaseHolders(s) {
      assert EntryOk(s.entries[owner[l]]);
    }
    forall l, m | l in s.residents && m in s.residents && owner[l] == owner[m] ensures l == m {
      assert s.entries[owner[l]].lease == Some(l) && s.entries[owner[m]].lease == Some(m);
    }
    InjectionSize(s.residents.Keys, owner, LeaseHolders(s));
    assert forall e :: e in Runtimes(s) ==> e in LeaseHolders(s);
    SubsetSize(Runtimes(s), LeaseHolders(s));
  }

  /** In every reachable state a mapped entry counts exactly its holders, and no map is over its limit. */
  lemma ReservationsCountHolders(first: State, steps: seq<Step>, last: State)
    requires Init(first) && Run(first, steps, last)
    ensures forall e :: Attached(last, e) ==> last.entries[e].reservations == |Holders(last, e)|
    ensures forall r :: r in last.sessions ==> r in last.limits && |last.sessions[r]| <= last.limits[r]
  {
    InitInv(first);
    RunKeepsInv(first, steps, last);
  }

  /** Nothing is forgotten: a runtime outside its map has a disposal owed or under way,
      a mapped entry is neither cancelled nor being disposed, and no cancelled startup stays parked. */
  lemma DetachedRuntimesAreDisposed(first: State, steps: seq<Step>, last: State)
    requires Init(first) && Run(first, steps, last)
    ensures forall e :: e in LeaseHolders(last) && !Attached(last, e) ==>
      last.entries[e].disposal.Owed? || last.entries[e].disposal.Running?
    ensures forall e :: Attached(last, e) ==> last.entries[e].disposal.NotRequested? && !last.entries[e].aborted
    ensures forall e :: e in last.waiters ==> e in last.entries && !last.entries[e].aborted
  {
    InitInv(first);
    RunKeepsInv(first, steps, last);
  }

  /** The steps that take an entry out of its map without asking for it by name. */
  predicate Reclaims(step: Step) {
    step.AcquireCreate? || step.Prune? || step.EvictCheck?
  }

  /** Making room, pruning and host-wide eviction never take a held entry. */
  lemma ReclaimingSparesHolders(first: State, steps: seq<Step>, s: State, step: Step, e: EntryId)
    requires Init(first) && Run(first, steps, s) && Enabled(s, step) && Reclaims(step)
    requires Attached(s, e) && Holders(s, e) != {}
    ensures Attached(Apply(s, step), e)
  {
    InitInv(first);
    RunKeepsInv(first, steps, s);
    HeldEntriesStay(s, step, e);
  }

  lemma HeldEntriesStay(s: State, step: Step, e: EntryId)
    requires Inv(s) && Enabled(s, step) && Reclaims(step)
    requires Attached(s, e) && Holders(s, e) != {}
    ensures Attached(Apply(s, step), e)
  {
    assert s.entries[e].reservations > 0;
    match step
    case AcquireCreate(t, r, k, victim) =>
      if victim.Some? {
        DetachAttached(s, s.entries[victim.value].registry, {s.entries[victim.value].key});
        DetachKeysKeepsInv(s, s.entries[victim.value].registry, {s.entries[victim.value].key});
        InsertAttached(Detach(s, victim.value), t, r, k, victim);
      } else {
        InsertAttached(s, t, r, k, victim);
      }
    case Prune(r, now, ttl) => DetachAttached(s, r, PruneKeys(s, r, now, ttl));
    case EvictCheck(a) =>
      var v := s.entries[a].phase.victim;
      if Attached(s, v) && Quiet(s.entries[v]) {
        DetachAttached(s, s.entries[v].registry, {s.entries[v].key});
        SameAttached(Detach(s, v), Apply(s, step));
      } else {
        SameAttached(s, Apply(s, step));
      }
  }

  /** A new entry pushes out only an unheld entry of its own registry that was used no later
      than any other idle one, and only when the registry is full. */
  lemma CapacityEvictsLeastRecentlyUsed(
      first: State, steps: seq<Step>, s: State, t: TaskId, r: RegistryId, k: Key, victim: Option<EntryId>, e: EntryId)
    requires Init(first) && Run(first, steps, s) && Enabled(s, AcquireCreate(t, r, k, victim))
    requires Attached(s, e) && !Attached(AcquireCreateStep(s, t, r, k, victim), e)
    ensures victim == Some(e) && Holders(s, e) == {} && |s.sessions[r]| >= s.limits[r]
    ensures forall f :: IdleIn(s, r, f) ==> s.entries[e].status.lastUsedAt <= s.entries[f].status.lastUsedAt
  {
    InitInv(first);
    RunKeepsInv(first, steps, s);
    OnlyTheVictimLeaves(s, t, r, k, victim, e);
  }

  lemma OnlyTheVictimLeaves(s: State, t: TaskId, r: RegistryId, k: Key, victim: Option<EntryId>, e: EntryId)
    requires Inv(s) && Enabled(s, AcquireCreate(t, r, k, victim))
    requires Attached(s, e) && !Attached(AcquireCreateStep(s, t, r, k, victim), e)
    ensures victim == Some(e) && Holders(s, e) == {} && |s.sessions[r]| >= s.limits[r]
    ensures forall f :: IdleIn(s, r, f) ==> s.entries[e].status.lastUsedAt <= s.entries[f].status.lastUsedAt
  {
    if victim.Some? {
      var v := s.entries[victim.value];
      DetachAttached(s, v.registry, {v.key});
      DetachKeysKeepsInv(s, v.registry, {v.key});
      InsertAttached(Detach(s, victim.value), t, r, k, victim);
    } else {
      InsertAttached(s, t, r, k, victim);
    }
  }

  /** A stale release changes no reservation at all; a timely one takes exactly one off its own entry. */
  lemma ReleaseTouchesOnlyItsEntry(first: State, steps: seq<Step>, s: State, t: TaskId, now: int)
    requires Init(first) && Run(first, steps, s) && Enabled(s, EndTurn(t, now))
    ensures EndTurnStep(s, t, now).entries.Keys == s.entries.Keys
    ensures forall f :: f in s.entries ==>
      EndTurnStep(s, t, now).entries[f].reservations ==
      s.entries[f].reservations - (if f == s.tasks[t].entry && Attached(s, f) then 1 else 0)
  {
    InitInv(first);
    RunKeepsInv(first, steps, s);
    ReleaseCounts(s, t, now);
  }

  lemma ReleaseCounts(s: State, t: TaskId, now: int)
    requires HolderInv(s) && t in s.tasks && s.tasks[t].Active? && s.tasks[t].entry in s.entries
    ensures EndTurnStep(s, t, now).entries.Keys == s.entries.Keys
    ensures forall f :: f in s.entries ==>
      EndTurnStep(s, t, now).entries[f].reservations ==
      s.entries[f].reservations - (if f == s.tasks[t].entry && Attached(s, f) then 1 else 0)
  {
    var e := s.tasks[t].entry;
    var u := Put(s, e, s.entries[e].(status := s.entries[e].status.(turn := false, lastUsedAt := now)));
    SameAttached(s, u);
    assert t in Holders(s, e);
  }
}
