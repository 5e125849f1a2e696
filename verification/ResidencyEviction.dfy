/** The `evicting` marks of the coordinator: at most one startup evicts a resident at a time,
    and a mark lasts no longer than the startup that set it needs it. */
module ResidencyEviction {
  import opened Wrappers
  import opened ResidencyModel
  import opened ResidencyInvariants
  import opened ResidencyTheorems

  /** The resident whose eviction the startup is waiting for. */
  function Target(p: Phase): Option<LeaseId> {
    match p
    case Evicting(l, _) => Some(l)
    case EvictRefused(l) => Some(l)
    case AwaitEviction(l, _) => Some(l)
    case _ => None
  }

  predicate SameTarget(p: Phase, q: Phase) {
    Target(p).Some? && Target(p) == Target(q)
  }

  ghost predicate MarksInv(s: State) {
    (forall e :: e in s.entries && Target(s.entries[e].phase).Some? ==>
      var l := Target(s.entries[e].phase).value;
      l < s.nextLeaseId && (l in s.residents ==> s.residents[l].evicting)) &&
    (forall l :: l in s.residents && s.residents[l].evicting ==>
      exists e :: e in s.entries && Target(s.entries[e].phase) == Some(l)) &&
    (forall e, f :: e in s.entries && f in s.entries && SameTarget(s.entries[e].phase, s.entries[f].phase) ==> e == f)
  }

  /** Nothing that concerns marks has changed, except that unmarked leases may come and leases may go. */
  ghost predicate SameMarks(s: State, t: State) {
    s.nextLeaseId <= t.nextLeaseId &&
    s.entries.Keys <= t.entries.Keys &&
    (forall e :: e in t.entries ==>
      Target(t.entries[e].phase) == if e in s.entries then Target(s.entries[e].phase) else None) &&
    (forall l :: l in t.residents ==>
      if l in s.residents then t.residents[l].evicting == s.residents[l].evicting
      else !t.residents[l].evicting && s.nextLeaseId <= l)
  }

  lemma SameMarksKeepsInv(s: State, t: State)
    requires MarksInv(s) && SameMarks(s, t)
    ensures MarksInv(t)
  {
    forall l | l in t.residents && t.residents[l].evicting
      ensures exists e :: e in t.entries && Target(t.entries[e].phase) == Some(l)
    {
      var e :| e in s.entries && Target(s.entries[e].phase) == Some(l);
      assert e in t.entries && Target(t.entries[e].phase) == Some(l);
    }
  }

  lemma MarkKeepsInv(s: State, e: EntryId, l: LeaseId, p: Phase)
    requires LeaseInv(s) && MarksInv(s) && e in s.entries && Target(s.entries[e].phase).None?
    requires l in s.residents && !s.residents[l].evicting && Target(p) == Some(l)
    ensures MarksInv(WithPhase(SetEvicting(s, l, true), e, p))
  {
    var t := WithPhase(SetEvicting(s, l, true), e, p);
    forall m | m in t.residents && t.residents[m].evicting
      ensures exists f :: f in t.entries && Target(t.entries[f].phase) == Some(m)
    {
      if m == l {
        assert Target(t.entries[e].phase) == Some(m);
      } else {
        var f :| f in s.entries && Target(s.entries[f].phase) == Some(m);
        assert Target(t.entries[f].phase) == Some(m);
      }
    }
  }

  /** The startup that set the mark leaves the eviction and clears it. */
  lemma ClearKeepsInv(s: State, e: EntryId, t: State)
    requires MarksInv(s) && e in s.entries && Target(s.entries[e].phase).Some?
    requires t.nextLeaseId == s.nextLeaseId && t.entries.Keys == s.entries.Keys
    requires t.residents == SetEvicting(s, Target(s.entries[e].phase).value, false).residents
    requires forall f :: f in s.entries ==>
      Target(t.entries[f].phase) == if f == e then None else Target(s.entries[f].phase)
    ensures MarksInv(t)
  {
    var l := Target(s.entries[e].phase).value;
    forall m | m in t.residents && t.residents[m].evicting
      ensures exists f :: f in t.entries && Target(t.entries[f].phase) == Some(m)
    {
      var f :| f in s.entries && Target(s.entries[f].phase) == Some(m);
      assert f in t.entries && Target(t.entries[f].phase) == Some(m);
    }
  }

  // ---------------------------------------------------------------- primitive updates keep the marks

  lemma PutMarks(s: State, e: EntryId, entry: Entry)
    requires e in s.entries && Target(entry.phase) == Target(s.entries[e].phase)
    ensures SameMarks(s, Put(s, e, entry))
  {
  }

  lemma NotifyMarks(s: State, t: State)
    requires SameMarks(s, t)
    requires forall e :: e in t.waiters && e in t.entries ==> t.entries[e].phase.Waiting?
    ensures SameMarks(s, Notify(t))
  {
  }

  lemma DetachMarks(s: State, r: RegistryId, keys: set<Key>)
    requires r in s.sessions
    ensures SameMarks(s, DetachKeys(s, r, keys))
  {
  }

  lemma DetachIfMarks(s: State, e: EntryId)
    ensures SameMarks(s, DetachIfAttached(s, e))
  {
    if Attached(s, e) {
      DetachMarks(s, s.entries[e].registry, {s.entries[e].key});
    }
  }

  lemma ReleaseMarks(s: State, e: EntryId, entry: Entry)
    requires WaiterInv(s) && e in s.entries && !s.entries[e].phase.Waiting?
    requires Target(entry.phase).None? && Target(s.entries[e].phase).None?
    ensures SameMarks(s, Notify(DropLease(s, e, entry)))
  {
    var t := DropLease(s, e, entry);
    assert SameMarks(s, t);
    NotifyMarks(s, t);
  }

  lemma EndHoldMarks(s: State, t: TaskId)
    requires WaiterInv(s) && t in s.tasks
    ensures SameMarks(s, EndHoldStep(s, t))
  {
    var e := s.tasks[t].entry;
    if Attached(s, e) {
      PutMarks(s, e, DecReservation(s, e).entries[e]);
    }
    assert SameMarks(s, Unreserve(s, t));
    NotifyMarks(s, Unreserve(s, t));
  }

  lemma InsertMarks(s: State, t: TaskId, r: RegistryId, k: Key, victim: Option<EntryId>)
    requires EntriesInv(s) && r in s.sessions && (victim.Some? ==> Attached(s, victim.value))
    ensures SameMarks(s, AcquireCreateStep(s, t, r, k, victim))
  {
    if victim.Some? {
      DetachMarks(s, s.entries[victim.value].registry, {s.entries[victim.value].key});
    }
  }

  // ---------------------------------------------------------------- steps

  lemma HoldMarks(s: State, step: Step)
    requires WaiterInv(s) && Enabled(s, step) && (step.EndTurn? || step.EndStatus? || step.AbortEnd?)
    ensures SameMarks(s, Apply(s, step))
  {
    match step
    case EndTurn(t, now) =>
      var e := s.tasks[t].entry;
      var u := Put(s, e, s.entries[e].(status := s.entries[e].status.(turn := false, lastUsedAt := now)));
      PutMarks(s, e, u.entries[e]);
      EndHoldMarks(u, t);
    case EndStatus(t) => EndHoldMarks(s, t);
    case AbortEnd(t) => EndHoldMarks(s, t);
  }

  lemma ResumeMarks(s: State, t: TaskId, now: int)
    requires t in s.tasks && s.tasks[t].entry in s.entries
    ensures SameMarks(s, TurnResumeStep(s, t, now))
  {
    PutMarks(s, s.tasks[t].entry, TurnResumeStep(s, t, now).entries[s.tasks[t].entry]);
  }

  lemma CallerMarks(s: State, step: Step)
    requires EntriesInv(s) && WaiterInv(s) && Enabled(s, step) && ByCaller(step)
    ensures SameMarks(s, Apply(s, step))
  {
    if step.EndTurn? || step.EndStatus? || step.AbortEnd? {
      HoldMarks(s, step);
    } else {
      match step
      case AcquireShared(t, r, k) =>
          PutMarks(s, s.sessions[r][k], AcquireSharedStep(s, t, r, k).entries[s.sessions[r][k]]);
      case AcquireCreate(t, r, k, victim) => InsertMarks(s, t, r, k, victim);
      case TurnResume(t, now) => ResumeMarks(s, t, now);
      case RemoveUnavailable(t) => DetachIfMarks(s, s.tasks[t].entry);
      case AbortBegin(t, r, k) => PutMarks(s, s.sessions[r][k], AbortBeginStep(s, t, r, k).entries[s.sessions[r][k]]);
      case AbortEvict(t) => DetachIfMarks(s, s.tasks[t].entry);
    }
  }

  lemma RemovalMarks(s: State, step: Step)
    requires WaiterInv(s) && Enabled(s, step) && ByRemoval(step)
    ensures SameMarks(s, Apply(s, step))
  {
    match step
    case Remove(r, k) => DetachMarks(s, r, {k});
    case Prune(r, now, ttl) => DetachMarks(s, r, PruneKeys(s, r, now, ttl));
    case DisposeAll(r) => DetachMarks(s, r, s.sessions[r].Keys);
    case StartDisposal(e) => PutMarks(s, e, Apply(s, step).entries[e]);
    case FinishDisposal(e) =>
      PutMarks(s, e, s.entries[e].(disposal := Done));
      ReleaseMarks(s, e, s.entries[e].(disposal := Done, phase := Disposed));
    case Environment(e, status) => PutMarks(s, e, s.entries[e].(status := status));
  }

  lemma StartSucceededMarks(s: State, e: EntryId, status: Status)
    requires WaiterInv(s) && e in s.entries && s.entries[e].phase.Starting?
    ensures SameMarks(s, StartSucceededStep(s, e, status))
  {
    PutMarks(s, e, s.entries[e].(phase := Discarding));
    assert SameMarks(s, Activate(s, e, status));
    NotifyMarks(s, Activate(s, e, status));
  }

  lemma StartupMarks(s: State, step: Step)
    requires WaiterInv(s) && LeaseInv(s) && Enabled(s, step)
    requires step.OpenGate? || step.PredecessorGone? || step.Proceed? || step.StartFailed? || step.StartSucceeded? ||
             step.Discarded? || step.Publish? || step.Cleanup?
    ensures SameMarks(s, Apply(s, step))
  {
    match step
    case OpenGate(e) => PutMarks(s, e, Apply(s, step).entries[e]);
    case PredecessorGone(e) => PutMarks(s, e, Apply(s, step).entries[e]);
    case Proceed(e) =>
      PutMarks(s, e, s.entries[e].(phase := Starting));
      ReleaseMarks(s, e, s.entries[e].(phase := Failing));
    case StartFailed(e) => ReleaseMarks(s, e, s.entries[e].(phase := Failing));
    case StartSucceeded(e, status) =>
      StartSucceededMarks(s, e, status);
    case Discarded(e) => ReleaseMarks(s, e, s.entries[e].(phase := Failing));
    case Publish(e) => PutMarks(s, e, s.entries[e].(phase := Ready));
    case Cleanup(e) => PutMarks(s, e, s.entries[e].(phase := Failed));
  }

  lemma TryAcquireKeepsMarks(s: State, e: EntryId, candidate: Option<LeaseId>)
    requires LeaseInv(s) && MarksInv(s) && Enabled(s, TryAcquire(e, candidate))
    ensures MarksInv(TryAcquireStep(s, e, candidate))
  {
    if !s.entries[e].aborted && |s.residents| >= s.capacity && candidate.Some? {
      MarkKeepsInv(s, e, candidate.value, Evicting(candidate.value, s.residents[candidate.value].owner));
    } else {
      assert SameMarks(s, TryAcquireStep(s, e, candidate));
      SameMarksKeepsInv(s, TryAcquireStep(s, e, candidate));
    }
  }

  lemma StepKeepsMarks(s: State, step: Step)
    requires EntriesInv(s) && WaiterInv(s) && LeaseInv(s) && MarksInv(s) && Enabled(s, step)
    ensures MarksInv(Apply(s, step))
  {
    if step.TryAcquire? {
      TryAcquireKeepsMarks(s, step.entry, step.candidate);
    } else if step.EvictCheck? {
      EvictCheckKeepsMarks(s, step.entry);
    } else if step.EvictGiveUp? {
      GiveUpKeepsMarks(s, step.entry);
    } else if step.EvictDone? {
      EvictDoneKeepsMarks(s, step.entry);
    } else {
      OtherStepMarks(s, step);
      SameMarksKeepsInv(s, Apply(s, step));
    }
  }

  lemma ParkTargets(u: State, e: EntryId)
    requires e in u.entries
    ensures Park(u, e).residents == u.residents && Park(u, e).nextLeaseId == u.nextLeaseId &&
      Park(u, e).entries.Keys == u.entries.Keys
    ensures forall f :: f in u.entries ==>
      Target(Park(u, e).entries[f].phase) == if f == e then None else Target(u.entries[f].phase)
  {
  }

  lemma GiveUpKeepsMarks(s: State, e: EntryId)
    requires MarksInv(s) && e in s.entries && s.entries[e].phase.EvictRefused?
    ensures MarksInv(EvictGiveUpStep(s, e))
  {
    var u := SetEvicting(s, s.entries[e].phase.lease, false);
    ParkTargets(u, e);
    ClearKeepsInv(s, e, Park(u, e));
  }

  lemma EvictDoneKeepsMarks(s: State, e: EntryId)
    requires MarksInv(s) && Enabled(s, EvictDone(e))
    ensures MarksInv(EvictDoneStep(s, e))
  {
    ClearKeepsInv(s, e, EvictDoneStep(s, e));
  }

  lemma EvictCheckKeepsMarks(s: State, e: EntryId)
    requires MarksInv(s) && Enabled(s, EvictCheck(e))
    ensures MarksInv(EvictCheckStep(s, e))
  {
    var l, v := s.entries[e].phase.lease, s.entries[e].phase.victim;
    if Attached(s, v) && Quiet(s.entries[v]) {
      DetachMarks(s, s.entries[v].registry, {s.entries[v].key});
      SameMarksKeepsInv(s, Detach(s, v));
      var u := Detach(s, v);
      PutMarks(u, e, u.entries[e].(phase := AwaitEviction(l, v)));
      SameMarksKeepsInv(u, EvictCheckStep(s, e));
    } else {
      PutMarks(s, e, s.entries[e].(phase := EvictRefused(l)));
      SameMarksKeepsInv(s, EvictCheckStep(s, e));
    }
  }

  lemma OtherStepMarks(s: State, step: Step)
    requires EntriesInv(s) && WaiterInv(s) && LeaseInv(s) && Enabled(s, step)
    requires !step.TryAcquire? && !step.EvictCheck? && !step.EvictGiveUp? && !step.EvictDone?
    ensures SameMarks(s, Apply(s, step))
  {
    if ByRemoval(step) {
      RemovalMarks(s, step);
    } else if ByCaller(step) {
      CallerMarks(s, step);
    } else {
      StartupMarks(s, step);
    }
  }

  lemma {:induction false} RunKeepsMarks(first: State, steps: seq<Step>, last: State)
    requires Inv(first) && MarksInv(first) && Run(first, steps, last)
    ensures MarksInv(last)
    decreases |steps|
  {
    if steps != [] {
      StepKeepsInv(first, steps[0]);
      StepKeepsMarks(first, steps[0]);
      RunKeepsMarks(Apply(first, steps[0]), steps[1..], last);
    }
  }

  /** In every reachable state a mark has exactly one startup behind it that is still evicting,
      so no resident stays shut out of eviction and none is evicted twice at once. */
  lemma MarksHaveOneEvictor(first: State, steps: seq<Step>, last: State, l: LeaseId)
    requires Init(first) && Run(first, steps, last)
    requires l in last.residents && last.residents[l].evicting
    ensures |set e | e in last.entries && Target(last.entries[e].phase) == Some(l)| == 1
  {
    InitInv(first);
    RunKeepsMarks(first, steps, last);
    OneEvictor(last, l);
  }

  lemma OneEvictor(s: State, l: LeaseId)
    requires MarksInv(s) && l in s.residents && s.residents[l].evicting
    ensures |set e | e in s.entries && Target(s.entries[e].phase) == Some(l)| == 1
  {
    var e :| e in s.entries && Target(s.entries[e].phase) == Some(l);
    forall f | f in s.entries && Target(s.entries[f].phase) == Some(l) ensures f == e {
      assert SameTarget(s.entries[e].phase, s.entries[f].phase);
    }
    assert (set f | f in s.entries && Target(s.entries[f].phase) == Some(l)) == {e};
  }
}
