/** What each step of the residency protocol comes to: who serves a turn, who leaves a map, how a
    startup moves on, and who is woken. */
module ResidencyOutcomes {
  import opened Wrappers
  import opened ResidencyModel
  import opened ResidencyInvariants
  import opened ResidencyTheorems

  // ---------------------------------------------------------------- turns

  /** Once the startup has settled: on an available runtime the caller's turn is active and its hold
      stays; on an unavailable one it holds nothing any more, and what is left to do takes the entry
      out of its map; after a failed startup it is simply over.  Nothing leaves a map in this step. */
  lemma ResumedTurnOutcome(first: State, steps: seq<Step>, s: State, t: TaskId, now: int)
    requires Init(first) && Run(first, steps, s) && Enabled(s, TurnResume(t, now))
    ensures var e, r := s.tasks[t].entry, Apply(s, TurnResume(t, now));
      e in s.entries && e in r.entries && r.sessions == s.sessions &&
      (forall f :: Attached(r, f) <==> Attached(s, f)) &&
      (forall f :: f in s.entries && f != e ==> f in r.entries && r.entries[f] == s.entries[f]) &&
      if s.entries[e].phase.Failed? then r.tasks == s.tasks - {t}
      else if s.entries[e].status.available then
        r.tasks == s.tasks[t := Active(e)] && t in Holders(r, e) &&
        r.entries[e].reservations == s.entries[e].reservations && r.entries[e].status.lastUsedAt == now
      else
        r.tasks == s.tasks[t := Removing(e)] && (forall f :: t !in Holders(r, f)) &&
        (Attached(s, e) ==> r.entries[e].reservations == s.entries[e].reservations - 1)
  {
    InitInv(first);
    RunKeepsInv(first, steps, s);
    ResumedAt(s, t, now);
  }

  lemma ResumedAt(s: State, t: TaskId, now: int)
    requires HolderInv(s) && t in s.tasks && s.tasks[t].Awaiting? && s.tasks[t].entry in s.entries
    ensures var e, r := s.tasks[t].entry, TurnResumeStep(s, t, now);
      e in r.entries && r.sessions == s.sessions &&
      (forall f :: Attached(r, f) <==> Attached(s, f)) &&
      (forall f :: f in s.entries && f != e ==> f in r.entries && r.entries[f] == s.entries[f]) &&
      if s.entries[e].phase.Failed? then r.tasks == s.tasks - {t}
      else if s.entries[e].status.available then
        r.tasks == s.tasks[t := Active(e)] && t in Holders(r, e) &&
        r.entries[e].reservations == s.entries[e].reservations && r.entries[e].status.lastUsedAt == now
      else
        r.tasks == s.tasks[t := Removing(e)] && (forall f :: t !in Holders(r, f)) &&
        (Attached(s, e) ==> r.entries[e].reservations == s.entries[e].reservations - 1)
  {
    var e, r := s.tasks[t].entry, TurnResumeStep(s, t, now);
    SameAttached(s, r);
    if Attached(s, e) {
      assert t in Holders(s, e);
      assert s.entries[e].reservations > 0;
    }
  }

  /** The caller that found its runtime unavailable takes the entry out of the map, if it is still
      there, to be disposed of, and is done. */
  lemma UnavailableEntriesLeave(first: State, steps: seq<Step>, s: State, t: TaskId)
    requires Init(first) && Run(first, steps, s) && Enabled(s, RemoveUnavailable(t))
    ensures var e, r := s.tasks[t].entry, Apply(s, RemoveUnavailable(t));
      e in r.entries && !Attached(r, e) && r.tasks == s.tasks - {t} &&
      (Attached(s, e) ==> r.entries[e].disposal == Owed) &&
      (forall f :: f != e ==> (Attached(r, f) <==> Attached(s, f)))
  {
    InitInv(first);
    RunKeepsInv(first, steps, s);
    var e, r := s.tasks[t].entry, Apply(s, RemoveUnavailable(t));
    DetachIfAttachedOf(s, e);
    SameAttached(DetachIfAttached(s, e), r);
  }

  lemma DetachIfAttachedOf(s: State, e: EntryId)
    requires MapInv(s)
    ensures forall f :: Attached(DetachIfAttached(s, e), f) <==> Attached(s, f) && f != e
    ensures Attached(s, e) ==> DetachIfAttached(s, e).entries[e].disposal == Owed
  {
    if Attached(s, e) {
      DetachAttached(s, s.entries[e].registry, {s.entries[e].key});
      forall f | Attached(s, f) && s.entries[f].registry == s.entries[e].registry &&
      s.entries[f].key == s.entries[e].key
        ensures f == e
      {
      }
    }
  }

  /** An abort takes out the entry it holds, if that is still mapped, once its runtime has come up; the
      hold itself ends later. */
  lemma AbortOutcome(first: State, steps: seq<Step>, s: State, t: TaskId)
    requires Init(first) && Run(first, steps, s) && Enabled(s, AbortEvict(t))
    ensures var e, r := s.tasks[t].entry, Apply(s, AbortEvict(t));
      s.tasks[t] == Aborting(e) && e in s.entries &&
      (s.entries[e].phase == Ready || s.entries[e].phase == Disposed) &&
      e in r.entries && !Attached(r, e) && r.tasks == s.tasks && (Attached(s, e) ==> r.entries[e].disposal == Owed) &&
      (forall f :: f != e ==> (Attached(r, f) <==> Attached(s, f)))
  {
    InitInv(first);
    RunKeepsInv(first, steps, s);
    DetachIfAttachedOf(s, s.tasks[t].entry);
  }

  /** A caller that joins a mapped entry, to use it or to abort it, holds it from then on. */
  lemma JoiningHolds(first: State, steps: seq<Step>, s: State, step: Step)
    requires Init(first) && Run(first, steps, s) && Enabled(s, step) && (step.AcquireShared? || step.AbortBegin?)
    ensures var r, e := Apply(s, step), s.sessions[step.registry][step.key];
      Attached(r, e) && step.task in Holders(r, e) && r.sessions == s.sessions &&
      r.tasks == s.tasks[step.task := if step.AcquireShared? then Awaiting(e) else Aborting(e)] &&
      r.entries == s.entries[e := s.entries[e].(reservations := s.entries[e].reservations + 1)]
  {
    InitInv(first);
    RunKeepsInv(first, steps, s);
    JoinsAt(s, step);
  }

  lemma JoinsAt(s: State, step: Step)
    requires MapInv(s) && Enabled(s, step) && (step.AcquireShared? || step.AbortBegin?)
    ensures var r, e := Apply(s, step), s.sessions[step.registry][step.key];
      Attached(r, e) && step.task in Holders(r, e) && r.sessions == s.sessions &&
      r.tasks == s.tasks[step.task := if step.AcquireShared? then Awaiting(e) else Aborting(e)] &&
      r.entries == s.entries[e := s.entries[e].(reservations := s.entries[e].reservations + 1)]
  {
    assert Mapped(s, step.registry, step.key);
    SameAttached(s, Apply(s, step));
  }

  /** A caller whose key has no entry gets a fresh one behind its gate, which knows whom it replaces. */
  lemma CreatedEntry(first: State, steps: seq<Step>, s: State, step: Step)
    requires Init(first) && Run(first, steps, s) && Enabled(s, step) && step.AcquireCreate?
    ensures var r, e := Apply(s, step), s.nextEntryId;
      e !in s.entries && Attached(r, e) && r.entries[e].registry == step.registry && r.entries[e].key == step.key &&
      r.entries[e].phase == Gated(step.victim) && r.entries[e].reservations == 1 && r.entries[e].lease == None &&
      !r.entries[e].aborted && r.tasks == s.tasks[step.task := Awaiting(e)] && step.task in Holders(r, e)
  {
    InitInv(first);
    RunKeepsInv(first, steps, s);
    CreatesAt(s, step);
  }

  lemma CreatesAt(s: State, step: Step)
    requires EntriesInv(s) && Enabled(s, step) && step.AcquireCreate?
    ensures var r, e := Apply(s, step), s.nextEntryId;
      e !in s.entries && Attached(r, e) && r.entries[e].registry == step.registry && r.entries[e].key == step.key &&
      r.entries[e].phase == Gated(step.victim) && r.entries[e].reservations == 1 && r.entries[e].lease == None &&
      !r.entries[e].aborted && r.tasks == s.tasks[step.task := Awaiting(e)] && step.task in Holders(r, e)
  {
    assert s.nextEntryId !in s.entries;
  }

  /** A caller that is done holds nothing, and says when the runtime was used last. */
  lemma EndedHolds(first: State, steps: seq<Step>, s: State, step: Step)
    requires Init(first) && Run(first, steps, s) && Enabled(s, step)
    requires step.EndTurn? || step.EndStatus? || step.AbortEnd?
    ensures var r, e := Apply(s, step), s.tasks[step.task].entry;
      r.tasks == s.tasks - {step.task} && r.sessions == s.sessions && e in s.entries && e in r.entries &&
      (forall f :: Attached(r, f) <==> Attached(s, f)) &&
      (Attached(s, e) ==> r.entries[e].reservations == s.entries[e].reservations - 1) &&
      r.entries[e].status ==
        if step.EndTurn? then s.entries[e].status.(turn := false, lastUsedAt := step.now) else s.entries[e].status
  {
    InitInv(first);
    RunKeepsInv(first, steps, s);
    EndedAt(s, step);
  }

  lemma EndedAt(s: State, step: Step)
    requires HolderInv(s) && TaskInv(s) && Enabled(s, step)
    requires step.EndTurn? || step.EndStatus? || step.AbortEnd?
    ensures var r, e := Apply(s, step), s.tasks[step.task].entry;
      r.tasks == s.tasks - {step.task} && r.sessions == s.sessions && e in s.entries && e in r.entries &&
      (forall f :: Attached(r, f) <==> Attached(s, f)) &&
      (Attached(s, e) ==> r.entries[e].reservations == s.entries[e].reservations - 1) &&
      r.entries[e].status ==
        if step.EndTurn? then s.entries[e].status.(turn := false, lastUsedAt := step.now) else s.entries[e].status
  {
    var e := s.tasks[step.task].entry;
    if step.EndTurn? {
      var u := Put(s, e, s.entries[e].(status := s.entries[e].status.(turn := false, lastUsedAt := step.now)));
      SameAttached(s, u);
      SameHolders(s, u);
      EndsAt(u, step.task);
    } else {
      EndsAt(s, step.task);
    }
  }

  lemma EndsAt(s: State, t: TaskId)
    requires HolderInv(s) && t in s.tasks && !s.tasks[t].Removing? && s.tasks[t].entry in s.entries
    ensures var r, e := EndHoldStep(s, t), s.tasks[t].entry;
      r.tasks == s.tasks - {t} && r.sessions == s.sessions && e in r.entries &&
      (forall f :: Attached(r, f) <==> Attached(s, f)) &&
      (Attached(s, e) ==> r.entries[e].reservations == s.entries[e].reservations - 1) &&
      r.entries[e].status == s.entries[e].status
  {
    var e := s.tasks[t].entry;
    SameAttached(s, EndHoldStep(s, t));
    if Attached(s, e) {
      assert t in Holders(s, e);
      assert s.entries[e].reservations > 0;
    }
  }

  // ---------------------------------------------------------------- leaving the map

  /** What takes a mapped entry out: a newer entry it makes room for, an eviction or pruning while nobody
      holds it and it is quiet, the failure of its own startup, a caller that found it unavailable or
      aborted it, and its removal by name or with its whole registry. */
  ghost predicate Leaves(s: State, step: Step, e: EntryId)
    requires Enabled(s, step) && e in s.entries
  {
    var entry := s.entries[e];
    var unused := Holders(s, e) == {} && !entry.status.streaming && !entry.status.turn;
    match step
    case AcquireCreate(_, _, _, victim) => victim == Some(e)
    case EvictCheck(a) => s.entries[a].phase.victim == e && unused
    case Prune(r, now, ttl) =>
      entry.registry == r && entry.phase == Ready && unused &&
      (!entry.status.available || entry.status.lastUsedAt + ttl <= now)
    case Cleanup(a) => a == e
    case RemoveUnavailable(t) => s.tasks[t].entry == e
    case AbortEvict(t) => s.tasks[t].entry == e
    case Remove(r, k) => entry.registry == r && entry.key == k
    case DisposeAll(r) => entry.registry == r
    case _ => false
  }

  lemma UnusedMeansQuiet(s: State, e: EntryId)
    requires HolderInv(s) && Attached(s, e)
    ensures Quiet(s.entries[e]) <==> Holders(s, e) == {} && !s.entries[e].status.streaming && !s.entries[e].status.turn
  {
  }

  lemma LeavesByRemoval(s: State, step: Step, e: EntryId)
    requires Inv(s) && Enabled(s, step) && Attached(s, e)
    requires step.Prune? || step.Remove? || step.DisposeAll?
    ensures Attached(Apply(s, step), e) <==> !Leaves(s, step, e)
    ensures Leaves(s, step, e) ==> e in Apply(s, step).entries && Apply(s, step).entries[e].disposal == Owed
  {
    UnusedMeansQuiet(s, e);
    match step
    case Prune(r, now, ttl) => DetachAttached(s, r, PruneKeys(s, r, now, ttl));
    case Remove(r, k) => DetachAttached(s, r, {k});
    case DisposeAll(r) => DetachAttached(s, r, s.sessions[r].Keys);
  }

  lemma LeavesByCaller(s: State, step: Step, e: EntryId)
    requires Inv(s) && Enabled(s, step) && Attached(s, e) && (step.RemoveUnavailable? || step.AbortEvict?)
    ensures Attached(Apply(s, step), e) <==> !Leaves(s, step, e)
    ensures Leaves(s, step, e) ==> e in Apply(s, step).entries && Apply(s, step).entries[e].disposal == Owed
  {
    DetachIfAttachedOf(s, s.tasks[step.task].entry);
    SameAttached(DetachIfAttached(s, s.tasks[step.task].entry), Apply(s, step));
  }

  lemma LeavesForRoom(s: State, step: Step, e: EntryId)
    requires Inv(s) && Enabled(s, step) && Attached(s, e) && step.AcquireCreate?
    ensures Attached(Apply(s, step), e) <==> !Leaves(s, step, e)
    ensures Leaves(s, step, e) ==> e in Apply(s, step).entries && Apply(s, step).entries[e].disposal == Owed
  {
    var u := if step.victim.Some? then Detach(s, step.victim.value) else s;
    if step.victim.Some? {
      DetachIfAttachedOf(s, step.victim.value);
      var v := s.entries[step.victim.value];
      DetachKeysKeepsInv(s, v.registry, {v.key});
    }
    InsertAttached(u, step.task, step.registry, step.key, step.victim);
  }

  lemma LeavesByEviction(s: State, step: Step, e: EntryId)
    requires Inv(s) && Enabled(s, step) && Attached(s, e) && step.EvictCheck?
    ensures Attached(Apply(s, step), e) <==> !Leaves(s, step, e)
    ensures Leaves(s, step, e) ==> e in Apply(s, step).entries && Apply(s, step).entries[e].disposal == Owed
  {
    var v := s.entries[step.entry].phase.victim;
    UnusedMeansQuiet(s, e);
    if Attached(s, v) && Quiet(s.entries[v]) {
      DetachIfAttachedOf(s, v);
      SameAttached(Detach(s, v), Apply(s, step));
      assert s.entries[step.entry].phase.Evicting? && s.entries[v].disposal.NotRequested?;
    } else {
      SameAttached(s, Apply(s, step));
    }
  }

  predicate NeverDetaches(step: Step) {
    !(step.AcquireCreate? || step.EvictCheck? || step.Prune? || step.Cleanup? || step.RemoveUnavailable? ||
      step.AbortEvict? || step.Remove? || step.DisposeAll?)
  }

  ghost predicate SamePlaces(s: State, r: State) {
    r.sessions == s.sessions && r.entries.Keys == s.entries.Keys &&
    forall e :: e in s.entries ==>
      r.entries[e].registry == s.entries[e].registry && r.entries[e].key == s.entries[e].key
  }

  lemma PutStays(s: State, e: EntryId, entry: Entry)
    requires e in s.entries && entry.registry == s.entries[e].registry && entry.key == s.entries[e].key
    ensures SamePlaces(s, Put(s, e, entry))
  {
  }

  lemma ParkStays(s: State, e: EntryId)
    requires e in s.entries
    ensures SamePlaces(s, Park(s, e))
  {
  }

  lemma NotifyStays(s: State)
    ensures SamePlaces(s, Notify(s))
  {
  }

  lemma ReleaseStays(s: State, e: EntryId, entry: Entry)
    requires e in s.entries && entry.registry == s.entries[e].registry && entry.key == s.entries[e].key
    ensures SamePlaces(s, Notify(DropLease(s, e, entry)))
  {
    NotifyStays(DropLease(s, e, entry));
  }

  lemma TryAcquireStays(s: State, e: EntryId, candidate: Option<LeaseId>)
    requires e in s.entries && (candidate.Some? ==> candidate.value in s.residents)
    ensures SamePlaces(s, TryAcquireStep(s, e, candidate))
  {
    ParkStays(s, e);
  }

  lemma ReserveStays(s: State, e: EntryId, t: TaskId, task: Task)
    requires e in s.entries
    ensures SamePlaces(s, Reserve(s, e, t, task))
  {
  }

  lemma ResumeStays(s: State, t: TaskId, now: int)
    requires t in s.tasks && s.tasks[t].entry in s.entries
    ensures SamePlaces(s, TurnResumeStep(s, t, now))
  {
  }

  lemma EndHoldStays(s: State, t: TaskId)
    requires t in s.tasks
    ensures SamePlaces(s, EndHoldStep(s, t))
  {
    NotifyStays(Unreserve(s, t));
  }

  /** The steps of a startup. */
  lemma StartupsStayMapped(s: State, step: Step)
    requires Enabled(s, step)
    requires step.OpenGate? || step.PredecessorGone? || step.EvictDone? || step.Publish? || step.Environment? ||
             step.StartDisposal?
    ensures SamePlaces(s, Apply(s, step))
  {
  }

  lemma SuccessStays(s: State, e: EntryId, status: Status)
    requires e in s.entries
    ensures SamePlaces(s, StartSucceededStep(s, e, status))
  {
    NotifyStays(Activate(s, e, status));
  }

  lemma EndingsStayMapped(s: State, step: Step)
    requires Enabled(s, step) && (step.EndTurn? || step.EndStatus? || step.AbortEnd?)
    ensures SamePlaces(s, Apply(s, step))
  {
    match step
    case EndTurn(t, now) =>
      var e := s.tasks[t].entry;
      EndHoldStays(Put(s, e, s.entries[e].(status := s.entries[e].status.(turn := false, lastUsedAt := now))), t);
    case EndStatus(t) => EndHoldStays(s, t);
    case AbortEnd(t) => EndHoldStays(s, t);
  }

  lemma CallersStayMapped(s: State, step: Step)
    requires Enabled(s, step)
    requires step.AcquireShared? || step.AbortBegin? || step.TurnResume? || step.EndTurn? || step.EndStatus? ||
      step.AbortEnd?
    ensures SamePlaces(s, Apply(s, step))
  {
    match step
    case AcquireShared(t, r, k) => ReserveStays(s, s.sessions[r][k], t, Awaiting(s.sessions[r][k]));
    case AbortBegin(t, r, k) => ReserveStays(s, s.sessions[r][k], t, Aborting(s.sessions[r][k]));
    case TurnResume(t, now) => ResumeStays(s, t, now);
    case _ => EndingsStayMapped(s, step);
  }

  lemma OthersStayMapped(s: State, step: Step)
    requires Enabled(s, step) && NeverDetaches(step)
    ensures SamePlaces(s, Apply(s, step))
  {
    if step.AcquireShared? || step.AbortBegin? || step.TurnResume? || step.EndTurn? || step.EndStatus? ||
       step.AbortEnd? {
      CallersStayMapped(s, step);
      return;
    }
    match step
    case TryAcquire(e, candidate) => TryAcquireStays(s, e, candidate);
    case EvictGiveUp(e) => ParkStays(SetEvicting(s, s.entries[e].phase.lease, false), e);
    case Proceed(e) =>
      ReleaseStays(s, e, s.entries[e].(phase := Failing));
      PutStays(s, e, s.entries[e].(phase := Starting));
    case StartFailed(e) => ReleaseStays(s, e, s.entries[e].(phase := Failing));
    case Discarded(e) => ReleaseStays(s, e, s.entries[e].(phase := Failing));
    case StartSucceeded(e, status) => SuccessStays(s, e, status);
    case FinishDisposal(e) =>
      ReleaseStays(s, e, s.entries[e].(disposal := Done, phase := Disposed));
      PutStays(s, e, s.entries[e].(disposal := Done));
    case _ => StartupsStayMapped(s, step);
  }

  /** In every reachable state and step, exactly those leave; whoever leaves is owed its disposal,
      except that a failed startup has nothing to dispose of. */
  lemma EntriesLeaveExactly(first: State, steps: seq<Step>, s: State, step: Step, e: EntryId)
    requires Init(first) && Run(first, steps, s) && Enabled(s, step) && Attached(s, e)
    ensures Attached(Apply(s, step), e) <==> !Leaves(s, step, e)
    ensures Leaves(s, step, e) ==>
      e in Apply(s, step).entries && (step.Cleanup? || Apply(s, step).entries[e].disposal == Owed)
  {
    InitInv(first);
    RunKeepsInv(first, steps, s);
    if step.Prune? || step.Remove? || step.DisposeAll? {
      LeavesByRemoval(s, step, e);
    } else if step.RemoveUnavailable? || step.AbortEvict? {
      LeavesByCaller(s, step, e);
    } else if step.AcquireCreate? {
      LeavesForRoom(s, step, e);
    } else if step.EvictCheck? {
      LeavesByEviction(s, step, e);
    } else if step.Cleanup? {
      CleanupAttached(s, step.entry);
    } else {
      OthersStayMapped(s, step);
      SameAttached(s, Apply(s, step));
    }
  }

  // ---------------------------------------------------------------- startups

  /** A lease whose runtime is published, mapped and used by nobody, and that nobody evicts yet. */
  ghost predicate Reclaimable(s: State, l: LeaseId) {
    l in s.residents && s.residents[l].active && !s.residents[l].evicting && Attached(s, s.residents[l].owner) &&
    Holders(s, s.residents[l].owner) == {} && !s.entries[s.residents[l].owner].status.streaming &&
    !s.entries[s.residents[l].owner].status.turn
  }

  lemma IdleMeansReclaimable(s: State, l: LeaseId)
    requires HolderInv(s)
    ensures IdleLease(s, l) <==> Reclaimable(s, l)
  {
    if l in s.residents && Attached(s, s.residents[l].owner) {
      UnusedMeansQuiet(s, s.residents[l].owner);
    }
  }

  /** One turn of the acquire loop: a cancelled startup fails; with room it gets a lease of its own;
      in a full house it sets out to evict a reclaimable runtime used no later than any other, or
      waits when there is none. */
  lemma AcquireOutcome(first: State, steps: seq<Step>, s: State, step: Step)
    requires Init(first) && Run(first, steps, s) && Enabled(s, step) && step.TryAcquire?
    ensures var e, r := step.entry, Apply(s, step);
      e in r.entries &&
      if s.entries[e].aborted then r.entries[e].phase == Failing && r.residents == s.residents
      else if |s.residents| < s.capacity then
        r.entries[e].phase == Granted && r.entries[e].lease.Some? && r.entries[e].lease.value !in s.residents &&
        r.residents == s.residents[r.entries[e].lease.value := Resident(e, false, false)]
      else if exists l :: Reclaimable(s, l) then
        step.candidate.Some? && Reclaimable(s, step.candidate.value) &&
        r.entries[e].phase == Evicting(step.candidate.value, s.residents[step.candidate.value].owner) &&
        r.residents == s.residents[step.candidate.value := s.residents[step.candidate.value].(evicting := true)] &&
        forall m :: Reclaimable(s, m) ==>
          s.entries[s.residents[step.candidate.value].owner].status.lastUsedAt <=
          s.entries[s.residents[m].owner].status.lastUsedAt
      else r.entries[e].phase == Waiting && r.waiters == s.waiters + {e} && r.residents == s.residents
  {
    InitInv(first);
    RunKeepsInv(first, steps, s);
    forall l
      ensures IdleLease(s, l) <==> Reclaimable(s, l)
    {
      IdleMeansReclaimable(s, l);
    }
    AcquiresAt(s, step.entry, step.candidate);
  }

  lemma AcquiresAt(s: State, e: EntryId, candidate: Option<LeaseId>)
    requires LeaseInv(s) && e in s.entries && s.entries[e].phase.Acquiring?
    requires candidate.Some? ==> candidate.value in s.residents
    ensures var r := TryAcquireStep(s, e, candidate);
      e in r.entries &&
      if s.entries[e].aborted then r.entries[e].phase == Failing && r.residents == s.residents
      else if |s.residents| < s.capacity then
        r.entries[e].phase == Granted && r.entries[e].lease.Some? && r.entries[e].lease.value !in s.residents &&
        r.residents == s.residents[r.entries[e].lease.value := Resident(e, false, false)]
      else if candidate.Some? then
        r.entries[e].phase == Evicting(candidate.value, s.residents[candidate.value].owner) &&
        r.residents == s.residents[candidate.value := s.residents[candidate.value].(evicting := true)]
      else r.entries[e].phase == Waiting && r.waiters == s.waiters + {e} && r.residents == s.residents
  {
    assert s.nextLeaseId !in s.residents;
  }

  /** Eviction: it goes on exactly when the victim is still mapped and unused; given up or done, the mark
      is gone, and the startup waits, fails if it was cancelled, or tries again. */
  lemma EvictionOutcome(first: State, steps: seq<Step>, s: State, step: Step)
    requires Init(first) && Run(first, steps, s) && Enabled(s, step)
    requires step.EvictCheck? || step.EvictGiveUp? || step.EvictDone?
    ensures var e, r := step.entry, Apply(s, step);
      var v := if step.EvictCheck? then s.entries[e].phase.victim else e;
      e in r.entries &&
      (step.EvictCheck? ==>
        var goesOn := Attached(s, v) && Holders(s, v) == {} && !s.entries[v].status.streaming &&
            !s.entries[v].status.turn;
        r.entries[e].phase ==
          if goesOn then AwaitEviction(s.entries[e].phase.lease, v) else EvictRefused(s.entries[e].phase.lease)) &&
      (step.EvictGiveUp? ==> r.entries[e].phase == if s.entries[e].aborted then Failing else Waiting) &&
      (step.EvictDone? ==> r.entries[e].phase == Acquiring) &&
      (!step.EvictCheck? ==>
        var l := s.entries[e].phase.lease;
        r.residents.Keys == s.residents.Keys &&
        (l in s.residents ==> r.residents[l] == s.residents[l].(evicting := false)))
  {
    InitInv(first);
    RunKeepsInv(first, steps, s);
    EvictionAt(s, step);
  }

  lemma EvictionAt(s: State, step: Step)
    requires HolderInv(s) && Enabled(s, step) && (step.EvictCheck? || step.EvictGiveUp? || step.EvictDone?)
    ensures var e, r := step.entry, Apply(s, step);
      var v := if step.EvictCheck? then s.entries[e].phase.victim else e;
      e in r.entries &&
      (step.EvictCheck? ==>
        var goesOn := Attached(s, v) && Holders(s, v) == {} && !s.entries[v].status.streaming &&
            !s.entries[v].status.turn;
        r.entries[e].phase ==
          if goesOn then AwaitEviction(s.entries[e].phase.lease, v) else EvictRefused(s.entries[e].phase.lease)) &&
      (step.EvictGiveUp? ==> r.entries[e].phase == if s.entries[e].aborted then Failing else Waiting) &&
      (step.EvictDone? ==> r.entries[e].phase == Acquiring) &&
      (!step.EvictCheck? ==>
        var l := s.entries[e].phase.lease;
        r.residents.Keys == s.residents.Keys &&
        (l in s.residents ==> r.residents[l] == s.residents[l].(evicting := false)))
  {
    var e := step.entry;
    if step.EvictCheck? {
      if Attached(s, s.entries[e].phase.victim) {
        UnusedMeansQuiet(s, s.entries[e].phase.victim);
      }
    } else {
      var l := s.entries[e].phase.lease;
      assert SetEvicting(s, l, false).residents.Keys == s.residents.Keys;
    }
  }

  /** The gate opens onto the acquire loop, behind the disposal of the entry that is replaced. */
  lemma GateOutcome(s: State, step: Step)
    requires Enabled(s, step) && (step.OpenGate? || step.PredecessorGone?)
    ensures var e, r := step.entry, Apply(s, step);
      e in r.entries &&
      r.entries[e].phase ==
        if step.OpenGate? && s.entries[e].phase.replaced.Some? then AwaitPredecessor(s.entries[e].phase.replaced.value)
        else Acquiring
  {
  }

  /** A cancelled startup never becomes a live runtime: it fails before the worker starts, or its worker
      is discarded.  Any other one goes on, and is evictable from the moment its worker runs. */
  lemma WorkerOutcome(first: State, steps: seq<Step>, s: State, step: Step)
    requires Init(first) && Run(first, steps, s) && Enabled(s, step)
    requires step.Proceed? || step.StartFailed? || step.StartSucceeded? || step.Discarded?
    ensures var e, r := step.entry, Apply(s, step);
      var gone := (step.Proceed? && s.entries[e].aborted) || step.StartFailed? || step.Discarded?;
      e in r.entries && s.entries[e].lease.Some? && s.entries[e].lease.value in s.residents &&
      r.entries[e].phase ==
        (if gone then Failing else if step.Proceed? then Starting else if s.entries[e].aborted then Discarding
         else Activated) &&
      (gone ==> r.entries[e].lease == None && r.residents == s.residents - {s.entries[e].lease.value}) &&
      (!gone ==> r.entries[e].lease == s.entries[e].lease) &&
      (r.entries[e].phase == Activated ==>
        var l := s.entries[e].lease.value; r.residents == s.residents[l := s.residents[l].(active := true)]) &&
      (!gone && r.entries[e].phase != Activated ==> r.residents == s.residents) &&
      (r.entries[e].phase == Activated ==> r.entries[e].status == step.status)
  {
    InitInv(first);
    RunKeepsInv(first, steps, s);
    assert EntryOk(s.entries[step.entry]);
    WorkerAt(s, step);
  }

  lemma WorkerAt(s: State, step: Step)
    requires Enabled(s, step) && (step.Proceed? || step.StartFailed? || step.StartSucceeded? || step.Discarded?)
    requires !(step.entry in s.waiters)
    requires s.entries[step.entry].lease.Some? && s.entries[step.entry].lease.value in s.residents
    ensures var e, r := step.entry, Apply(s, step);
      var gone := (step.Proceed? && s.entries[e].aborted) || step.StartFailed? || step.Discarded?;
      e in r.entries &&
      r.entries[e].phase ==
        (if gone then Failing else if step.Proceed? then Starting else if s.entries[e].aborted then Discarding
         else Activated) &&
      (gone ==> r.entries[e].lease == None && r.residents == s.residents - {s.entries[e].lease.value}) &&
      (!gone ==> r.entries[e].lease == s.entries[e].lease) &&
      (r.entries[e].phase == Activated ==>
        var l := s.entries[e].lease.value; r.residents == s.residents[l := s.residents[l].(active := true)]) &&
      (!gone && r.entries[e].phase != Activated ==> r.residents == s.residents) &&
      (r.entries[e].phase == Activated ==> r.entries[e].status == step.status)
  {
  }

  /** A startup that went through is published; one that failed is over, and its callers hear of it. */
  lemma SettlingOutcome(s: State, step: Step)
    requires Enabled(s, step) && (step.Publish? || step.Cleanup?)
    ensures var e, r := step.entry, Apply(s, step);
      e in r.entries && r.entries[e] == s.entries[e].(phase := if step.Publish? then Ready else Failed) &&
      r.residents == s.residents && r.tasks == s.tasks
  {
  }

  /** A disposal cancels the startup, also one that is parked; once the runtime has stopped its lease is
      gone, and the entry is done with. */
  lemma DisposalOutcome(first: State, steps: seq<Step>, s: State, step: Step)
    requires Init(first) && Run(first, steps, s) && Enabled(s, step) && (step.StartDisposal? || step.FinishDisposal?)
    ensures var e, r := step.entry, Apply(s, step);
      e in r.entries &&
      (step.StartDisposal? ==>
        r.entries[e].disposal == Running && r.entries[e].aborted && e !in r.waiters && r.residents == s.residents &&
        r.entries[e].phase == if s.entries[e].phase == Waiting then Failing else s.entries[e].phase) &&
      (step.FinishDisposal? ==>
        r.entries[e].disposal == Done && r.entries[e].lease == None &&
        r.entries[e].phase == (if s.entries[e].phase == Ready then Disposed else Failed) &&
        r.residents ==
          if s.entries[e].lease.Some? then s.residents - {s.entries[e].lease.value} else s.residents)
  {
    InitInv(first);
    RunKeepsInv(first, steps, s);
    assert EntryOk(s.entries[step.entry]);
    if step.StartDisposal? {
      DisposalStarts(s, step.entry);
    } else {
      DisposalEnds(s, step.entry);
    }
  }

  lemma DisposalStarts(s: State, e: EntryId)
    requires e in s.entries
    ensures var r := StartDisposalStep(s, e);
      e in r.entries && r.entries[e].disposal == Running && r.entries[e].aborted && e !in r.waiters &&
      r.residents == s.residents &&
      r.entries[e].phase == if s.entries[e].phase == Waiting then Failing else s.entries[e].phase
  {
  }

  lemma DisposalEnds(s: State, e: EntryId)
    requires e in s.entries && EntryOk(s.entries[e]) && e !in s.waiters &&
      (s.entries[e].phase.Ready? || s.entries[e].phase.Failed?)
    ensures var r := FinishDisposalStep(s, e);
      e in r.entries && r.entries[e].disposal == Done && r.entries[e].lease == None &&
      r.entries[e].phase == (if s.entries[e].phase == Ready then Disposed else Failed) &&
      r.residents == if s.entries[e].lease.Some? then s.residents - {s.entries[e].lease.value} else s.residents
  {
  }

  // ---------------------------------------------------------------- waking

  /** The steps after which there may be room: a lease has gone, a runtime has become evictable, or a hold
      on a mapped runtime has ended. */
  ghost predicate Wakes(s: State, step: Step)
    requires Enabled(s, step)
  {
    match step
    case Proceed(e) => s.entries[e].aborted
    case StartFailed(_) => true
    case Discarded(_) => true
    case StartSucceeded(e, _) => !s.entries[e].aborted
    case EndTurn(t, _) => Attached(s, s.tasks[t].entry) && s.entries[s.tasks[t].entry].lease.Some?
    case EndStatus(t) => Attached(s, s.tasks[t].entry) && s.entries[s.tasks[t].entry].lease.Some?
    case AbortEnd(t) => Attached(s, s.tasks[t].entry) && s.entries[s.tasks[t].entry].lease.Some?
    case FinishDisposal(e) => s.entries[e].phase == Ready
    case _ => false
  }

  lemma NotifyWakes(s: State, e: EntryId)
    requires e in s.entries && e in s.waiters
    ensures Notify(s).waiters == {} && Notify(s).entries[e] == s.entries[e].(phase := Acquiring)
  {
  }

  lemma EndHoldWakes(s: State, t: TaskId, e: EntryId)
    requires t in s.tasks && e in s.entries && e in s.waiters
    ensures var r, f := EndHoldStep(s, t), s.tasks[t].entry;
      e in r.entries &&
      (if Attached(s, f) && s.entries[f].lease.Some? then r.entries[e].phase == Acquiring && e !in r.waiters
       else r.entries[e].phase == s.entries[e].phase && e in r.waiters)
  {
    NotifyWakes(Unreserve(s, t), e);
  }

  lemma StartupsWake(s: State, step: Step, e: EntryId)
    requires Enabled(s, step) && e in s.entries && e in s.waiters && s.entries[e].phase.Waiting?
    requires step.Proceed? || step.StartFailed? || step.StartSucceeded? || step.Discarded?
    ensures var r := Apply(s, step);
      e in r.entries &&
      (if Wakes(s, step) then r.entries[e].phase == Acquiring && e !in r.waiters
       else r.entries[e].phase == Waiting && e in r.waiters)
  {
    match step
    case Proceed(f) => NotifyWakes(DropLease(s, f, s.entries[f].(phase := Failing)), e);
    case StartFailed(f) => NotifyWakes(DropLease(s, f, s.entries[f].(phase := Failing)), e);
    case Discarded(f) => NotifyWakes(DropLease(s, f, s.entries[f].(phase := Failing)), e);
    case StartSucceeded(f, status) => NotifyWakes(Activate(s, f, status), e);
  }

  lemma DisposalsWake(s: State, f: EntryId, e: EntryId)
    requires f in s.entries && (s.entries[f].phase.Ready? || s.entries[f].phase.Failed?)
    requires e in s.entries && e in s.waiters && s.entries[e].phase.Waiting?
    ensures var r := FinishDisposalStep(s, f);
      e in r.entries &&
      (if s.entries[f].phase == Ready then r.entries[e].phase == Acquiring && e !in r.waiters
       else r.entries[e].phase == Waiting && e in r.waiters)
  {
    NotifyWakes(DropLease(s, f, s.entries[f].(disposal := Done, phase := Disposed)), e);
  }

  /** A parked startup tries again after exactly these steps; its own cancellation makes it fail, and
      any other step leaves it parked. */
  lemma WaitersWakeExactly(first: State, steps: seq<Step>, s: State, step: Step, e: EntryId)
    requires Init(first) && Run(first, steps, s) && Enabled(s, step) && e in s.entries && s.entries[e].phase == Waiting
    ensures var r := Apply(s, step);
      e in r.entries && e in s.waiters &&
      (Wakes(s, step) ==> r.entries[e].phase == Acquiring && e !in r.waiters) &&
      (step == StartDisposal(e) ==> r.entries[e].phase == Failing && e !in r.waiters) &&
      (!Wakes(s, step) && step != StartDisposal(e) ==> r.entries[e].phase == Waiting && e in r.waiters)
  {
    InitInv(first);
    RunKeepsInv(first, steps, s);
    if step.Proceed? || step.StartFailed? || step.StartSucceeded? || step.Discarded? {
      StartupsWake(s, step, e);
    } else if step.FinishDisposal? {
      DisposalsWake(s, step.entry, e);
    } else if step.EndTurn? || step.EndStatus? || step.AbortEnd? {
      EndingsWake(s, step, e);
    } else {
      OthersWakeNobody(s, step, e);
    }
  }

  lemma EndingsWake(s: State, step: Step, e: EntryId)
    requires Enabled(s, step) && e in s.entries && e in s.waiters && s.entries[e].phase.Waiting?
    requires step.EndTurn? || step.EndStatus? || step.AbortEnd?
    ensures var r := Apply(s, step);
      e in r.entries &&
      (if Wakes(s, step) then r.entries[e].phase == Acquiring && e !in r.waiters
       else r.entries[e].phase == Waiting && e in r.waiters)
  {
    match step
    case EndTurn(t, now) =>
      var f := s.tasks[t].entry;
      var u := Put(s, f, s.entries[f].(status := s.entries[f].status.(turn := false, lastUsedAt := now)));
      SameAttached(s, u);
      EndHoldWakes(u, t, e);
    case EndStatus(t) => EndHoldWakes(s, t, e);
    case AbortEnd(t) => EndHoldWakes(s, t, e);
  }

  lemma MapStepsWakeNobody(s: State, step: Step, e: EntryId)
    requires EntriesInv(s) && Enabled(s, step) && e in s.entries && e in s.waiters && s.entries[e].phase.Waiting?
    requires step.AcquireShared? || step.AcquireCreate? || step.AbortBegin? || step.Remove? || step.Prune? ||
      step.DisposeAll?
    ensures var r := Apply(s, step); e in r.entries && r.entries[e].phase == Waiting && e in r.waiters
  {
  }

  lemma TaskStepsWakeNobody(s: State, step: Step, e: EntryId)
    requires Enabled(s, step) && e in s.entries && e in s.waiters && s.entries[e].phase.Waiting?
    requires step.TurnResume? || step.StartDisposal? || step.Environment?
    ensures var r := Apply(s, step);
      e in r.entries &&
      (if step == StartDisposal(e) then r.entries[e].phase == Failing && e !in r.waiters
       else r.entries[e].phase == Waiting && e in r.waiters)
  {
  }

  lemma RemovalsWakeNobody(s: State, step: Step, e: EntryId)
    requires Enabled(s, step) && e in s.entries && e in s.waiters && s.entries[e].phase.Waiting?
    requires step.RemoveUnavailable? || step.AbortEvict?
    ensures var r := Apply(s, step); e in r.entries && r.entries[e].phase == Waiting && e in r.waiters
  {
  }

  lemma GateStepsWakeNobody(s: State, step: Step, e: EntryId)
    requires Enabled(s, step) && e in s.entries && e in s.waiters && s.entries[e].phase.Waiting?
    requires step.OpenGate? || step.PredecessorGone? || step.Publish?
    ensures var r := Apply(s, step); e in r.entries && r.entries[e].phase == Waiting && e in r.waiters
  {
  }

  lemma ParkWakesNobody(s: State, a: EntryId, e: EntryId)
    requires a in s.entries && !s.entries[a].phase.Waiting?
    requires e in s.entries && e in s.waiters && s.entries[e].phase.Waiting?
    ensures Park(s, a).entries.Keys == s.entries.Keys && Park(s, a).entries[e] == s.entries[e] &&
      e in Park(s, a).waiters
  {
  }

  lemma EvictionsWakeNobody(s: State, step: Step, e: EntryId)
    requires Enabled(s, step) && e in s.entries && e in s.waiters && s.entries[e].phase.Waiting?
    requires step.EvictDone? || step.EvictGiveUp?
    ensures var r := Apply(s, step); e in r.entries && r.entries[e].phase == Waiting && e in r.waiters
  {
    if step.EvictGiveUp? {
      ParkWakesNobody(SetEvicting(s, s.entries[step.entry].phase.lease, false), step.entry, e);
    } else {
      EvictDoneWakesNobody(s, step.entry, e);
    }
  }

  lemma EvictDoneWakesNobody(s: State, a: EntryId, e: EntryId)
    requires a in s.entries && s.entries[a].phase.AwaitEviction?
    requires e in s.entries && e in s.waiters && s.entries[e].phase.Waiting?
    ensures var r := EvictDoneStep(s, a); e in r.entries && r.entries[e] == s.entries[e] && e in r.waiters
  {
  }

  lemma CleanupWakesNobody(s: State, a: EntryId, e: EntryId)
    requires a in s.entries && s.entries[a].phase.Failing?
    requires e in s.entries && e in s.waiters && s.entries[e].phase.Waiting?
    ensures var r := CleanupStep(s, a); e in r.entries && r.entries[e].phase == Waiting && e in r.waiters
  {
  }

  lemma OthersWakeNobody(s: State, step: Step, e: EntryId)
    requires EntriesInv(s) && Enabled(s, step) && e in s.entries && e in s.waiters && s.entries[e].phase.Waiting?
    requires !(step.Proceed? || step.StartFailed? || step.StartSucceeded? || step.Discarded? || step.FinishDisposal? ||
               step.EndTurn? || step.EndStatus? || step.AbortEnd?)
    ensures var r := Apply(s, step);
      e in r.entries &&
      (if step == StartDisposal(e) then r.entries[e].phase == Failing && e !in r.waiters
       else r.entries[e].phase == Waiting && e in r.waiters)
  {
    if step.TryAcquire? {
      TryAcquireWakesNobody(s, step.entry, step.candidate, e);
    } else if step.EvictCheck? {
      EvictCheckWakesNobody(s, step.entry, e);
    } else if step.Cleanup? {
      CleanupWakesNobody(s, step.entry, e);
    } else if step.EvictDone? || step.EvictGiveUp? {
      EvictionsWakeNobody(s, step, e);
    } else if step.OpenGate? || step.PredecessorGone? || step.Publish? {
      GateStepsWakeNobody(s, step, e);
    } else if step.TurnResume? || step.StartDisposal? || step.Environment? {
      TaskStepsWakeNobody(s, step, e);
    } else if step.RemoveUnavailable? || step.AbortEvict? {
      RemovalsWakeNobody(s, step, e);
    } else {
      MapStepsWakeNobody(s, step, e);
    }
  }

  lemma TryAcquireWakesNobody(s: State, a: EntryId, candidate: Option<LeaseId>, e: EntryId)
    requires a in s.entries && s.entries[a].phase.Acquiring? && (candidate.Some? ==> candidate.value in s.residents)
    requires e in s.entries && e in s.waiters && s.entries[e].phase.Waiting?
    ensures var r := TryAcquireStep(s, a, candidate); e in r.entries && r.entries[e].phase == Waiting && e in r.waiters
  {
  }

  lemma EvictCheckWakesNobody(s: State, a: EntryId, e: EntryId)
    requires a in s.entries && s.entries[a].phase.Evicting?
    requires e in s.entries && e in s.waiters && s.entries[e].phase.Waiting?
    ensures var r := EvictCheckStep(s, a); e in r.entries && r.entries[e].phase == Waiting && e in r.waiters
  {
  }
}
