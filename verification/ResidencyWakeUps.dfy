/** When a parked startup misses its wake-up: the steps that leave it beside room or a runtime it could
    evict, and why nothing else can stick a startup. */
module ResidencyWakeUps {
  import opened Wrappers
  import opened SetFacts
  import opened ResidencyModel
  import opened ResidencyInvariants
  import opened ResidencyTheorems
  import opened ResidencyOutcomes
  import opened ResidencyProgress

  /** A startup is parked although there is room for it, or a runtime it could evict. */
  ghost predicate Overlooks(s: State) {
    s.waiters != {} && (|s.residents| < s.capacity || exists l :: Reclaimable(s, l))
  }

  /** There is room or a runtime to evict, as the acquire loop sees it. */
  ghost predicate Chance(s: State) {
    |s.residents| < s.capacity || exists l :: IdleLease(s, l)
  }

  ghost predicate NoNewChance(s: State, t: State) {
    s.capacity == t.capacity && |s.residents| == |t.residents| && forall l :: IdleLease(t, l) ==> IdleLease(s, l)
  }

  lemma PutChance(s: State, e: EntryId, entry: Entry)
    requires e in s.entries && entry.registry == s.entries[e].registry && entry.key == s.entries[e].key
    requires Quiet(entry) && Attached(s, e) ==> Quiet(s.entries[e]) || s.entries[e].lease.None?
    requires LeaseInv(s)
    ensures NoNewChance(s, Put(s, e, entry))
  {
    SameAttached(s, Put(s, e, entry));
  }

  lemma DetachChance(s: State, r: RegistryId, keys: set<Key>)
    requires MapInv(s) && r in s.sessions
    ensures NoNewChance(s, DetachKeys(s, r, keys))
  {
    DetachAttached(s, r, keys);
  }

  lemma DetachIfChance(s: State, e: EntryId)
    requires MapInv(s)
    ensures NoNewChance(s, DetachIfAttached(s, e))
  {
    if Attached(s, e) {
      DetachChance(s, s.entries[e].registry, {s.entries[e].key});
    }
  }

  /** The step wakes everybody, or leaves no more to take than there was. */
  ghost predicate MissesNothing(s: State, t: State) {
    t.waiters == {} || (NoNewChance(s, t) && s.waiters != {})
  }

  lemma ReserveChance(s: State, e: EntryId, t: TaskId, task: Task)
    requires LeaseInv(s) && e in s.entries
    ensures NoNewChance(s, Reserve(s, e, t, task))
  {
    PutChance(s, e, s.entries[e].(reservations := s.entries[e].reservations + 1));
    SameAttached(s, Reserve(s, e, t, task));
  }

  lemma InsertChance(s: State, t: TaskId, r: RegistryId, k: Key, replaced: Option<EntryId>)
    requires EntriesInv(s) && MapInv(s) && LeaseInv(s) && r in s.sessions && !Mapped(s, r, k)
    ensures NoNewChance(s, Insert(s, t, r, k, replaced))
  {
    InsertAttached(s, t, r, k, replaced);
  }

  lemma CreateChance(s: State, t: TaskId, r: RegistryId, k: Key, victim: Option<EntryId>)
    requires Inv(s) && r in s.sessions && !Mapped(s, r, k) && (victim.Some? ==> Attached(s, victim.value))
    ensures NoNewChance(s, AcquireCreateStep(s, t, r, k, victim))
  {
    if victim.Some? {
      var v := s.entries[victim.value];
      DetachChance(s, v.registry, {v.key});
      DetachKeysKeepsInv(s, v.registry, {v.key});
      InsertChance(Detach(s, victim.value), t, r, k, victim);
    } else {
      InsertChance(s, t, r, k, victim);
    }
  }

  lemma CallersMissNothing(s: State, step: Step)
    requires Inv(s) && Enabled(s, step)
    requires step.AcquireShared? || step.AcquireCreate? || step.AbortBegin? || step.RemoveUnavailable? ||
      step.AbortEvict?
    ensures MissesNothing(s, Apply(s, step))
  {
    match step
    case AcquireShared(t, r, k) => ReserveChance(s, s.sessions[r][k], t, Awaiting(s.sessions[r][k]));
    case AbortBegin(t, r, k) => ReserveChance(s, s.sessions[r][k], t, Aborting(s.sessions[r][k]));
    case AcquireCreate(t, r, k, victim) => CreateChance(s, t, r, k, victim);
    case RemoveUnavailable(t) => DetachIfChance(s, s.tasks[t].entry);
    case AbortEvict(t) => DetachIfChance(s, s.tasks[t].entry);
  }

  lemma StartDisposalMissesNothing(s: State, e: EntryId)
    requires LeaseInv(s) && e in s.entries
    ensures MissesNothing(s, StartDisposalStep(s, e))
  {
    var t := StartDisposalStep(s, e);
    PutChance(s, e, t.entries[e]);
    SameAttached(s, t);
  }

  lemma FinishDisposalMissesNothing(s: State, e: EntryId)
    requires LeaseInv(s) && e in s.entries
    ensures MissesNothing(s, FinishDisposalStep(s, e))
  {
    if !s.entries[e].phase.Ready? {
      PutChance(s, e, s.entries[e].(disposal := Done));
    }
  }

  lemma RemovalsMissNothing(s: State, step: Step)
    requires MapInv(s) && LeaseInv(s) && Enabled(s, step) && ByRemoval(step) && !step.Environment?
    ensures MissesNothing(s, Apply(s, step))
  {
    match step
    case Remove(r, k) => DetachChance(s, r, {k});
    case Prune(r, now, ttl) => DetachChance(s, r, PruneKeys(s, r, now, ttl));
    case DisposeAll(r) => DetachChance(s, r, s.sessions[r].Keys);
    case StartDisposal(e) => StartDisposalMissesNothing(s, e);
    case FinishDisposal(e) => FinishDisposalMissesNothing(s, e);
  }

  lemma CleanupMissesNothing(s: State, e: EntryId)
    requires MapInv(s) && e in s.entries
    ensures MissesNothing(s, CleanupStep(s, e))
  {
    CleanupAttached(s, e);
  }

  lemma StartSucceededMissesNothing(s: State, e: EntryId, status: Status)
    requires LeaseInv(s) && e in s.entries
    ensures MissesNothing(s, StartSucceededStep(s, e, status))
  {
    if s.entries[e].aborted {
      PutChance(s, e, s.entries[e].(phase := Discarding));
    }
  }

  lemma WorkersMissNothing(s: State, step: Step)
    requires MapInv(s) && LeaseInv(s) && Enabled(s, step)
    requires step.OpenGate? || step.PredecessorGone? || step.Proceed? || step.StartFailed? || step.StartSucceeded? ||
             step.Discarded? || step.Publish? || step.Cleanup?
    ensures MissesNothing(s, Apply(s, step))
  {
    match step
    case OpenGate(e) => PutChance(s, e, OpenGateStep(s, e).entries[e]);
    case PredecessorGone(e) => PutChance(s, e, s.entries[e].(phase := Acquiring));
    case Proceed(e) => PutChance(s, e, s.entries[e].(phase := Starting));
    case StartFailed(_) =>
    case StartSucceeded(e, status) => StartSucceededMissesNothing(s, e, status);
    case Discarded(_) =>
    case Publish(e) => PutChance(s, e, s.entries[e].(phase := Ready));
    case Cleanup(e) => CleanupMissesNothing(s, e);
  }

  lemma EvictCheckMissesNothing(s: State, e: EntryId)
    requires MapInv(s) && LeaseInv(s) && e in s.entries && s.entries[e].phase.Evicting?
    ensures MissesNothing(s, EvictCheckStep(s, e))
  {
    var l, v := s.entries[e].phase.lease, s.entries[e].phase.victim;
    if Attached(s, v) && Quiet(s.entries[v]) {
      DetachChance(s, s.entries[v].registry, {s.entries[v].key});
      DetachKeepsLeases(s, s.entries[v].registry, {s.entries[v].key});
      var u := Detach(s, v);
      PutChance(u, e, u.entries[e].(phase := AwaitEviction(l, v)));
    } else {
      PutChance(s, e, s.entries[e].(phase := EvictRefused(l)));
    }
  }

  lemma SameSize(s: State, l: LeaseId, evicting: bool)
    ensures |SetEvicting(s, l, evicting).residents| == |s.residents|
  {
    var t := SetEvicting(s, l, evicting);
    assert t.residents.Keys == s.residents.Keys;
    assert |t.residents| == |t.residents.Keys| && |s.residents| == |s.residents.Keys|;
  }

  lemma EvictDoneMissesNothing(s: State, e: EntryId)
    requires LeaseInv(s) && AttachInv(s) && VictimsInv(s) && Enabled(s, EvictDone(e))
    ensures MissesNothing(s, EvictDoneStep(s, e))
  {
    var l := s.entries[e].phase.lease;
    assert VictimOk(s, s.entries[e].phase);
    SameSize(s, l, false);
    SameAttached(s, EvictDoneStep(s, e));
  }

  /** A hold that ends without waking anybody was not on a leased, mapped runtime. */
  lemma EndHoldMissesNothing(s: State, t: TaskId)
    requires LeaseInv(s) && t in s.tasks
    ensures MissesNothing(s, EndHoldStep(s, t))
  {
    var e := s.tasks[t].entry;
    if Attached(s, e) && s.entries[e].lease.None? {
      PutChance(s, e, DecReservation(s, e).entries[e]);
      SameAttached(s, Unreserve(s, t));
    } else {
      SameAttached(s, Unreserve(s, t));
    }
  }

  lemma EndTurnMissesNothing(s: State, t: TaskId, now: int)
    requires LeaseInv(s) && t in s.tasks && s.tasks[t].entry in s.entries
    ensures MissesNothing(s, EndTurnStep(s, t, now))
  {
    var e := s.tasks[t].entry;
    var u := Put(s, e, s.entries[e].(status := s.entries[e].status.(turn := false, lastUsedAt := now)));
    SameAttached(s, u);
    EndHoldMissesNothing(u, t);
    if !(Attached(s, e) && s.entries[e].lease.Some?) {
      PutChance(s, e, u.entries[e]);
    }
  }

  lemma EndingsMissNothing(s: State, step: Step)
    requires LeaseInv(s) && Enabled(s, step) && (step.EndTurn? || step.EndStatus? || step.AbortEnd?)
    ensures MissesNothing(s, Apply(s, step))
  {
    match step
    case EndTurn(t, now) => EndTurnMissesNothing(s, t, now);
    case EndStatus(t) => EndHoldMissesNothing(s, t);
    case AbortEnd(t) => EndHoldMissesNothing(s, t);
  }

  lemma MarkChance(s: State, e: EntryId, l: LeaseId, p: Phase)
    requires LeaseInv(s) && e in s.entries
    ensures NoNewChance(s, WithPhase(SetEvicting(s, l, true), e, p))
  {
    var t := WithPhase(SetEvicting(s, l, true), e, p);
    SameSize(s, l, true);
    SameAttached(s, t);
  }

  lemma ParkChance(s: State, e: EntryId)
    requires LeaseInv(s) && e in s.entries
    ensures NoNewChance(s, Park(s, e))
  {
    PutChance(s, e, Park(s, e).entries[e]);
    SameAttached(s, Park(s, e));
  }

  lemma TryAcquireMissesNothing(s: State, e: EntryId, candidate: Option<LeaseId>)
    requires LeaseInv(s) && e in s.entries && (s.waiters != {} ==> !Chance(s))
    requires candidate.Some? ==> candidate.value in s.residents
    requires candidate.None? ==> forall l :: !IdleLease(s, l)
    ensures var t := TryAcquireStep(s, e, candidate); t.waiters != {} ==> !Chance(t)
  {
    if s.entries[e].aborted {
      PutChance(s, e, s.entries[e].(phase := Failing));
    } else if |s.residents| < s.capacity {
    } else if candidate.Some? {
      MarkChance(s, e, candidate.value, Evicting(candidate.value, s.residents[candidate.value].owner));
    } else {
      ParkChance(s, e);
    }
  }

  /** A mapped runtime that nobody holds and that does nothing by itself. */
  ghost predicate Free(s: State, e: EntryId) {
    Attached(s, e) && Holders(s, e) == {} && !s.entries[e].status.streaming && !s.entries[e].status.turn
  }

  /** The runtime runs on this lease, and nobody evicts it. */
  predicate RunsOn(s: State, e: EntryId, l: LeaseId) {
    l in s.residents && s.residents[l].owner == e && s.residents[l].active && !s.residents[l].evicting
  }

  /** The runtime of this lease can be evicted once that mark is gone. */
  ghost predicate FreeWithout(s: State, mark: LeaseId, l: LeaseId) {
    l in s.residents && s.residents[l].active && (l == mark || !s.residents[l].evicting) &&
    Free(s, s.residents[l].owner)
  }

  /** The steps after which a startup is parked beside its chance: an eviction is given up, and there is
      room by now or a runtime has become free; the only caller finds its runtime unavailable and has
      yet to remove it; a runtime that nobody holds goes quiet by itself. */
  ghost predicate Misses(s: State, step: Step)
    requires Enabled(s, step)
  {
    match step
    case EvictGiveUp(e) =>
      (s.waiters != {} || !s.entries[e].aborted) &&
      (|s.residents| < s.capacity || exists l :: FreeWithout(s, s.entries[e].phase.lease, l))
    case TurnResume(t, _) =>
      var e := s.tasks[t].entry;
      s.waiters != {} && s.entries[e].phase != Failed && !s.entries[e].status.available && Attached(s, e) &&
      Holders(s, e) == {t} && !s.entries[e].status.streaming && !s.entries[e].status.turn &&
      exists l :: RunsOn(s, e, l)
    case Environment(e, status) =>
      s.waiters != {} && Attached(s, e) && Holders(s, e) == {} && !status.streaming && !status.turn &&
      exists l :: RunsOn(s, e, l)
    case _ => false
  }

  lemma GivenUp(s: State, e: EntryId, l: LeaseId)
    requires e in s.entries && s.entries[e].phase.EvictRefused?
    ensures Reclaimable(EvictGiveUpStep(s, e), l) <==> FreeWithout(s, s.entries[e].phase.lease, l)
  {
    var t := EvictGiveUpStep(s, e);
    SameAttached(s, t);
    SameHolders(s, t);
  }

  lemma GivenUpRoom(s: State, e: EntryId)
    requires e in s.entries && s.entries[e].phase.EvictRefused?
    ensures var t := EvictGiveUpStep(s, e);
      |t.residents| == |s.residents| && t.capacity == s.capacity &&
      (t.waiters != {} <==> s.waiters != {} || !s.entries[e].aborted)
  {
    SameSize(s, s.entries[e].phase.lease, false);
    assert e in s.waiters + {e};
  }

  lemma GiveUpMisses(s: State, e: EntryId)
    requires Enabled(s, EvictGiveUp(e))
    ensures Overlooks(EvictGiveUpStep(s, e)) <==> Misses(s, EvictGiveUp(e))
  {
    GivenUpRoom(s, e);
    forall l
      ensures Reclaimable(EvictGiveUpStep(s, e), l) <==> FreeWithout(s, s.entries[e].phase.lease, l)
    {
      GivenUp(s, e, l);
    }
  }

  /** What giving the reservation back changes for the acquire loop. */
  lemma ResumedLease(s: State, t: TaskId, now: int, l: LeaseId)
    requires HolderInv(s) && t in s.tasks && s.tasks[t].Awaiting? && s.tasks[t].entry in s.entries
    requires var e := s.tasks[t].entry; s.entries[e].phase != Failed && !s.entries[e].status.available
    ensures var e := s.tasks[t].entry;
      IdleLease(TurnResumeStep(s, t, now), l) <==>
        IdleLease(s, l) || (Attached(s, e) && Holders(s, e) == {t} && !s.entries[e].status.streaming &&
          !s.entries[e].status.turn && RunsOn(s, e, l))
  {
    var e := s.tasks[t].entry;
    SameAttached(s, TurnResumeStep(s, t, now));
    if Attached(s, e) {
      assert t in Holders(s, e);
      OnlyOne(Holders(s, e), t);
    }
  }

  lemma ResumeMissesNothing(s: State, t: TaskId, now: int)
    requires LeaseInv(s) && AttachInv(s) && t in s.tasks && s.tasks[t].entry in s.entries
    requires var e := s.tasks[t].entry; s.entries[e].phase == Failed || s.entries[e].status.available
    ensures NoNewChance(s, TurnResumeStep(s, t, now))
  {
    var r, e := TurnResumeStep(s, t, now), s.tasks[t].entry;
    PutChance(s, e, r.entries[e]);
    SameAttached(s, r);
  }

  lemma ResumeMisses(s: State, t: TaskId, now: int)
    requires HolderInv(s) && LeaseInv(s) && AttachInv(s) && Enabled(s, TurnResume(t, now))
    requires s.waiters != {} ==> !Chance(s)
    ensures var r := TurnResumeStep(s, t, now); r.waiters != {} && Chance(r) <==> Misses(s, TurnResume(t, now))
  {
    var e := s.tasks[t].entry;
    if s.entries[e].phase == Failed || s.entries[e].status.available {
      ResumeMissesNothing(s, t, now);
    } else {
      forall l
        ensures IdleLease(TurnResumeStep(s, t, now), l) <==>
          IdleLease(s, l) || (Attached(s, e) && Holders(s, e) == {t} && !s.entries[e].status.streaming &&
            !s.entries[e].status.turn && RunsOn(s, e, l))
      {
        ResumedLease(s, t, now, l);
      }
    }
  }

  lemma OnlyOne<T>(s: set<T>, x: T)
    requires x in s
    ensures |s| == 1 <==> s == {x}
  {
    assert s == {x} + (s - {x});
  }

  lemma EnvironmentMisses(s: State, e: EntryId, status: Status)
    requires HolderInv(s) && LeaseInv(s) && Enabled(s, Environment(e, status))
    requires s.waiters != {} ==> !Chance(s)
    ensures var r := Put(s, e, s.entries[e].(status := status));
      r.waiters != {} && Chance(r) <==> Misses(s, Environment(e, status))
  {
    var r := Put(s, e, s.entries[e].(status := status));
    forall l
      ensures IdleLease(r, l) <==>
        (IdleLease(s, l) && s.residents[l].owner != e) ||
        (Attached(s, e) && Holders(s, e) == {} && !status.streaming && !status.turn && RunsOn(s, e, l))
    {
      QuietenedLease(s, e, status, l);
    }
  }

  lemma QuietenedLease(s: State, e: EntryId, status: Status, l: LeaseId)
    requires HolderInv(s) && e in s.entries
    ensures IdleLease(Put(s, e, s.entries[e].(status := status)), l) <==>
      (IdleLease(s, l) && s.residents[l].owner != e) ||
      (Attached(s, e) && Holders(s, e) == {} && !status.streaming && !status.turn && RunsOn(s, e, l))
  {
    SameAttached(s, Put(s, e, s.entries[e].(status := status)));
  }

  lemma ChanceMeansOverlooks(s: State)
    requires HolderInv(s)
    ensures Overlooks(s) <==> s.waiters != {} && Chance(s)
  {
    forall l
      ensures IdleLease(s, l) <==> Reclaimable(s, l)
    {
      IdleMeansReclaimable(s, l);
    }
  }

  /** From a state where no startup is parked beside its chance, exactly these steps lead to one. */
  lemma WakeUpsAreMissedExactly(first: State, steps: seq<Step>, s: State, step: Step)
    requires Init(first) && Run(first, steps, s) && Enabled(s, step) && !Overlooks(s)
    ensures Overlooks(Apply(s, step)) <==> Misses(s, step)
  {
    InitInv(first);
    RunKeepsVictims(first, steps, s);
    StepKeepsInv(s, step);
    ChanceMeansOverlooks(s);
    ChanceMeansOverlooks(Apply(s, step));
    MissesAt(s, step);
  }

  lemma MissesAt(s: State, step: Step)
    requires Inv(s) && VictimsInv(s) && Enabled(s, step) && (s.waiters != {} ==> !Chance(s))
    requires HolderInv(Apply(s, step))
    ensures var r := Apply(s, step); r.waiters != {} && Chance(r) <==> Misses(s, step)
  {
    if step.EvictGiveUp? {
      GiveUpMisses(s, step.entry);
      ChanceMeansOverlooks(Apply(s, step));
    } else if step.TurnResume? {
      ResumeMisses(s, step.task, step.now);
    } else if step.Environment? {
      EnvironmentMisses(s, step.entry, step.status);
    } else if step.TryAcquire? {
      TryAcquireMissesNothing(s, step.entry, step.candidate);
    } else {
      OthersMissNothing(s, step);
      NothingMissed(s, Apply(s, step));
    }
  }

  lemma NothingMissed(s: State, t: State)
    requires MissesNothing(s, t) && (s.waiters != {} ==> !Chance(s))
    ensures t.waiters != {} ==> !Chance(t)
  {
  }

  lemma OthersMissNothing(s: State, step: Step)
    requires Inv(s) && VictimsInv(s) && Enabled(s, step)
    requires !step.EvictGiveUp? && !step.TurnResume? && !step.Environment? && !step.TryAcquire?
    ensures MissesNothing(s, Apply(s, step))
  {
    if step.EndTurn? || step.EndStatus? || step.AbortEnd? {
      EndingsMissNothing(s, step);
    } else if ByCaller(step) {
      CallersMissNothing(s, step);
    } else if ByRemoval(step) {
      RemovalsMissNothing(s, step);
    } else if step.EvictCheck? {
      EvictCheckMissesNothing(s, step.entry);
    } else if step.EvictDone? {
      EvictDoneMissesNothing(s, step.entry);
    } else {
      WorkersMissNothing(s, step);
    }
  }

  lemma SomeLease(s: State)
    requires |s.residents| > 0
    ensures exists l :: l in s.residents
  {
    assert |s.residents| == |s.residents.Keys|;
    if forall l :: l !in s.residents {
      NoMembers(s.residents.Keys);
    }
  }

  lemma UnusedIsReclaimable(s: State, l: LeaseId)
    requires Unused(s, l) && !s.entries[s.residents[l].owner].status.streaming
    requires !s.entries[s.residents[l].owner].status.turn
    ensures Reclaimable(s, l)
  {
  }

  /** So a startup can only get stuck by a missed wake-up: if nothing is going on, no runtime does
      anything by itself, and yet a startup is unfinished, it is parked beside its chance. */
  lemma OnlyMissedWakeUpsStick(first: State, steps: seq<Step>, s: State, e: EntryId)
    requires Init(first) && Run(first, steps, s) && s.capacity > 0
    requires e in s.entries && !Settled(s.entries[e].phase) && !Busy(s)
    requires forall f :: f in s.entries ==> !s.entries[f].status.streaming && !s.entries[f].status.turn
    ensures Overlooks(s)
  {
    NothingIsStuck(first, steps, s, e);
    InitInv(first);
    RunKeepsInv(first, steps, s);
    StuckOverlooks(s, e);
  }

  lemma StuckOverlooks(s: State, e: EntryId)
    requires WaiterInv(s) && s.capacity > 0 && e in s.entries && s.entries[e].phase == Waiting
    requires forall l :: l in s.residents ==> Unused(s, l)
    requires forall f :: f in s.entries ==> !s.entries[f].status.streaming && !s.entries[f].status.turn
    ensures Overlooks(s)
  {
    assert e in s.waiters;
    if |s.residents| >= s.capacity {
      SomeLease(s);
      var l :| l in s.residents;
      assert Unused(s, l);
      UnusedIsReclaimable(s, l);
    }
  }
}
