/** Whether the residency protocol can get stuck: what an unfinished startup waits for, and who goes on. */
module ResidencyProgress {
  import opened Wrappers
  import opened SetFacts
  import opened ResidencyModel
  import opened ResidencyInvariants
  import opened ResidencyTheorems
  import opened ResidencyEviction
  import opened ResidencyOutcomes

  // ---------------------------------------------------------------- what startups wait for

  predicate Up(p: Phase) {
    p.Activated? || p.Ready?
  }

  predicate Live(p: Phase) {
    Up(p) || p.Disposed?
  }

  /** A live runtime whose disposal has been asked for. */
  predicate Going(s: State, v: EntryId) {
    v in s.entries && Live(s.entries[v].phase) && !s.entries[v].disposal.NotRequested?
  }

  predicate OwnerIs(s: State, l: LeaseId, v: EntryId) {
    l in s.residents ==> s.residents[l].owner == v
  }

  /** What the startup waits for is on its way out, or a live runtime about to be asked. */
  predicate VictimOk(s: State, p: Phase) {
    match p
    case Gated(replaced) => replaced.Some? ==> Going(s, replaced.value)
    case AwaitPredecessor(v) => Going(s, v)
    case Evicting(l, v) => v in s.entries && Live(s.entries[v].phase) && OwnerIs(s, l, v)
    case AwaitEviction(l, v) => Going(s, v) && OwnerIs(s, l, v)
    case _ => true
  }

  /** Whoever is replaced or evicted is a live runtime, disposed of or about to be; a lease is active
      exactly once its runtime runs. */
  ghost predicate VictimsInv(s: State) {
    (forall e :: e in s.entries ==> VictimOk(s, s.entries[e].phase)) &&
    (forall l :: l in s.residents ==>
      s.residents[l].owner in s.entries && (s.residents[l].active <==> Up(s.entries[s.residents[l].owner].phase)))
  }

  /** Live runtimes stay live and requested disposals requested; leases keep their owner and stay as
      active as they are, and so do their runtimes. */
  ghost predicate Onward(s: State, t: State) {
    (forall e :: e in s.entries ==>
      e in t.entries && (Live(s.entries[e].phase) ==> Live(t.entries[e].phase)) &&
      (t.entries[e].disposal.NotRequested? ==> s.entries[e].disposal.NotRequested?)) &&
    s.nextLeaseId <= t.nextLeaseId &&
    (forall l :: l in t.residents ==> if l in s.residents then OldLease(s, t, l) else NewLease(s, t, l))
  }

  predicate OldLease(s: State, t: State, l: LeaseId)
    requires l in s.residents && l in t.residents
  {
    var e := s.residents[l].owner;
    t.residents[l].owner == e && t.residents[l].active == s.residents[l].active &&
    (e in s.entries && e in t.entries ==> (Up(s.entries[e].phase) <==> Up(t.entries[e].phase)))
  }

  predicate NewLease(s: State, t: State, l: LeaseId)
    requires l in t.residents
  {
    var e := t.residents[l].owner;
    s.nextLeaseId <= l && !t.residents[l].active && e in t.entries && !Up(t.entries[e].phase)
  }

  /** Whether the startup waits for another entry to be disposed of. */
  predicate Waits(p: Phase) {
    (p.Gated? && p.replaced.Some?) || p.AwaitPredecessor? || p.Evicting? || p.AwaitEviction?
  }

  /** The startup waits for nobody new. */
  predicate SameWait(p: Phase, q: Phase) {
    Waits(q) ==> p == q || (p.Gated? && p.replaced.Some? && q == AwaitPredecessor(p.replaced.value))
  }

  ghost predicate SameWaits(s: State, t: State) {
    forall e :: e in t.entries ==>
      if e in s.entries then SameWait(s.entries[e].phase, t.entries[e].phase)
      else !Waits(t.entries[e].phase)
  }

  lemma OnwardVictim(s: State, t: State, p: Phase)
    requires Onward(s, t) && VictimOk(s, p) && (Target(p).Some? ==> Target(p).value < s.nextLeaseId)
    ensures VictimOk(t, p)
  {
  }

  lemma OnwardKeepsVictims(s: State, t: State)
    requires VictimsInv(s) && MarksInv(s) && Onward(s, t) && SameWaits(s, t)
    ensures VictimsInv(t)
  {
    forall e | e in t.entries
      ensures VictimOk(t, t.entries[e].phase)
    {
      if e in s.entries && Waits(t.entries[e].phase) {
        OnwardVictim(s, t, s.entries[e].phase);
      }
    }
  }

  lemma PutOnward(s: State, e: EntryId, entry: Entry)
    requires e in s.entries && (Live(s.entries[e].phase) <==> Live(entry.phase))
    requires Up(s.entries[e].phase) <==> Up(entry.phase)
    requires entry.disposal.NotRequested? ==> s.entries[e].disposal.NotRequested?
    requires SameWait(s.entries[e].phase, entry.phase)
    ensures Onward(s, Put(s, e, entry)) && SameWaits(s, Put(s, e, entry))
  {
  }

  lemma NotifyOnward(s: State, t: State)
    requires Onward(s, t) && SameWaits(s, t)
    requires forall e :: e in t.waiters && e in t.entries ==> t.entries[e].phase.Waiting?
    ensures Onward(s, Notify(t)) && SameWaits(s, Notify(t))
  {
  }

  lemma DetachOnward(s: State, r: RegistryId, keys: set<Key>)
    requires r in s.sessions
    ensures Onward(s, DetachKeys(s, r, keys)) && SameWaits(s, DetachKeys(s, r, keys))
  {
  }

  lemma DetachIfOnward(s: State, e: EntryId)
    ensures Onward(s, DetachIfAttached(s, e)) && SameWaits(s, DetachIfAttached(s, e))
  {
    if Attached(s, e) {
      DetachOnward(s, s.entries[e].registry, {s.entries[e].key});
    }
  }

  lemma ReleaseOnward(s: State, e: EntryId, entry: Entry)
    requires WaiterInv(s) && LeaseInv(s) && e in s.entries && !s.entries[e].phase.Waiting?
    requires Live(s.entries[e].phase) ==> Live(entry.phase)
    requires entry.disposal.NotRequested? ==> s.entries[e].disposal.NotRequested?
    requires !Waits(entry.phase)
    ensures Onward(s, Notify(DropLease(s, e, entry))) && SameWaits(s, Notify(DropLease(s, e, entry)))
  {
    var t := DropLease(s, e, entry);
    assert Onward(s, t) && SameWaits(s, t);
    NotifyOnward(s, t);
  }

  lemma EndHoldOnward(s: State, t: TaskId)
    requires WaiterInv(s) && t in s.tasks
    ensures Onward(s, EndHoldStep(s, t)) && SameWaits(s, EndHoldStep(s, t))
  {
    var e := s.tasks[t].entry;
    if Attached(s, e) {
      PutOnward(s, e, DecReservation(s, e).entries[e]);
    }
    assert Onward(s, Unreserve(s, t)) && SameWaits(s, Unreserve(s, t));
    NotifyOnward(s, Unreserve(s, t));
  }

  lemma EndTurnOnward(s: State, t: TaskId, now: int)
    requires WaiterInv(s) && t in s.tasks && s.tasks[t].entry in s.entries
    ensures Onward(s, EndTurnStep(s, t, now)) && SameWaits(s, EndTurnStep(s, t, now))
  {
    var e := s.tasks[t].entry;
    var u := Put(s, e, s.entries[e].(status := s.entries[e].status.(turn := false, lastUsedAt := now)));
    PutOnward(s, e, u.entries[e]);
    EndHoldOnward(u, t);
  }

  lemma EndingsOnward(s: State, step: Step)
    requires WaiterInv(s) && Enabled(s, step) && (step.EndTurn? || step.EndStatus? || step.AbortEnd?)
    ensures Onward(s, Apply(s, step)) && SameWaits(s, Apply(s, step))
  {
    match step
    case EndTurn(t, now) => EndTurnOnward(s, t, now);
    case EndStatus(t) => EndHoldOnward(s, t);
    case AbortEnd(t) => EndHoldOnward(s, t);
  }

  lemma ReserveOnward(s: State, e: EntryId, t: TaskId, task: Task)
    requires e in s.entries
    ensures Onward(s, Reserve(s, e, t, task)) && SameWaits(s, Reserve(s, e, t, task))
  {
  }

  lemma ResumeOnward(s: State, t: TaskId, now: int)
    requires t in s.tasks && s.tasks[t].entry in s.entries
    ensures Onward(s, TurnResumeStep(s, t, now)) && SameWaits(s, TurnResumeStep(s, t, now))
  {
    PutOnward(s, s.tasks[t].entry, TurnResumeStep(s, t, now).entries[s.tasks[t].entry]);
  }

  lemma CallersOnward(s: State, step: Step)
    requires Enabled(s, step)
    requires step.AcquireShared? || step.AbortBegin? || step.TurnResume? || step.RemoveUnavailable? || step.AbortEvict?
    ensures Onward(s, Apply(s, step)) && SameWaits(s, Apply(s, step))
  {
    match step
    case AcquireShared(t, r, k) => ReserveOnward(s, s.sessions[r][k], t, Awaiting(s.sessions[r][k]));
    case AbortBegin(t, r, k) => ReserveOnward(s, s.sessions[r][k], t, Aborting(s.sessions[r][k]));
    case TurnResume(t, now) => ResumeOnward(s, t, now);
    case RemoveUnavailable(t) => DetachIfOnward(s, s.tasks[t].entry);
    case AbortEvict(t) => DetachIfOnward(s, s.tasks[t].entry);
  }

  lemma RemovalsOnward(s: State, step: Step)
    requires WaiterInv(s) && LeaseInv(s) && Enabled(s, step) && ByRemoval(step)
    ensures Onward(s, Apply(s, step)) && SameWaits(s, Apply(s, step))
  {
    match step
    case Remove(r, k) => DetachOnward(s, r, {k});
    case Prune(r, now, ttl) => DetachOnward(s, r, PruneKeys(s, r, now, ttl));
    case DisposeAll(r) => DetachOnward(s, r, s.sessions[r].Keys);
    case StartDisposal(e) => PutOnward(s, e, Apply(s, step).entries[e]);
    case FinishDisposal(e) =>
      PutOnward(s, e, s.entries[e].(disposal := Done));
      ReleaseOnward(s, e, s.entries[e].(disposal := Done, phase := Disposed));
    case Environment(e, status) => PutOnward(s, e, s.entries[e].(status := status));
  }

  lemma WorkersOnward(s: State, step: Step)
    requires WaiterInv(s) && LeaseInv(s) && Enabled(s, step)
    requires step.Proceed? || step.StartFailed? || step.Discarded? || step.Publish? || step.Cleanup?
    ensures Onward(s, Apply(s, step)) && SameWaits(s, Apply(s, step))
  {
    match step
    case Proceed(e) =>
      PutOnward(s, e, s.entries[e].(phase := Starting));
      ReleaseOnward(s, e, s.entries[e].(phase := Failing));
    case StartFailed(e) => ReleaseOnward(s, e, s.entries[e].(phase := Failing));
    case Discarded(e) => ReleaseOnward(s, e, s.entries[e].(phase := Failing));
    case Publish(e) => PutOnward(s, e, s.entries[e].(phase := Ready));
    case Cleanup(e) => PutOnward(s, e, s.entries[e].(phase := Failed));
  }

  lemma WaitersOnward(s: State, step: Step)
    requires Enabled(s, step) && (step.OpenGate? || step.PredecessorGone? || step.EvictGiveUp? || step.EvictDone?)
    ensures Onward(s, Apply(s, step)) && SameWaits(s, Apply(s, step))
  {
    match step
    case OpenGate(e) => PutOnward(s, e, OpenGateStep(s, e).entries[e]);
    case PredecessorGone(e) => PutOnward(s, e, s.entries[e].(phase := Acquiring));
    case EvictGiveUp(e) => ParkOnward(s, SetEvicting(s, s.entries[e].phase.lease, false), e);
    case EvictDone(e) => PutOnward(s, e, s.entries[e].(phase := Acquiring));
  }

  lemma ParkOnward(s: State, u: State, e: EntryId)
    requires e in u.entries && Onward(s, u) && SameWaits(s, u) && !Live(u.entries[e].phase)
    ensures Onward(s, Park(u, e)) && SameWaits(s, Park(u, e))
  {
  }

  // ---------------------------------------------------------------- the steps that choose a victim

  lemma CreateKeepsVictims(s: State, step: Step)
    requires EntriesInv(s) && MarksInv(s) && VictimsInv(s) && Enabled(s, step) && step.AcquireCreate?
    ensures VictimsInv(Apply(s, step))
  {
    if step.victim.Some? {
      var v := step.victim.value;
      DetachOnward(s, s.entries[v].registry, {s.entries[v].key});
      OnwardKeepsVictims(s, Detach(s, v));
      assert Detach(s, v).entries[v].disposal.Owed?;
      InsertKeepsVictims(Detach(s, v), step.task, step.registry, step.key, step.victim);
    } else {
      InsertKeepsVictims(s, step.task, step.registry, step.key, step.victim);
    }
  }

  lemma InsertKeepsVictims(s: State, t: TaskId, r: RegistryId, k: Key, victim: Option<EntryId>)
    requires s.nextEntryId !in s.entries && VictimsInv(s) && r in s.sessions
    requires victim.Some? ==> Going(s, victim.value)
    ensures VictimsInv(Insert(s, t, r, k, victim))
  {
    var u := Insert(s, t, r, k, victim);
    forall e | e in u.entries
      ensures VictimOk(u, u.entries[e].phase)
    {
      if e in s.entries {
        assert VictimOk(s, s.entries[e].phase);
      }
    }
  }

  lemma TryAcquireKeepsVictims(s: State, e: EntryId, candidate: Option<LeaseId>)
    requires MarksInv(s) && LeaseInv(s) && VictimsInv(s) && e in s.entries && s.entries[e].phase.Acquiring?
    requires candidate.Some? ==> IdleLease(s, candidate.value)
    ensures VictimsInv(TryAcquireStep(s, e, candidate))
  {
    if s.entries[e].aborted {
      PutOnward(s, e, s.entries[e].(phase := Failing));
      OnwardKeepsVictims(s, TryAcquireStep(s, e, candidate));
    } else if |s.residents| < s.capacity {
      CreateLeaseOnward(s, e);
      OnwardKeepsVictims(s, TryAcquireStep(s, e, candidate));
    } else if candidate.Some? {
      MarkKeepsVictims(s, e, candidate.value);
    } else {
      PutOnward(s, e, s.entries[e].(phase := Waiting));
      OnwardKeepsVictims(s, TryAcquireStep(s, e, candidate));
    }
  }

  lemma CreateLeaseOnward(s: State, e: EntryId)
    requires LeaseInv(s) && e in s.entries && s.entries[e].phase.Acquiring?
    ensures Onward(s, CreateLease(s, e)) && SameWaits(s, CreateLease(s, e))
  {
  }

  lemma MarkKeepsVictims(s: State, e: EntryId, l: LeaseId)
    requires MarksInv(s) && VictimsInv(s) && e in s.entries && s.entries[e].phase.Acquiring? && IdleLease(s, l)
    ensures VictimsInv(WithPhase(SetEvicting(s, l, true), e, Evicting(l, s.residents[l].owner)))
  {
    var t := WithPhase(SetEvicting(s, l, true), e, Evicting(l, s.residents[l].owner));
    assert Onward(s, t);
    forall f | f in t.entries
      ensures VictimOk(t, t.entries[f].phase)
    {
      if f != e {
        OnwardVictim(s, t, s.entries[f].phase);
      }
    }
  }

  lemma EvictCheckKeepsVictims(s: State, e: EntryId)
    requires MarksInv(s) && VictimsInv(s) && e in s.entries && s.entries[e].phase.Evicting?
    ensures VictimsInv(EvictCheckStep(s, e))
  {
    var l, v := s.entries[e].phase.lease, s.entries[e].phase.victim;
    if Attached(s, v) && Quiet(s.entries[v]) {
      assert VictimOk(s, s.entries[e].phase);
      DetachOnward(s, s.entries[v].registry, {s.entries[v].key});
      OnwardKeepsVictims(s, Detach(s, v));
      assert Detach(s, v).entries[v].disposal.Owed?;
      GoneKeepsVictims(Detach(s, v), e, AwaitEviction(l, v));
    } else {
      PutOnward(s, e, s.entries[e].(phase := EvictRefused(l)));
      OnwardKeepsVictims(s, EvictCheckStep(s, e));
    }
  }

  lemma GoneKeepsVictims(s: State, e: EntryId, p: Phase)
    requires VictimsInv(s) && e in s.entries && !Live(s.entries[e].phase) && !Live(p) && VictimOk(s, p)
    ensures VictimsInv(WithPhase(s, e, p))
  {
    var t := WithPhase(s, e, p);
    forall f | f in t.entries
      ensures VictimOk(t, t.entries[f].phase)
    {
      assert VictimOk(s, s.entries[f].phase);
    }
  }

  lemma StartSucceededKeepsVictims(s: State, e: EntryId, status: Status)
    requires WaiterInv(s) && LeaseInv(s) && MarksInv(s) && VictimsInv(s) && e in s.entries &&
      s.entries[e].phase.Starting?
    ensures VictimsInv(StartSucceededStep(s, e, status))
  {
    if s.entries[e].aborted {
      PutOnward(s, e, s.entries[e].(phase := Discarding));
      OnwardKeepsVictims(s, StartSucceededStep(s, e, status));
    } else {
      ActivateKeepsVictims(s, e, status);
      var u := Activate(s, e, status);
      StartSucceededMarks(s, e, status);
      assert SameMarks(s, u);
      SameMarksKeepsInv(s, u);
      NotifyOnward(u, u);
      OnwardKeepsVictims(u, Notify(u));
    }
  }

  lemma ActivateKeepsVictims(s: State, e: EntryId, status: Status)
    requires LeaseInv(s) && VictimsInv(s) && e in s.entries && s.entries[e].phase.Starting?
    ensures VictimsInv(Activate(s, e, status))
  {
    var u := Activate(s, e, status);
    forall f | f in u.entries
      ensures VictimOk(u, u.entries[f].phase)
    {
      assert VictimOk(s, s.entries[f].phase);
    }
  }

  lemma StepKeepsVictims(s: State, step: Step)
    requires Inv(s) && MarksInv(s) && VictimsInv(s) && Enabled(s, step)
    ensures VictimsInv(Apply(s, step))
  {
    if step.AcquireCreate? {
      CreateKeepsVictims(s, step);
    } else if step.TryAcquire? {
      TryAcquireKeepsVictims(s, step.entry, step.candidate);
    } else if step.EvictCheck? {
      EvictCheckKeepsVictims(s, step.entry);
    } else if step.StartSucceeded? {
      StartSucceededKeepsVictims(s, step.entry, step.status);
    } else {
      OthersOnward(s, step);
      OnwardKeepsVictims(s, Apply(s, step));
    }
  }

  lemma OthersOnward(s: State, step: Step)
    requires WaiterInv(s) && LeaseInv(s) && Enabled(s, step)
    requires !step.AcquireCreate? && !step.TryAcquire? && !step.EvictCheck? && !step.StartSucceeded?
    ensures Onward(s, Apply(s, step)) && SameWaits(s, Apply(s, step))
  {
    if step.EndTurn? || step.EndStatus? || step.AbortEnd? {
      EndingsOnward(s, step);
    } else if ByCaller(step) {
      CallersOnward(s, step);
    } else if ByRemoval(step) {
      RemovalsOnward(s, step);
    } else if step.OpenGate? || step.PredecessorGone? || step.EvictGiveUp? || step.EvictDone? {
      WaitersOnward(s, step);
    } else {
      WorkersOnward(s, step);
    }
  }

  lemma {:induction false} RunKeepsVictims(first: State, steps: seq<Step>, last: State)
    requires Inv(first) && MarksInv(first) && VictimsInv(first) && Run(first, steps, last)
    ensures Inv(last) && MarksInv(last) && VictimsInv(last)
    decreases |steps|
  {
    if steps != [] {
      StepKeepsInv(first, steps[0]);
      StepKeepsMarks(first, steps[0]);
      StepKeepsVictims(first, steps[0]);
      RunKeepsVictims(Apply(first, steps[0]), steps[1..], last);
    }
  }

  // ---------------------------------------------------------------- choosing a victim

  function LastUse(s: State, l: LeaseId): int
    requires IdleLease(s, l)
  {
    s.entries[s.residents[l].owner].status.lastUsedAt
  }

  function IdleLeasesBefore(s: State, n: int): set<LeaseId> {
    set l | l in s.residents && IdleLease(s, l) && LastUse(s, l) < n
  }

  /** Among idle leases one was used no later than any other. */
  lemma {:induction false} LruLeaseExists(s: State, l: LeaseId)
    requires IdleLease(s, l)
    ensures exists m :: LruIdleLease(s, m)
    decreases |IdleLeasesBefore(s, LastUse(s, l))|
  {
    if !LruIdleLease(s, l) {
      var m :| IdleLease(s, m) && LastUse(s, m) < LastUse(s, l);
      SubsetSize(IdleLeasesBefore(s, LastUse(s, m)) + {m}, IdleLeasesBefore(s, LastUse(s, l)));
      LruLeaseExists(s, m);
    }
  }

  /** The acquire loop always finds its way: some turn of it is possible whatever the leases are. */
  lemma AcquiringGoesOn(s: State, e: EntryId)
    requires e in s.entries && s.entries[e].phase.Acquiring?
    ensures exists candidate :: Enabled(s, TryAcquire(e, candidate))
  {
    if l :| IdleLease(s, l) {
      LruLeaseExists(s, l);
      var m :| LruIdleLease(s, m);
      assert Enabled(s, TryAcquire(e, Some(m)));
    } else {
      assert Enabled(s, TryAcquire(e, None));
    }
  }

  // ---------------------------------------------------------------- nothing is stuck

  /** The steps of calls, startups and disposals that are under way; the others are new calls, the
      Host's own removals, and what a runtime does by itself. */
  predicate Ongoing(step: Step) {
    !(step.AcquireShared? || step.AcquireCreate? || step.AbortBegin? || step.AbortEvict? || step.Remove? ||
      step.Prune? || step.DisposeAll? || step.Environment?)
  }

  ghost predicate Busy(s: State) {
    exists step :: Ongoing(step) && Enabled(s, step)
  }

  /** A live, mapped runtime that nobody holds and nobody evicts. */
  ghost predicate Unused(s: State, l: LeaseId) {
    l in s.residents && s.residents[l].active && !s.residents[l].evicting && Attached(s, s.residents[l].owner) &&
    s.entries[s.residents[l].owner].phase.Ready? && Holders(s, s.residents[l].owner) == {}
  }

  lemma CanGo(s: State, step: Step)
    requires Enabled(s, step) && Ongoing(step)
    ensures Busy(s)
  {
  }

  /** A disposal that was asked for goes on to its end. */
  lemma DisposalsGoOn(s: State, v: EntryId)
    requires EntriesInv(s) && Going(s, v)
    ensures Busy(s) || s.entries[v].disposal.Done?
  {
    assert EntryOk(s.entries[v]);
    if s.entries[v].disposal.Owed? {
      CanGo(s, StartDisposal(v));
    } else if s.entries[v].disposal.Running? {
      if s.entries[v].phase.Activated? {
        CanGo(s, Publish(v));
      } else {
        CanGo(s, FinishDisposal(v));
      }
    }
  }

  lemma EvictionsGoOn(s: State, e: EntryId)
    requires EntriesInv(s) && VictimsInv(s) && e in s.entries
    requires Target(s.entries[e].phase).Some? || s.entries[e].phase.AwaitPredecessor?
    ensures Busy(s)
  {
    assert VictimOk(s, s.entries[e].phase);
    match s.entries[e].phase
    case Evicting(_, _) => CanGo(s, EvictCheck(e));
    case EvictRefused(_) => CanGo(s, EvictGiveUp(e));
    case AwaitEviction(_, v) =>
      DisposalsGoOn(s, v);
      if s.entries[v].disposal.Done? {
        CanGo(s, EvictDone(e));
      }
    case AwaitPredecessor(v) =>
      DisposalsGoOn(s, v);
      if s.entries[v].disposal.Done? {
        CanGo(s, PredecessorGone(e));
      }
  }

  lemma WorkersGoOn(s: State, e: EntryId)
    requires e in s.entries
    requires var p := s.entries[e].phase;
      p.Gated? || p.Granted? || p.Starting? || p.Discarding? || p.Activated? || p.Failing?
    ensures Busy(s)
  {
    match s.entries[e].phase
    case Gated(_) => CanGo(s, OpenGate(e));
    case Granted => CanGo(s, Proceed(e));
    case Starting => CanGo(s, StartFailed(e));
    case Discarding => CanGo(s, Discarded(e));
    case Activated => CanGo(s, Publish(e));
    case Failing => CanGo(s, Cleanup(e));
  }

  /** A startup that has not settled and is not parked goes on, or what it waits for does. */
  lemma StartupsGoOn(s: State, e: EntryId)
    requires EntriesInv(s) && VictimsInv(s) && e in s.entries
    requires !Settled(s.entries[e].phase) && !s.entries[e].phase.Waiting?
    ensures Busy(s)
  {
    if s.entries[e].phase.Acquiring? {
      AcquiringGoesOn(s, e);
      var candidate :| Enabled(s, TryAcquire(e, candidate));
      CanGo(s, TryAcquire(e, candidate));
    } else if Target(s.entries[e].phase).Some? || s.entries[e].phase.AwaitPredecessor? {
      EvictionsGoOn(s, e);
    } else {
      WorkersGoOn(s, e);
    }
  }

  /** A caller whose runtime is ready goes on. */
  lemma HoldersGoOn(s: State, t: TaskId)
    requires t in s.tasks && s.tasks[t].entry in s.entries && Settled(s.entries[s.tasks[t].entry].phase)
    ensures Busy(s)
  {
    match s.tasks[t]
    case Awaiting(_) => CanGo(s, TurnResume(t, 0));
    case Active(_) => CanGo(s, EndStatus(t));
    case Removing(_) => CanGo(s, RemoveUnavailable(t));
    case Aborting(_) => CanGo(s, AbortEnd(t));
  }

  lemma NobodyHolds(s: State, e: EntryId)
    requires forall t :: t in s.tasks ==> !Holds(s.tasks[t], e)
    ensures Holders(s, e) == {}
  {
    forall t
      ensures t !in Holders(s, e)
    {
    }
    NoMembers(Holders(s, e));
  }

  /** Whoever has a lease goes on, or it is a runtime nobody uses. */
  lemma LeasesGoOn(s: State, l: LeaseId)
    requires EntriesInv(s) && AttachInv(s) && LeaseInv(s) && MarksInv(s) && VictimsInv(s) && l in s.residents
    ensures Busy(s) || Unused(s, l)
  {
    var e := s.residents[l].owner;
    assert EntryOk(s.entries[e]) && s.entries[e].lease == Some(l);
    if s.residents[l].evicting {
      var f :| f in s.entries && Target(s.entries[f].phase) == Some(l);
      EvictionsGoOn(s, f);
    } else if !s.entries[e].phase.Ready? {
      StartupsGoOn(s, e);
    } else if !Attached(s, e) {
      DisposalsGoOn(s, e);
    } else if t :| t in s.tasks && Holds(s.tasks[t], e) {
      HoldersGoOn(s, t);
    } else {
      NobodyHolds(s, e);
    }
  }

  /** In every reachable state an unfinished startup means that something is going on: a call, a startup
      or a disposal has its next step.  Else the startup is parked, and every lease there is belongs to
      a live, mapped runtime that nobody holds or evicts. */
  lemma NothingIsStuck(first: State, steps: seq<Step>, s: State, e: EntryId)
    requires Init(first) && Run(first, steps, s) && e in s.entries && !Settled(s.entries[e].phase)
    ensures Busy(s) || (s.entries[e].phase == Waiting && forall l :: l in s.residents ==> Unused(s, l))
  {
    InitInv(first);
    RunKeepsVictims(first, steps, s);
    if !s.entries[e].phase.Waiting? {
      StartupsGoOn(s, e);
    } else {
      forall l | l in s.residents
        ensures Busy(s) || Unused(s, l)
      {
        LeasesGoOn(s, l);
      }
    }
  }

  /** The same for callers: one that cannot go on waits for a parked startup. */
  lemma NoCallerIsStuck(first: State, steps: seq<Step>, s: State, t: TaskId)
    requires Init(first) && Run(first, steps, s) && t in s.tasks
    ensures Busy(s) || (s.tasks[t].entry in s.entries && s.entries[s.tasks[t].entry].phase == Waiting)
  {
    InitInv(first);
    RunKeepsVictims(first, steps, s);
    var e := s.tasks[t].entry;
    if Settled(s.entries[e].phase) {
      HoldersGoOn(s, t);
    } else if !s.entries[e].phase.Waiting? {
      StartupsGoOn(s, e);
    }
  }

  /** Whoever waits for another entry to go waits until its runtime has stopped, and no longer; the lease
      it was evicted for is free by then. */
  lemma WaitsForTheStop(first: State, steps: seq<Step>, s: State, e: EntryId)
    requires Init(first) && Run(first, steps, s) && e in s.entries
    ensures s.entries[e].phase.AwaitPredecessor? ==>
      var v := s.entries[e].phase.evicted;
      v in s.entries && (Enabled(s, PredecessorGone(e)) <==> s.entries[v].phase == Disposed)
    ensures s.entries[e].phase.AwaitEviction? ==>
      var l, v := s.entries[e].phase.lease, s.entries[e].phase.victim;
      v in s.entries && (Enabled(s, EvictDone(e)) <==> s.entries[v].phase == Disposed) &&
      (s.entries[v].phase == Disposed ==> l !in s.residents)
  {
    InitInv(first);
    RunKeepsVictims(first, steps, s);
    WaitsAt(s, e);
  }

  lemma WaitsAt(s: State, e: EntryId)
    requires EntriesInv(s) && LeaseInv(s) && VictimsInv(s) && e in s.entries
    ensures s.entries[e].phase.AwaitPredecessor? ==>
      var v := s.entries[e].phase.evicted;
      v in s.entries && (Enabled(s, PredecessorGone(e)) <==> s.entries[v].phase == Disposed)
    ensures s.entries[e].phase.AwaitEviction? ==>
      var l, v := s.entries[e].phase.lease, s.entries[e].phase.victim;
      v in s.entries && (Enabled(s, EvictDone(e)) <==> s.entries[v].phase == Disposed) &&
      (s.entries[v].phase == Disposed ==> l !in s.residents)
  {
    assert VictimOk(s, s.entries[e].phase);
    match s.entries[e].phase
    case AwaitPredecessor(v) => assert EntryOk(s.entries[v]);
    case AwaitEviction(_, v) => assert EntryOk(s.entries[v]);
    case _ =>
  }

  // ---------------------------------------------------------------- making room

  predicate IdleBefore(s: State, r: RegistryId, v: EntryId, n: int) {
    IdleIn(s, r, v) && s.entries[v].status.lastUsedAt < n
  }

  function IdleEntriesBefore(s: State, r: RegistryId, n: int): set<EntryId> {
    set v | v in s.entries && IdleBefore(s, r, v, n)
  }

  lemma {:induction false} LruEntryExists(s: State, r: RegistryId, v: EntryId)
    requires IdleIn(s, r, v)
    ensures exists w :: LruIdleIn(s, r, w)
    decreases |IdleEntriesBefore(s, r, s.entries[v].status.lastUsedAt)|
  {
    if !LruIdleIn(s, r, v) {
      var n := s.entries[v].status.lastUsedAt;
      var w :| IdleIn(s, r, w) && s.entries[w].status.lastUsedAt < n;
      SubsetSize(IdleEntriesBefore(s, r, s.entries[w].status.lastUsedAt) + {w}, IdleEntriesBefore(s, r, n));
      LruEntryExists(s, r, w);
    }
  }

  /** A live, mapped runtime of the registry that nobody holds and that is in no turn of its own. */
  ghost predicate Spare(s: State, r: RegistryId, v: EntryId) {
    Attached(s, v) && s.entries[v].registry == r && s.entries[v].phase == Ready && Holders(s, v) == {} &&
    !s.entries[v].status.streaming && !s.entries[v].status.turn
  }

  /** A call for a key without an entry gets one exactly when the registry has room or a spare runtime
      to give up; otherwise it fails. */
  lemma RoomIsMadeIff(first: State, steps: seq<Step>, s: State, t: TaskId, r: RegistryId, k: Key)
    requires Init(first) && Run(first, steps, s) && t !in s.tasks && r in s.sessions && !Mapped(s, r, k)
    ensures r in s.limits
    ensures (exists victim :: Enabled(s, AcquireCreate(t, r, k, victim))) <==>
      |s.sessions[r]| < s.limits[r] || exists v :: Spare(s, r, v)
  {
    InitInv(first);
    RunKeepsInv(first, steps, s);
    forall v
      ensures IdleIn(s, r, v) <==> Spare(s, r, v)
    {
      if Attached(s, v) {
        UnusedMeansQuiet(s, v);
      }
    }
    RoomIsMadeAt(s, t, r, k);
  }

  lemma RoomIsMadeAt(s: State, t: TaskId, r: RegistryId, k: Key)
    requires t !in s.tasks && r in s.sessions && r in s.limits && !Mapped(s, r, k)
    requires forall v :: IdleIn(s, r, v) <==> Spare(s, r, v)
    ensures (exists victim :: Enabled(s, AcquireCreate(t, r, k, victim))) <==>
      |s.sessions[r]| < s.limits[r] || exists v :: Spare(s, r, v)
  {
    if |s.sessions[r]| < s.limits[r] {
      assert Enabled(s, AcquireCreate(t, r, k, None));
    } else if v :| Spare(s, r, v) {
      LruEntryExists(s, r, v);
      var w :| LruIdleIn(s, r, w);
      assert Enabled(s, AcquireCreate(t, r, k, Some(w)));
    }
  }
}
