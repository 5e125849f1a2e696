/** The session residency protocol: any number of per-binding registries that share
    one Host-wide pool of resident-runtime leases.

    One `Step` is one synchronous stretch between two awaits.  A serialized mutation
    is such a stretch, because every operation handed to it is synchronous.  Object
    identity is an `EntryId`: an entry keeps its id after it left the map.  */
module ResidencyModel {
  import opened Wrappers

  type Key = string
  type RegistryId = int
  type EntryId = int
  type LeaseId = int
  type TaskId = int

  /** Where the startup continuation of an entry stands. */
  datatype Phase =
    | Gated(replaced: Option<EntryId>)                    // start() has not opened the gate
    | AwaitPredecessor(evicted: EntryId)                  // disposing the entry it replaced
    | Acquiring                                           // top of the coordinator's acquire loop
    | Evicting(lease: LeaseId, victim: EntryId)           // the victim's evict() was called
    | EvictRefused(lease: LeaseId)                        // evict() answered false
    | AwaitEviction(lease: LeaseId, victim: EntryId)      // evict() awaits the victim's disposal
    | Waiting                                             // parked in the waiter set
    | Granted                                             // a lease was created for it
    | Starting                                            // the worker is starting
    | Discarding                                          // started, but cancelled meanwhile
    | Activated                                           // live and evictable, promise still pending
    | Ready                                               // live, promise fulfilled
    | Failing                                             // startup threw, map clean-up pending
    | Failed                                              // promise rejected
    | Disposed                                            // runtime stopped after having been Ready

  /** The progress of `disposeEntry` for an entry. */
  datatype Disposal = NotRequested | Owed | Running | Done

  datatype Status = Status(streaming: bool, turn: bool, available: bool, lastUsedAt: int)

  datatype Entry = Entry(
    registry: RegistryId,
    key: Key,
    reservations: nat,
    phase: Phase,
    lease: Option<LeaseId>,
    aborted: bool,
    disposal: Disposal,
    status: Status)

  /** A leased slot; `owner` stands for the identity the lease was created for. */
  datatype Resident = Resident(owner: EntryId, active: bool, evicting: bool)

  /** A caller inside the registry.  `Removing` already gave its reservation back. */
  datatype Task =
    | Awaiting(entry: EntryId)
    | Active(entry: EntryId)
    | Removing(entry: EntryId)
    | Aborting(entry: EntryId)

  datatype State = State(
    capacity: nat,
    limits: map<RegistryId, nat>,
    residents: map<LeaseId, Resident>,
    nextLeaseId: LeaseId,
    waiters: set<EntryId>,
    sessions: map<RegistryId, map<Key, EntryId>>,
    entries: map<EntryId, Entry>,
    nextEntryId: EntryId,
    tasks: map<TaskId, Task>)

  datatype Step =
    | AcquireShared(task: TaskId, registry: RegistryId, key: Key)
    | AcquireCreate(task: TaskId, registry: RegistryId, key: Key, victim: Option<EntryId>)
    | OpenGate(entry: EntryId)
    | PredecessorGone(entry: EntryId)
    | TryAcquire(entry: EntryId, candidate: Option<LeaseId>)
    | EvictCheck(entry: EntryId)
    | EvictGiveUp(entry: EntryId)
    | EvictDone(entry: EntryId)
    | Proceed(entry: EntryId)
    | StartFailed(entry: EntryId)
    | StartSucceeded(entry: EntryId, status: Status)
    | Discarded(entry: EntryId)
    | Publish(entry: EntryId)
    | Cleanup(entry: EntryId)
    | TurnResume(task: TaskId, now: int)
    | RemoveUnavailable(task: TaskId)
    | EndTurn(task: TaskId, now: int)
    | EndStatus(task: TaskId)
    | AbortBegin(task: TaskId, registry: RegistryId, key: Key)
    | AbortEvict(task: TaskId)
    | AbortEnd(task: TaskId)
    | Remove(registry: RegistryId, key: Key)
    | Prune(registry: RegistryId, now: int, ttl: int)
    | DisposeAll(registry: RegistryId)
    | StartDisposal(entry: EntryId)
    | FinishDisposal(entry: EntryId)
    | Environment(entry: EntryId, status: Status)

  // ---------------------------------------------------------------- queries

  predicate Mapped(s: State, r: RegistryId, k: Key) {
    r in s.sessions && k in s.sessions[r]
  }

  /** The entry is the one its registry's map holds for its key. */
  predicate Attached(s: State, e: EntryId) {
    e in s.entries && Mapped(s, s.entries[e].registry, s.entries[e].key) &&
    s.sessions[s.entries[e].registry][s.entries[e].key] == e
  }

  /** A worker process may exist for the entry. */
  predicate HasRuntime(p: Phase) {
    p.Starting? || p.Discarding? || p.Activated? || p.Ready?
  }

  predicate HoldsLease(p: Phase) {
    p.Granted? || HasRuntime(p)
  }

  predicate Settled(p: Phase) {
    p.Ready? || p.Disposed? || p.Failed?
  }

  predicate Quiet(e: Entry) {
    e.reservations == 0 && !e.status.streaming && !e.status.turn
  }

  predicate Holds(t: Task, e: EntryId) {
    !t.Removing? && t.entry == e
  }

  function Holders(s: State, e: EntryId): set<TaskId> {
    set t | t in s.tasks && Holds(s.tasks[t], e)
  }

  predicate PruneTarget(s: State, r: RegistryId, k: Key, now: int, ttl: int)
    requires Mapped(s, r, k)
  {
    s.sessions[r][k] in s.entries &&
    var e := s.entries[s.sessions[r][k]];
    e.phase.Ready? && Quiet(e) && (!e.status.available || now - e.status.lastUsedAt >= ttl)
  }

  /** The registry's own idle test: managed, unreserved, not streaming, no turn. */
  predicate IdleIn(s: State, r: RegistryId, v: EntryId) {
    Attached(s, v) && s.entries[v].registry == r && s.entries[v].phase.Ready? && Quiet(s.entries[v])
  }

  ghost predicate LruIdleIn(s: State, r: RegistryId, v: EntryId) {
    IdleIn(s, r, v) &&
    forall w :: IdleIn(s, r, w) ==> s.entries[v].status.lastUsedAt <= s.entries[w].status.lastUsedAt
  }

  /** The coordinator's idle test: not being evicted, and its control says idle. */
  predicate IdleLease(s: State, l: LeaseId) {
    l in s.residents && !s.residents[l].evicting && s.residents[l].active &&
    Attached(s, s.residents[l].owner) && Quiet(s.entries[s.residents[l].owner])
  }

  ghost predicate LruIdleLease(s: State, l: LeaseId) {
    IdleLease(s, l) &&
    forall m :: IdleLease(s, m) ==>
      s.entries[s.residents[l].owner].status.lastUsedAt <= s.entries[s.residents[m].owner].status.lastUsedAt
  }

  // ---------------------------------------------------------------- primitive updates

  function Put(s: State, e: EntryId, entry: Entry): State {
    s.(entries := s.entries[e := entry])
  }

  function WithPhase(s: State, e: EntryId, p: Phase): State
    requires e in s.entries
  {
    Put(s, e, s.entries[e].(phase := p))
  }

  /** Wakes every waiter: each goes back to the top of the acquire loop. */
  function Notify(s: State): State {
    s.(waiters := {},
       entries := map e | e in s.entries ::
         if e in s.waiters then s.entries[e].(phase := Acquiring) else s.entries[e])
  }

  /** Registers a waiter, unless its startup was cancelled. */
  function Park(s: State, e: EntryId): State
    requires e in s.entries
  {
    if s.entries[e].aborted then WithPhase(s, e, Failing)
    else WithPhase(s, e, Waiting).(waiters := s.waiters + {e})
  }

  /** A new lease for `e`. */
  function CreateLease(s: State, e: EntryId): State
    requires e in s.entries
  {
    Put(s, e, s.entries[e].(phase := Granted, lease := Some(s.nextLeaseId))).(
      residents := s.residents[s.nextLeaseId := Resident(e, false, false)],
      nextLeaseId := s.nextLeaseId + 1)
  }

  /** Deletes the lease of `e`, if it has one, as its startup or disposal ends in `entry`. */
  function DropLease(s: State, e: EntryId, entry: Entry): State
    requires e in s.entries
  {
    var lease := s.entries[e].lease;
    Put(s, e, entry.(lease := None)).(
      residents := if lease.Some? then s.residents - {lease.value} else s.residents)
  }

  function ReleaseInto(s: State, e: EntryId, p: Phase): State
    requires e in s.entries
  {
    Notify(DropLease(s, e, s.entries[e].(phase := p)))
  }

  function SetEvicting(s: State, l: LeaseId, evicting: bool): State {
    if l in s.residents then s.(residents := s.residents[l := s.residents[l].(evicting := evicting)]) else s
  }

  /** Removes keys of one registry; every removed entry now owes its disposal. */
  function DetachKeys(s: State, r: RegistryId, keys: set<Key>): State
    requires r in s.sessions
  {
    s.(sessions := s.sessions[r := s.sessions[r] - keys],
       entries := map e | e in s.entries ::
         if Attached(s, e) && s.entries[e].registry == r && s.entries[e].key in keys
         then s.entries[e].(disposal := Owed) else s.entries[e])
  }

  function Detach(s: State, e: EntryId): State
    requires Attached(s, e)
  {
    DetachKeys(s, s.entries[e].registry, {s.entries[e].key})
  }

  function DetachIfAttached(s: State, e: EntryId): State {
    if Attached(s, e) then Detach(s, e) else s
  }

  /** Takes one reservation on behalf of a new task. */
  function Reserve(s: State, e: EntryId, t: TaskId, task: Task): State
    requires e in s.entries
  {
    Put(s, e, s.entries[e].(reservations := s.entries[e].reservations + 1)).(tasks := s.tasks[t := task])
  }

  function Dec(n: nat): nat {
    if n == 0 then 0 else n - 1
  }

  /** Gives the task's reservation back without looking at the map. */
  function DecReservation(s: State, e: EntryId): State
    requires e in s.entries
  {
    Put(s, e, s.entries[e].(reservations := Dec(s.entries[e].reservations)))
  }

  /** Gives the task's reservation back, but only to an entry that is still mapped. */
  function Unreserve(s: State, t: TaskId): State
    requires t in s.tasks
  {
    var e := s.tasks[t].entry;
    (if Attached(s, e) then DecReservation(s, e) else s).(tasks := s.tasks - {t})
  }

  // ---------------------------------------------------------------- steps

  function AcquireSharedStep(s: State, t: TaskId, r: RegistryId, k: Key): State
    requires Mapped(s, r, k) && s.sessions[r][k] in s.entries
  {
    Reserve(s, s.sessions[r][k], t, Awaiting(s.sessions[r][k]))
  }

  /** A fresh entry behind its gate, holding the reservation of the task that made it. */
  function Insert(s: State, t: TaskId, r: RegistryId, k: Key, replaced: Option<EntryId>): State
    requires r in s.sessions
  {
    var e := s.nextEntryId;
    Put(s, e, Entry(r, k, 1, Gated(replaced), None, false, NotRequested, Status(false, false, false, 0))).(
      nextEntryId := e + 1,
      sessions := s.sessions[r := s.sessions[r][k := e]],
      tasks := s.tasks[t := Awaiting(e)])
  }

  function AcquireCreateStep(s: State, t: TaskId, r: RegistryId, k: Key, victim: Option<EntryId>): State
    requires r in s.sessions
    requires victim.Some? ==> Attached(s, victim.value)
  {
    Insert(if victim.Some? then Detach(s, victim.value) else s, t, r, k, victim)
  }

  function OpenGateStep(s: State, e: EntryId): State
    requires e in s.entries && s.entries[e].phase.Gated?
  {
    var replaced := s.entries[e].phase.replaced;
    WithPhase(s, e, if replaced.Some? then AwaitPredecessor(replaced.value) else Acquiring)
  }

  function TryAcquireStep(s: State, e: EntryId, candidate: Option<LeaseId>): State
    requires e in s.entries
    requires candidate.Some? ==> candidate.value in s.residents
  {
    if s.entries[e].aborted then WithPhase(s, e, Failing)
    else if |s.residents| < s.capacity then CreateLease(s, e)
    else if candidate.Some? then
      WithPhase(SetEvicting(s, candidate.value, true), e,
                Evicting(candidate.value, s.residents[candidate.value].owner))
    else Park(s, e)
  }

  function EvictCheckStep(s: State, e: EntryId): State
    requires e in s.entries && s.entries[e].phase.Evicting?
  {
    var l, v := s.entries[e].phase.lease, s.entries[e].phase.victim;
    if Attached(s, v) && Quiet(s.entries[v]) then WithPhase(Detach(s, v), e, AwaitEviction(l, v))
    else WithPhase(s, e, EvictRefused(l))
  }

  function EvictGiveUpStep(s: State, e: EntryId): State
    requires e in s.entries && s.entries[e].phase.EvictRefused?
  {
    Park(SetEvicting(s, s.entries[e].phase.lease, false), e)
  }

  function EvictDoneStep(s: State, e: EntryId): State
    requires e in s.entries && s.entries[e].phase.AwaitEviction?
  {
    WithPhase(SetEvicting(s, s.entries[e].phase.lease, false), e, Acquiring)
  }

  function ProceedStep(s: State, e: EntryId): State
    requires e in s.entries
  {
    if s.entries[e].aborted then ReleaseInto(s, e, Failing) else WithPhase(s, e, Starting)
  }

  /** The runtime becomes evictable through its lease, if that lease is still resident. */
  function Activate(s: State, e: EntryId, status: Status): State
    requires e in s.entries
  {
    var lease := s.entries[e].lease;
    Put(s, e, s.entries[e].(phase := Activated, status := status)).(
      residents := if lease.Some? && lease.value in s.residents
                   then s.residents[lease.value := s.residents[lease.value].(active := true)] else s.residents)
  }

  function StartSucceededStep(s: State, e: EntryId, status: Status): State
    requires e in s.entries
  {
    if s.entries[e].aborted then WithPhase(s, e, Discarding) else Notify(Activate(s, e, status))
  }

  function CleanupStep(s: State, e: EntryId): State
    requires e in s.entries
  {
    var t := WithPhase(s, e, Failed);
    if Attached(s, e)
    then t.(sessions := s.sessions[s.entries[e].registry := s.sessions[s.entries[e].registry] - {s.entries[e].key}])
    else t
  }

  function Use(s: State, e: EntryId, now: int): State
    requires e in s.entries
  {
    Put(s, e, s.entries[e].(status := s.entries[e].status.(lastUsedAt := now)))
  }

  function TurnResumeStep(s: State, t: TaskId, now: int): State
    requires t in s.tasks && s.tasks[t].entry in s.entries
  {
    var e := s.tasks[t].entry;
    if s.entries[e].phase.Failed? then DecReservation(s, e).(tasks := s.tasks - {t})
    else if s.entries[e].status.available then Use(s, e, now).(tasks := s.tasks[t := Active(e)])
    else DecReservation(Use(s, e, now), e).(tasks := s.tasks[t := Removing(e)])
  }

  function RemoveUnavailableStep(s: State, t: TaskId): State
    requires t in s.tasks
  {
    DetachIfAttached(s, s.tasks[t].entry).(tasks := s.tasks - {t})
  }

  /** Ends a hold: releases the reservation, and touches the lease of a still mapped entry. */
  function EndHoldStep(s: State, t: TaskId): State
    requires t in s.tasks
  {
    var e := s.tasks[t].entry;
    if Attached(s, e) && s.entries[e].lease.Some? then Notify(Unreserve(s, t)) else Unreserve(s, t)
  }

  function EndTurnStep(s: State, t: TaskId, now: int): State
    requires t in s.tasks && s.tasks[t].entry in s.entries
  {
    var e := s.tasks[t].entry;
    EndHoldStep(Put(s, e, s.entries[e].(status := s.entries[e].status.(turn := false, lastUsedAt := now))), t)
  }

  function AbortBeginStep(s: State, t: TaskId, r: RegistryId, k: Key): State
    requires Mapped(s, r, k) && s.sessions[r][k] in s.entries
  {
    Reserve(s, s.sessions[r][k], t, Aborting(s.sessions[r][k]))
  }

  function PruneKeys(s: State, r: RegistryId, now: int, ttl: int): set<Key>
    requires r in s.sessions
  {
    set k | k in s.sessions[r] && PruneTarget(s, r, k, now, ttl)
  }

  function StartDisposalStep(s: State, e: EntryId): State
    requires e in s.entries
  {
    var entry := s.entries[e].(disposal := Running, aborted := true);
    Put(s, e, if entry.phase.Waiting? then entry.(phase := Failing) else entry).(waiters := s.waiters - {e})
  }

  function FinishDisposalStep(s: State, e: EntryId): State
    requires e in s.entries
  {
    var done := s.entries[e].(disposal := Done);
    if done.phase.Ready? then Notify(DropLease(s, e, done.(phase := Disposed))) else Put(s, e, done)
  }

  /** The guard of each step.  It only looks at what the continuation itself can see. */
  ghost predicate Enabled(s: State, step: Step) {
    match step
    case AcquireShared(t, r, k) => t !in s.tasks && Mapped(s, r, k) && s.sessions[r][k] in s.entries
    case AcquireCreate(t, r, k, victim) =>
      t !in s.tasks && r in s.sessions && r in s.limits && !Mapped(s, r, k) &&
      (if |s.sessions[r]| < s.limits[r] then victim.None? else victim.Some? && LruIdleIn(s, r, victim.value))
    case OpenGate(e) => e in s.entries && s.entries[e].phase.Gated?
    case PredecessorGone(e) =>
      e in s.entries && s.entries[e].phase.AwaitPredecessor? &&
      s.entries[e].phase.evicted in s.entries && s.entries[s.entries[e].phase.evicted].disposal.Done?
    case TryAcquire(e, candidate) =>
      e in s.entries && s.entries[e].phase.Acquiring? &&
      (if candidate.Some? then LruIdleLease(s, candidate.value) else forall l :: !IdleLease(s, l))
    case EvictCheck(e) => e in s.entries && s.entries[e].phase.Evicting?
    case EvictGiveUp(e) => e in s.entries && s.entries[e].phase.EvictRefused?
    case EvictDone(e) =>
      e in s.entries && s.entries[e].phase.AwaitEviction? &&
      s.entries[e].phase.victim in s.entries && s.entries[s.entries[e].phase.victim].disposal.Done?
    case Proceed(e) => e in s.entries && s.entries[e].phase.Granted?
    case StartFailed(e) => e in s.entries && s.entries[e].phase.Starting?
    case StartSucceeded(e, _) => e in s.entries && s.entries[e].phase.Starting?
    case Discarded(e) => e in s.entries && s.entries[e].phase.Discarding?
    case Publish(e) => e in s.entries && s.entries[e].phase.Activated?
    case Cleanup(e) => e in s.entries && s.entries[e].phase.Failing?
    case TurnResume(t, _) => t in s.tasks && s.tasks[t].Awaiting? && TaskSettled(s, t)
    case RemoveUnavailable(t) => t in s.tasks && s.tasks[t].Removing?
    case EndTurn(t, _) => t in s.tasks && s.tasks[t].Active? && s.tasks[t].entry in s.entries
    case EndStatus(t) => t in s.tasks && s.tasks[t].Active?
    case AbortBegin(t, r, k) => t !in s.tasks && Mapped(s, r, k) && s.sessions[r][k] in s.entries
    case AbortEvict(t) =>
      t in s.tasks && s.tasks[t].Aborting? && TaskSettled(s, t) && !s.entries[s.tasks[t].entry].phase.Failed?
    case AbortEnd(t) => t in s.tasks && s.tasks[t].Aborting? && TaskSettled(s, t)
    case Remove(r, k) => Mapped(s, r, k)
    case Prune(r, _, _) => r in s.sessions
    case DisposeAll(r) => r in s.sessions
    case StartDisposal(e) => e in s.entries && s.entries[e].disposal.Owed?
    case FinishDisposal(e) =>
      e in s.entries && s.entries[e].disposal.Running? && (s.entries[e].phase.Ready? || s.entries[e].phase.Failed?)
    case Environment(e, _) =>
      e in s.entries && (s.entries[e].phase.Activated? || s.entries[e].phase.Ready? || s.entries[e].phase.Disposed?)
  }

  /** The promise the task awaits has settled. */
  predicate TaskSettled(s: State, t: TaskId)
    requires t in s.tasks
  {
    s.tasks[t].entry in s.entries && Settled(s.entries[s.tasks[t].entry].phase)
  }

  /** One synchronous stretch. */
  ghost function Apply(s: State, step: Step): State
    requires Enabled(s, step)
  {
    match step
    case AcquireShared(t, r, k) => AcquireSharedStep(s, t, r, k)
    case AcquireCreate(t, r, k, victim) => AcquireCreateStep(s, t, r, k, victim)
    case OpenGate(e) => OpenGateStep(s, e)
    case PredecessorGone(e) => WithPhase(s, e, Acquiring)
    case TryAcquire(e, candidate) => TryAcquireStep(s, e, candidate)
    case EvictCheck(e) => EvictCheckStep(s, e)
    case EvictGiveUp(e) => EvictGiveUpStep(s, e)
    case EvictDone(e) => EvictDoneStep(s, e)
    case Proceed(e) => ProceedStep(s, e)
    case StartFailed(e) => ReleaseInto(s, e, Failing)
    case StartSucceeded(e, status) => StartSucceededStep(s, e, status)
    case Discarded(e) => ReleaseInto(s, e, Failing)
    case Publish(e) => WithPhase(s, e, Ready)
    case Cleanup(e) => CleanupStep(s, e)
    case TurnResume(t, now) => TurnResumeStep(s, t, now)
    case RemoveUnavailable(t) => RemoveUnavailableStep(s, t)
    case EndTurn(t, now) => EndTurnStep(s, t, now)
    case EndStatus(t) => EndHoldStep(s, t)
    case AbortBegin(t, r, k) => AbortBeginStep(s, t, r, k)
    case AbortEvict(t) => DetachIfAttached(s, s.tasks[t].entry)
    case AbortEnd(t) => EndHoldStep(s, t)
    case Remove(r, k) => DetachKeys(s, r, {k})
    case Prune(r, now, ttl) => DetachKeys(s, r, PruneKeys(s, r, now, ttl))
    case DisposeAll(r) => DetachKeys(s, r, s.sessions[r].Keys)
    case StartDisposal(e) => StartDisposalStep(s, e)
    case FinishDisposal(e) => FinishDisposalStep(s, e)
    case Environment(e, status) => Put(s, e, s.entries[e].(status := status))
  }

  /** No registry has created anything yet. */
  predicate Init(s: State) {
    s.residents == map[] && s.waiters == {} && s.entries == map[] && s.tasks == map[] &&
    s.sessions.Keys == s.limits.Keys && forall r :: r in s.sessions ==> s.sessions[r] == map[]
  }

  /** `last` is reached from `first` by these steps. */
  ghost predicate Run(first: State, steps: seq<Step>, last: State)
    decreases |steps|
  {
    if steps == [] then first == last
    else Enabled(first, steps[0]) && Run(Apply(first, steps[0]), steps[1..], last)
  }
}
