/** Publishing, rolling back and reloading: the asynchronous gap between validating a document and
    committing it, and the host's queue of configurations to apply.

    A task reads the store, waits while its document is loaded, and then in one synchronous stretch
    commits to the store and queues the loaded configuration.  Draft saves may come at any time.  */
module PublishFlow {
  import opened Wrappers
  import opened ConfigStore

  type TaskId = string

  /** A loaded configuration: the document it was loaded from and the credentials found then. */
  datatype LoadedConfig = LoadedConfig(document: Document, credentials: string)

  datatype Kind = Publishing(draft: Id) | RollingBack(target: Id) | Reloading(active: Id)

  /** A task that waits for its document to be loaded. */
  datatype Task = Task(kind: Kind, document: Document)

  datatype Queued = Queued(platform: LoadedConfig, id: Id)

  /** `rejected` says that the last configuration taken from the queue was refused before anything
      was changed. */
  datatype State = State(
    store: Store,
    tasks: map<TaskId, Task>,
    queue: seq<Queued>,
    platform: Option<LoadedConfig>,
    activeRevisionId: Option<Id>,
    rejected: bool)

  datatype Step =
    | Save(op: Op)
    | BeginPublish(task: TaskId, expectedId: Option<Id>)
    | BeginRollback(task: TaskId, target: Id)
    | BeginReload(task: TaskId)
    | Loaded(task: TaskId, credentials: Option<string>, actor: string, note: Option<string>, now: int)
    | HostApply(accepted: bool)

  // ---------------------------------------------------------------- transitions

  function DocumentOf(s: Store, id: Id): Document
    requires ConfigStore.Has(s, id)
  {
    s.revisions[id - 1].document
  }

  predicate Enabled(s: State, step: Step) {
    match step
    case Save(op) => op.SaveDraft?
    case BeginPublish(t, expected) =>
      t !in s.tasks && s.store.draft.Some? && Has(s.store, s.store.draft.value) &&
      (expected.None? || expected == s.store.draft)
    case BeginRollback(t, target) => t !in s.tasks && Has(s.store, target)
    case BeginReload(t) => t !in s.tasks && s.store.active.Some? && Has(s.store, s.store.active.value)
    case Loaded(t, _, _, _, _) => t in s.tasks
    case HostApply(_) => s.queue != []
  }

  function Commit(task: Task, actor: string, note: Option<string>, now: int): Op
    requires !task.kind.Reloading?
  {
    match task.kind
    case Publishing(d) => PublishDraft(actor, now, Some(d))
    case RollingBack(target) => Rollback(target, actor, note, now)
  }

  /** The stretch after loading: nothing when it failed, or the commit failed, or the reloaded revision
      is no longer active. */
  function LoadedStep(env: Env, s: State, step: Step): State
    requires step.Loaded? && Enabled(s, step)
  {
    var task := s.tasks[step.task];
    var rest := s.(tasks := s.tasks - {step.task});
    if step.credentials.None? then rest
    else
      var platform := LoadedConfig(task.document, step.credentials.value);
      if task.kind.Reloading? then
        if s.store.active == Some(task.kind.active) then rest.(queue := s.queue + [Queued(platform, task.kind.active)])
        else rest
      else
        var r := Attempt(env, s.store, Commit(task, step.actor, step.note, step.now));
        if r.Ok? && r.value.active.Some?
        then rest.(store := r.value, queue := s.queue + [Queued(platform, r.value.active.value)])
        else rest
  }

  function Advance(env: Env, s: State, step: Step): State
    requires Enabled(s, step)
  {
    match step
    case Save(op) => s.(store := ConfigStore.Apply(env, s.store, op))
    case BeginPublish(t, _) =>
        s.(tasks := s.tasks[t := Task(Publishing(s.store.draft.value), DocumentOf(s.store, s.store.draft.value))])
    case BeginRollback(t, target) => s.(tasks := s.tasks[t := Task(RollingBack(target), DocumentOf(s.store, target))])
    case BeginReload(t) =>
        s.(tasks := s.tasks[t := Task(Reloading(s.store.active.value), DocumentOf(s.store, s.store.active.value))])
    case Loaded(_, _, _, _, _) => LoadedStep(env, s, step)
    case HostApply(accepted) =>
      if accepted then
        s.(queue := s.queue[1..], platform := Some(s.queue[0].platform), activeRevisionId := Some(s.queue[0].id),
           rejected := false)
      else s.(queue := s.queue[1..], rejected := true)
  }

  function Run(env: Env, s: State, steps: seq<Step>): State
    decreases |steps|
  {
    if steps == [] then s else Run(env, if Enabled(s, steps[0]) then Advance(env, s, steps[0]) else s, steps[1..])
  }

  /** The host was started with the store's active revision, if there is one. */
  ghost predicate Init(env: Env, s: State) {
    ConfigStore.Inv(env, s.store) && s.tasks == map[] && s.queue == [] && !s.rejected &&
    s.activeRevisionId == s.store.active &&
    (s.activeRevisionId.Some? ==> s.platform.Some? && LoadedFrom(s.store, s.platform.value, s.activeRevisionId.value))
  }

  // ---------------------------------------------------------------- the invariant

  predicate LoadedFrom(s: Store, platform: LoadedConfig, id: Id) {
    Has(s, id) && DocumentOf(s, id) == platform.document
  }

  function RevisionOf(kind: Kind): Id {
    match kind case Publishing(d) => d case RollingBack(t) => t case Reloading(a) => a
  }

  ghost predicate TasksInv(s: Store, tasks: map<TaskId, Task>) {
    forall t :: t in tasks ==>
      Has(s, RevisionOf(tasks[t].kind)) && DocumentOf(s, RevisionOf(tasks[t].kind)) == tasks[t].document
  }

  ghost predicate QueueInv(s: Store, queue: seq<Queued>) {
    (forall i :: 0 <= i < |queue| ==> LoadedFrom(s, queue[i].platform, queue[i].id)) &&
    (queue != [] ==> s.active == Some(queue[|queue| - 1].id))
  }

  ghost predicate HostInv(s: State) {
    (s.activeRevisionId.Some? ==>
     s.platform.Some? && LoadedFrom(s.store, s.platform.value, s.activeRevisionId.value)) &&
    (s.queue == [] && !s.rejected ==> s.activeRevisionId == s.store.active)
  }

  ghost predicate FlowInv(env: Env, s: State) {
    ConfigStore.Inv(env, s.store) && TasksInv(s.store, s.tasks) && QueueInv(s.store, s.queue) && HostInv(s)
  }

  /** A store that only grew still has every document a task, a queue entry or the host was given. */
  lemma LoadedFromIsStable(s: Store, r: Store, platform: LoadedConfig, id: Id)
    requires Extends(s, r) && LoadedFrom(s, platform, id)
    ensures LoadedFrom(r, platform, id)
  {
    assert SameRevision(s.revisions[id - 1], r.revisions[id - 1]);
  }

  lemma TasksAreStable(s: Store, r: Store, tasks: map<TaskId, Task>)
    requires Extends(s, r) && TasksInv(s, tasks)
    ensures TasksInv(r, tasks)
  {
    forall t | t in tasks
      ensures Has(r, RevisionOf(tasks[t].kind)) && DocumentOf(r, RevisionOf(tasks[t].kind)) == tasks[t].document
    {
      LoadedFromIsStable(s, r, LoadedConfig(tasks[t].document, ""), RevisionOf(tasks[t].kind));
    }
  }

  /** The queue with one more configuration, once the store has made that one's revision active. */
  lemma QueueGrows(s: Store, r: Store, queue: seq<Queued>, q: Queued)
    requires Extends(s, r) && QueueInv(s, queue) && LoadedFrom(r, q.platform, q.id) && r.active == Some(q.id)
    ensures QueueInv(r, queue + [q])
  {
    forall i | 0 <= i < |queue|
      ensures LoadedFrom(r, queue[i].platform, queue[i].id)
    {
      LoadedFromIsStable(s, r, queue[i].platform, queue[i].id);
    }
  }

  lemma SaveKeepsInv(env: Env, s: State, op: Op)
    requires ValidEnv(env) && FlowInv(env, s) && op.SaveDraft?
    ensures FlowInv(env, Advance(env, s, Save(op)))
  {
    ConfigStore.StepKeepsInv(env, s.store, op);
    StepExtends(env, s.store, op);
    TasksAreStable(s.store, ConfigStore.Apply(env, s.store, op), s.tasks);
  }

  lemma CommitFacts(env: Env, s: Store, task: Task, op: Op)
    requires ValidEnv(env) && ConfigStore.Inv(env, s)
    requires Has(s, RevisionOf(task.kind)) && DocumentOf(s, RevisionOf(task.kind)) == task.document
    requires !task.kind.Reloading? && op == Commit(task, op.actor, if op.Rollback? then op.note else None, op.now)
    requires Attempt(env, s, op).Ok?
    ensures var r := Attempt(env, s, op).value;
      ConfigStore.Inv(env, r) && Extends(s, r) && r.active.Some? && Has(r, r.active.value) &&
      DocumentOf(r, r.active.value) == task.document
  {
    ConfigStore.StepKeepsInv(env, s, op);
    StepExtends(env, s, op);
    PublicationKeepsTheDocument(env, s, op);
  }

  lemma CommitKeepsInv(env: Env, s: State, r: Store, platform: LoadedConfig)
    requires FlowInv(env, s) && ConfigStore.Inv(env, r) && Extends(s.store, r)
    requires r.active.Some? && LoadedFrom(r, platform, r.active.value)
    ensures FlowInv(env, s.(store := r, queue := s.queue + [Queued(platform, r.active.value)]))
  {
    TasksAreStable(s.store, r, s.tasks);
    QueueGrows(s.store, r, s.queue, Queued(platform, r.active.value));
    if s.activeRevisionId.Some? {
      LoadedFromIsStable(s.store, r, s.platform.value, s.activeRevisionId.value);
    }
  }

  lemma ExtendsItself(s: Store)
    ensures Extends(s, s)
  {
  }

  lemma LoadedKeepsInv(env: Env, s: State, step: Step)
    requires ValidEnv(env) && FlowInv(env, s) && step.Loaded? && Enabled(s, step)
    ensures FlowInv(env, LoadedStep(env, s, step))
  {
    var task := s.tasks[step.task];
    var rest := s.(tasks := s.tasks - {step.task});
    assert FlowInv(env, rest);
    if step.credentials.Some? {
      var platform := LoadedConfig(task.document, step.credentials.value);
      if task.kind.Reloading? {
        if s.store.active == Some(task.kind.active) {
          ExtendsItself(s.store);
          CommitKeepsInv(env, rest, s.store, platform);
        }
      } else {
        var op := Commit(task, step.actor, step.note, step.now);
        if Attempt(env, s.store, op).Ok? {
          CommitFacts(env, s.store, task, op);
          CommitKeepsInv(env, rest, Attempt(env, s.store, op).value, platform);
        }
      }
    }
  }

  lemma StepKeepsInv(env: Env, s: State, step: Step)
    requires ValidEnv(env) && FlowInv(env, s) && Enabled(s, step)
    ensures FlowInv(env, Advance(env, s, step))
  {
    match step
    case Save(op) => SaveKeepsInv(env, s, op);
    case Loaded(_, _, _, _, _) => LoadedKeepsInv(env, s, step);
    case _ =>
  }

  lemma {:induction false} RunKeepsInv(env: Env, s: State, steps: seq<Step>)
    requires ValidEnv(env) && FlowInv(env, s)
    ensures FlowInv(env, Run(env, s, steps))
    decreases |steps|
  {
    if steps != [] {
      if Enabled(s, steps[0]) {
        StepKeepsInv(env, s, steps[0]);
      }
      RunKeepsInv(env, if Enabled(s, steps[0]) then Advance(env, s, steps[0]) else s, steps[1..]);
    }
  }

  // ---------------------------------------------------------------- main results

  /** However publications, rollbacks, reloads and draft saves interleave, every queued configuration
      was loaded from exactly the document of the revision it is queued under, and the last one queued
      names the active revision. */
  lemma QueueCarriesTheRightRevisions(env: Env, s: State, steps: seq<Step>)
    requires ValidEnv(env) && Init(env, s)
    ensures var r := Run(env, s, steps);
      (forall i :: 0 <= i < |r.queue| ==>
       Has(r.store, r.queue[i].id) && r.queue[i].platform.document == DocumentOf(r.store, r.queue[i].id)) &&
      (r.queue != [] ==> r.store.active == Some(r.queue[|r.queue| - 1].id))
  {
    RunKeepsInv(env, s, steps);
  }

  /** Once the queue has drained and the last configuration taken from it was not refused outright,
      the host runs the active revision, loaded from that revision's document. */
  lemma DrainedHostRunsTheActiveRevision(env: Env, s: State, steps: seq<Step>)
    requires ValidEnv(env) && Init(env, s)
    requires Run(env, s, steps).queue == [] && !Run(env, s, steps).rejected
    ensures var r := Run(env, s, steps);
      r.activeRevisionId == r.store.active &&
      (r.store.active.Some? ==>
        r.platform.Some? && Has(r.store, r.store.active.value) &&
        r.platform.value.document == DocumentOf(r.store, r.store.active.value))
  {
    RunKeepsInv(env, s, steps);
  }

  lemma {:induction false} TaskIsUntouched(env: Env, s: State, steps: seq<Step>, t: TaskId)
    requires t in s.tasks && forall i :: 0 <= i < |steps| && steps[i].Loaded? ==> steps[i].task != t
    ensures t in Run(env, s, steps).tasks && Run(env, s, steps).tasks[t] == s.tasks[t]
    decreases |steps|
  {
    if steps != [] {
      TaskIsUntouched(env, if Enabled(s, steps[0]) then Advance(env, s, steps[0]) else s, steps[1..], t);
    }
  }

  /** No lost update across the gap: a publication that began with draft `d` and commits, whatever
      happened while its document was loading, publishes `d` itself with the document it had validated. */
  lemma PublicationCommitsWhatItValidated(
      env: Env, first: State, steps: seq<Step>, s: State, t: TaskId, expected: Option<Id>,
        between: seq<Step>, done: Step)
    requires ValidEnv(env) && Init(env, first) && s == Run(env, first, steps) && Enabled(s, BeginPublish(t, expected))
    requires forall i :: 0 <= i < |between| && between[i].Loaded? ==> between[i].task != t
    requires done.Loaded? && done.task == t
    ensures var before := Run(env, Advance(env, s, BeginPublish(t, expected)), between);
      t in before.tasks &&
      var after := LoadedStep(env, before, done);
      |after.queue| > |before.queue| ==>
        before.store.draft == s.store.draft && after.store.active == s.store.draft && after.store.draft == None &&
        after.queue[|before.queue|].platform.document == DocumentOf(s.store, s.store.draft.value)
  {
    RunKeepsInv(env, first, steps);
    CommitsWhatItValidated(env, s, t, expected, between, done);
  }

  lemma CommitsWhatItValidated(env: Env, s: State, t: TaskId, expected: Option<Id>, between: seq<Step>, done: Step)
    requires ValidEnv(env) && FlowInv(env, s) && Enabled(s, BeginPublish(t, expected))
    requires forall i :: 0 <= i < |between| && between[i].Loaded? ==> between[i].task != t
    requires done.Loaded? && done.task == t
    ensures var before := Run(env, Advance(env, s, BeginPublish(t, expected)), between);
      t in before.tasks &&
      var after := LoadedStep(env, before, done);
      |after.queue| > |before.queue| ==>
        before.store.draft == s.store.draft && after.store.active == s.store.draft && after.store.draft == None &&
        after.queue[|before.queue|].platform.document == DocumentOf(s.store, s.store.draft.value)
  {
    var begun := Advance(env, s, BeginPublish(t, expected));
    StepKeepsInv(env, s, BeginPublish(t, expected));
    TaskIsUntouched(env, begun, between, t);
    RunKeepsInv(env, begun, between);
  }

  // ---------------------------------------------------------------- the mutable backend

  /** The host as the backend sees it: its chain of lifecycle operations, run one at a time. */
  class LifecycleQueue {
    var queue: seq<Queued>
    var platform: Option<LoadedConfig>
    var activeRevisionId: Option<Id>
    ghost var rejected: bool

    constructor (platform: Option<LoadedConfig>, activeRevisionId: Option<Id>)
      ensures queue == [] && this.platform == platform && this.activeRevisionId == activeRevisionId && !rejected
    {
      queue := [];
      this.platform, this.activeRevisionId := platform, activeRevisionId;
      rejected := false;
    }

    method ApplyPlatformConfig(platform: LoadedConfig, id: Id)
      modifies this`queue
      ensures queue == old(queue) + [Queued(platform, id)]
    {
      queue := queue + [Queued(platform, id)];
    }

    /** Runs the oldest queued operation.  `deployable` is what the constraint checks say. */
    method RunNext(deployable: bool)
      requires queue != []
      modifies this
      ensures queue == old(queue)[1..] && rejected == !deployable
      ensures if deployable then platform == Some(old(queue)[0].platform) && activeRevisionId == Some(old(queue)[0].id)
              else platform == old(platform) && activeRevisionId == old(activeRevisionId)
    {
      var next := queue[0];
      queue := queue[1..];
      rejected := !deployable;
      if deployable {
        platform := Some(next.platform);
        activeRevisionId := Some(next.id);
      }
    }
  }

  datatype BackendError =
    | DraftMissing | DraftConflict | RevisionNotFound | ConfigInvalid | Store(error: Error) | NotActive

  /** Why the commit of an intact task comes to nothing, if it does: the draft or the active revision is
      another one by now, or the actor has no name. */
  function CommitError(env: Env, s: Store, kind: Kind, actor: string): Option<BackendError> {
    match kind
    case Publishing(d) =>
      if s.draft != Some(d) then Some(BackendError.Store(Conflict))
      else if !Named(env, actor) then Some(BackendError.Store(BadActor))
      else None
    case RollingBack(_) => if !Named(env, actor) then Some(BackendError.Store(BadActor)) else None
    case Reloading(active) => if s.active != Some(active) then Some(NotActive) else None
  }

  /** The answer: the revision that is in force from now on, or the error. */
  function CommitAnswer(env: Env, s: Store, kind: Kind, actor: string): Result<Id, BackendError> {
    match CommitError(env, s, kind, actor)
    case Some(e) => Err(e)
    case None => Ok(match kind case Publishing(d) => d case RollingBack(_) => |s.revisions| + 1 case Reloading(a) => a)
  }

  /** The transaction of an intact task fails for the reasons given above, and for no other. */
  lemma CommitErrors(env: Env, s: Store, task: Task, actor: string, note: Option<string>, now: int)
    requires ConfigStore.Inv(env, s) && Has(s, RevisionOf(task.kind))
    ensures !task.kind.Reloading? ==>
      var r := Attempt(env, s, Commit(task, actor, note, now));
      if task.kind.Publishing? && s.draft != Some(task.kind.draft) then r == Err(Conflict)
      else if !Named(env, actor) then r == Err(BadActor)
      else r.Ok?
  {
    match task.kind
    case Publishing(d) => PublishSucceedsIff(env, s, PublishDraft(actor, now, Some(d)));
    case RollingBack(target) => RollbackSucceedsIff(env, s, Rollback(target, actor, note, now));
    case Reloading(_) =>
  }

  /** The step in terms of what the commit answers and leaves of the store. */
  lemma LoadedStepIs(env: Env, s: State, step: Step, r: Result<Id, BackendError>, after: Store)
    requires step.Loaded? && Enabled(s, step) && step.credentials.Some?
    requires r == CommitAnswer(env, s.store, s.tasks[step.task].kind, step.actor)
    requires r.Ok? ==> after.active == Some(r.value)
    requires s.tasks[step.task].kind.Reloading? ==> after == s.store
    requires !s.tasks[step.task].kind.Reloading? ==>
      var op := Commit(s.tasks[step.task], step.actor, step.note, step.now);
      after == ConfigStore.Apply(env, s.store, op) && (r.Ok? <==> Attempt(env, s.store, op).Ok?)
    ensures LoadedStep(env, s, step) ==
      var platform := LoadedConfig(s.tasks[step.task].document, step.credentials.value);
      State(after, s.tasks - {step.task}, s.queue + if r.Ok? then [Queued(platform, r.value)] else [], s.platform,
            s.activeRevisionId, s.rejected)
  {
    assert s.queue + [] == s.queue;
  }

  class PlatformAdminBackend {
    const store: ConfigDocumentStore
    const host: LifecycleQueue
    var tasks: map<TaskId, Task>

    ghost function Snapshot(): State
      reads this, store, host
    {
      State(store.Snapshot(), tasks, host.queue, host.platform, host.activeRevisionId, host.rejected)
    }

    ghost predicate Valid()
      reads this, store, host
    {
      ValidEnv(store.env) && FlowInv(store.env, Snapshot())
    }

    constructor (store: ConfigDocumentStore, host: LifecycleQueue)
      requires store.Valid() && host.queue == [] && !host.rejected && host.activeRevisionId == store.Snapshot().active
      requires host.activeRevisionId.Some? ==>
        host.platform.Some? && LoadedFrom(store.Snapshot(), host.platform.value, host.activeRevisionId.value)
      ensures Valid() && this.store == store && this.host == host && tasks == map[]
    {
      this.store, this.host, tasks := store, host, map[];
    }

    /** The synchronous head of publishing: finds the draft and starts loading it. */
    method BeginPublish(task: TaskId, expectedId: Option<Id>) returns (r: Result<Document, BackendError>)
      requires Valid() && task !in tasks
      modifies this`tasks
      ensures Valid()
      ensures r.Ok? <==> Enabled(old(Snapshot()), Step.BeginPublish(task, expectedId))
      ensures r.Ok? ==>
        Snapshot() == Advance(store.env, old(Snapshot()), Step.BeginPublish(task, expectedId)) &&
        r.value == tasks[task].document
      ensures r.Err? ==> Snapshot() == old(Snapshot())
      ensures r == Err(DraftMissing) <==> store.SlotRevisionId(DraftSlot).None?
    {
      var draft := store.SlotRevisionId(DraftSlot);
      if draft.None? {
        return Err(DraftMissing);
      }
      if expectedId.Some? && expectedId != draft {
        return Err(DraftConflict);
      }
      var document := store.revisions[draft.value - 1].document;
      tasks := tasks[task := Task(Publishing(draft.value), document)];
      r := Ok(document);
    }

    method BeginRollback(task: TaskId, target: Id) returns (r: Result<Document, BackendError>)
      requires Valid() && task !in tasks
      modifies this`tasks
      ensures Valid()
      ensures r.Ok? <==> Enabled(old(Snapshot()), Step.BeginRollback(task, target))
      ensures r.Ok? ==>
        Snapshot() == Advance(store.env, old(Snapshot()), Step.BeginRollback(task, target)) &&
        r.value == tasks[task].document
      ensures r.Err? ==> Snapshot() == old(Snapshot()) && r == Err(RevisionNotFound)
    {
      if !(1 <= target <= |store.revisions|) {
        return Err(RevisionNotFound);
      }
      var document := store.revisions[target - 1].document;
      tasks := tasks[task := Task(RollingBack(target), document)];
      r := Ok(document);
    }

    /** Called when a credential that the active document names has changed. */
    method BeginReload(task: TaskId) returns (r: Option<Document>)
      requires Valid() && task !in tasks
      modifies this`tasks
      ensures Valid()
      ensures r.Some? <==> Enabled(old(Snapshot()), Step.BeginReload(task))
      ensures r.Some? ==>
        Snapshot() == Advance(store.env, old(Snapshot()), Step.BeginReload(task)) && r.value == tasks[task].document
      ensures r.None? ==> Snapshot() == old(Snapshot())
    {
      var active := store.SlotRevisionId(Active);
      if active.None? {
        return None;
      }
      var document := store.revisions[active.value - 1].document;
      tasks := tasks[task := Task(Reloading(active.value), document)];
      r := Some(document);
    }

    /** Commits what was loaded to the store; a reload commits nothing, but must still be about the
        active revision. */
    method CommitLoaded(task: Task, actor: string, note: Option<string>, now: int) returns (r: Result<Id, BackendError>)
      requires store.Valid() && Has(store.Snapshot(), RevisionOf(task.kind))
      modifies store
      ensures store.Valid()
      ensures r == CommitAnswer(store.env, old(store.Snapshot()), task.kind, actor)
      ensures r.Ok? ==> store.Snapshot().active == Some(r.value)
      ensures task.kind.Reloading? ==> store.Snapshot() == old(store.Snapshot())
      ensures !task.kind.Reloading? ==>
        var s, op := old(store.Snapshot()), Commit(task, actor, note, now);
        store.Snapshot() == ConfigStore.Apply(store.env, s, op) && (r.Ok? <==> Attempt(store.env, s, op).Ok?)
    {
      CommitErrors(store.env, store.Snapshot(), task, actor, note, now);
      match task.kind {
        case Publishing(draft) =>
          var published := store.PublishDraft(actor, now, Some(draft));
          r := if published.Ok? then Ok(published.value) else Err(BackendError.Store(published.error));
        case RollingBack(target) =>
          var restored := store.Rollback(target, actor, note, now);
          r := if restored.Ok? then Ok(restored.value) else Err(BackendError.Store(restored.error));
        case Reloading(active) =>
          r := if store.SlotRevisionId(Active) == Some(active) then Ok(active) else Err(NotActive);
      }
    }

    /** Queues what the store has committed. */
    method CommitAndQueue(task: Task, credentials: string, actor: string, note: Option<string>, now: int)
      returns (r: Result<Id, BackendError>)
      requires store.Valid() && Has(store.Snapshot(), RevisionOf(task.kind))
      modifies store, host
      ensures r == CommitAnswer(store.env, old(store.Snapshot()), task.kind, actor)
      ensures r.Ok? ==> store.Snapshot().active == Some(r.value)
      ensures task.kind.Reloading? ==> store.Snapshot() == old(store.Snapshot())
      ensures !task.kind.Reloading? ==>
        var s, op := old(store.Snapshot()), Commit(task, actor, note, now);
        store.Snapshot() == ConfigStore.Apply(store.env, s, op) && (r.Ok? <==> Attempt(store.env, s, op).Ok?)
      ensures host.queue ==
        old(host.queue) + if r.Ok? then [Queued(LoadedConfig(task.document, credentials), r.value)] else []
      ensures host.platform == old(host.platform) && host.activeRevisionId == old(host.activeRevisionId)
      ensures host.rejected == old(host.rejected)
    {
      r := CommitLoaded(task, actor, note, now);
      if r.Ok? {
        host.ApplyPlatformConfig(LoadedConfig(task.document, credentials), r.value);
      }
    }

    /** The stretch that runs once the document is loaded, or has failed to load: the step `Loaded`. */
    method AfterLoading(task: TaskId, credentials: Option<string>, actor: string, note: Option<string>, now: int)
      returns (r: Result<Id, BackendError>)
      requires Valid() && task in tasks
      modifies this, store, host
      ensures Snapshot() == LoadedStep(store.env, old(Snapshot()), Loaded(task, credentials, actor, note, now))
      ensures Valid()
      ensures r ==
        if credentials.None? then Err(ConfigInvalid)
        else CommitAnswer(store.env, old(store.Snapshot()), old(tasks[task].kind), actor)
      ensures r.Ok? ==> store.Snapshot().active == Some(r.value) && |host.queue| == |old(host.queue)| + 1
      ensures r.Err? ==> store.Snapshot() == old(store.Snapshot()) && host.queue == old(host.queue)
    {
      LoadedKeepsInv(store.env, Snapshot(), Loaded(task, credentials, actor, note, now));
      ghost var before := Snapshot();
      var loaded := tasks[task];
      tasks := tasks - {task};
      if credentials.None? {
        return Err(ConfigInvalid);
      }
      r := CommitAndQueue(loaded, credentials.value, actor, note, now);
      LoadedStepIs(store.env, before, Loaded(task, credentials, actor, note, now), r, store.Snapshot());
    }
  }
}
