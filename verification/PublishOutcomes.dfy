/** What becomes of a publication, a rollback or a reload once its document has been loaded. */
module PublishOutcomes {
  import opened Wrappers
  import opened ConfigStore
  import opened PublishFlow

  /** A publication of draft `d` commits exactly when loading went well, the draft slot still holds `d`
      and the actor has a name.  Then `d` is active, the draft is gone, and the one more configuration
      in the queue is `d` with its document; otherwise store and queue are as they were. */
  lemma PublicationOutcome(env: Env, first: State, steps: seq<Step>, s: State, step: Step, d: Id)
    requires ValidEnv(env) && Init(env, first) && s == PublishFlow.Run(env, first, steps)
    requires step.Loaded? && PublishFlow.Enabled(s, step) && s.tasks[step.task].kind == Publishing(d)
    ensures var r := Advance(env, s, step);
      1 <= d <= |s.store.revisions| &&
      if step.credentials.Some? && s.store.draft == Some(d) && Named(env, step.actor) then
        r.store.active == Some(d) && r.store.draft == None && |r.store.revisions| == |s.store.revisions| &&
        r.store.revisions[d - 1].published == Some(Stamp(step.now, env.trim(step.actor))) &&
        r.queue == s.queue + [Queued(LoadedConfig(s.store.revisions[d - 1].document, step.credentials.value), d)]
      else r.store == s.store && r.queue == s.queue
  {
    PublishFlow.RunKeepsInv(env, first, steps);
    PublicationGives(env, s, step, d);
  }

  /** A publication that began with the draft commits exactly when the draft is still the same once its
      document has been loaded, whatever happened in between; a save in between makes it fail. */
  lemma UntouchedDraftsArePublished(
      env: Env, first: State, steps: seq<Step>, s: State, t: TaskId, expected: Option<Id>, between: seq<Step>,
      done: Step)
    requires ValidEnv(env) && Init(env, first) && s == PublishFlow.Run(env, first, steps)
    requires PublishFlow.Enabled(s, BeginPublish(t, expected))
    requires forall i :: 0 <= i < |between| && between[i].Loaded? ==> between[i].task != t
    requires done.Loaded? && done.task == t
    ensures var before := PublishFlow.Run(env, Advance(env, s, BeginPublish(t, expected)), between);
      PublishFlow.Enabled(before, done) &&
      var after := Advance(env, before, done);
      (after.queue != before.queue <==>
        done.credentials.Some? && before.store.draft == s.store.draft && Named(env, done.actor)) &&
      (after.queue != before.queue ==> after.store.active == s.store.draft)
  {
    PublishFlow.RunKeepsInv(env, first, steps);
    var begun := Advance(env, s, BeginPublish(t, expected));
    PublishFlow.StepKeepsInv(env, s, BeginPublish(t, expected));
    TaskIsUntouched(env, begun, between, t);
    PublishFlow.RunKeepsInv(env, begun, between);
    PublicationGives(env, PublishFlow.Run(env, begun, between), done, s.store.draft.value);
  }

  lemma PublicationGives(env: Env, s: State, step: Step, d: Id)
    requires ConfigStore.Inv(env, s.store) && TasksInv(s.store, s.tasks)
    requires step.Loaded? && PublishFlow.Enabled(s, step) && s.tasks[step.task].kind == Publishing(d)
    ensures var r := Advance(env, s, step);
      1 <= d <= |s.store.revisions| &&
      if step.credentials.Some? && s.store.draft == Some(d) && Named(env, step.actor) then
        r.store.active == Some(d) && r.store.draft == None && |r.store.revisions| == |s.store.revisions| &&
        r.store.revisions[d - 1].published == Some(Stamp(step.now, env.trim(step.actor))) &&
        r.queue == s.queue + [Queued(LoadedConfig(s.store.revisions[d - 1].document, step.credentials.value), d)]
      else r.store == s.store && r.queue == s.queue
  {
    if step.credentials.Some? {
      PublishSucceedsIff(env, s.store, PublishDraft(step.actor, step.now, Some(d)));
    }
  }

  /** A rollback commits exactly when loading went well and the actor has a name: its target cannot go
      away.  Then a new revision with the target's document is active and queued. */
  lemma RollbackOutcome(env: Env, first: State, steps: seq<Step>, s: State, step: Step, target: Id)
    requires ValidEnv(env) && Init(env, first) && s == PublishFlow.Run(env, first, steps)
    requires step.Loaded? && PublishFlow.Enabled(s, step) && s.tasks[step.task].kind == RollingBack(target)
    ensures var r, n := Advance(env, s, step), |s.store.revisions|;
      1 <= target <= n &&
      if step.credentials.Some? && Named(env, step.actor) then
        r.store.active == Some(n + 1) && r.store.draft == None && |r.store.revisions| == n + 1 &&
        r.store.revisions[n].document == s.store.revisions[target - 1].document &&
        r.store.revisions[n].source == Some(target) &&
        r.queue ==
          s.queue + [Queued(LoadedConfig(s.store.revisions[target - 1].document, step.credentials.value), n + 1)]
      else r.store == s.store && r.queue == s.queue
  {
    PublishFlow.RunKeepsInv(env, first, steps);
    RollbackGives(env, s, step, target);
  }

  lemma RollbackGives(env: Env, s: State, step: Step, target: Id)
    requires ConfigStore.Inv(env, s.store) && TasksInv(s.store, s.tasks)
    requires step.Loaded? && PublishFlow.Enabled(s, step) && s.tasks[step.task].kind == RollingBack(target)
    ensures var r, n := Advance(env, s, step), |s.store.revisions|;
      1 <= target <= n &&
      if step.credentials.Some? && Named(env, step.actor) then
        r.store.active == Some(n + 1) && r.store.draft == None && |r.store.revisions| == n + 1 &&
        r.store.revisions[n].document == s.store.revisions[target - 1].document &&
        r.store.revisions[n].source == Some(target) &&
        r.queue ==
          s.queue + [Queued(LoadedConfig(s.store.revisions[target - 1].document, step.credentials.value), n + 1)]
      else r.store == s.store && r.queue == s.queue
  {
    assert Has(s.store, RevisionOf(s.tasks[step.task].kind));
    if step.credentials.Some? {
      RollbackSucceedsIff(env, s.store, Rollback(target, step.actor, step.note, step.now));
    }
  }

  /** A reload queues its revision exactly when loading went well and the revision is still active; the
      store stays as it is. */
  lemma ReloadOutcome(env: Env, first: State, steps: seq<Step>, s: State, step: Step, active: Id)
    requires ValidEnv(env) && Init(env, first) && s == PublishFlow.Run(env, first, steps)
    requires step.Loaded? && PublishFlow.Enabled(s, step) && s.tasks[step.task].kind == Reloading(active)
    ensures var r := Advance(env, s, step);
      1 <= active <= |s.store.revisions| && r.store == s.store &&
      r.queue == if step.credentials.Some? && s.store.active == Some(active)
                 then s.queue + [Queued(LoadedConfig(s.store.revisions[active - 1].document,
                                                     step.credentials.value), active)]
                 else s.queue
  {
    PublishFlow.RunKeepsInv(env, first, steps);
  }

  /** A task begins when its revision is there: the draft, which must be the expected one if any, the
      target, or the active revision.  It remembers revision and document, and nothing else changes. */
  lemma TasksBeginIff(env: Env, first: State, steps: seq<Step>, s: State, step: Step, t: TaskId)
    requires ValidEnv(env) && Init(env, first) && s == PublishFlow.Run(env, first, steps) && t !in s.tasks
    requires step.BeginPublish? || step.BeginRollback? || step.BeginReload?
    requires t == step.task
    ensures PublishFlow.Enabled(s, step) <==>
      match step
      case BeginPublish(_, expected) => s.store.draft.Some? && (expected == None || expected == s.store.draft)
      case BeginRollback(_, target) => 1 <= target <= |s.store.revisions|
      case _ => s.store.active.Some?
    ensures PublishFlow.Enabled(s, step) ==>
      var r := Advance(env, s, step);
      var kind := match step
        case BeginPublish(_, _) => Publishing(s.store.draft.value)
        case BeginRollback(_, target) => RollingBack(target)
        case _ => Reloading(s.store.active.value);
      var id := match step
        case BeginPublish(_, _) => s.store.draft.value
        case BeginRollback(_, target) => target
        case _ => s.store.active.value;
      1 <= id <= |s.store.revisions| &&
      r == s.(tasks := s.tasks[t := Task(kind, s.store.revisions[id - 1].document)])
  {
    PublishFlow.RunKeepsInv(env, first, steps);
  }

  /** The host takes the oldest queued configuration; it runs that one from then on exactly when it
      accepts it, and remembers whether it did. */
  lemma HostTakesTheOldest(env: Env, s: State, accepted: bool)
    requires PublishFlow.Enabled(s, HostApply(accepted))
    ensures var r := Advance(env, s, HostApply(accepted));
      s.queue != [] && s.queue == [s.queue[0]] + r.queue && r.store == s.store && r.tasks == s.tasks &&
      (r.rejected <==> !accepted) &&
      r.platform == (if accepted then Some(s.queue[0].platform) else s.platform) &&
      r.activeRevisionId == if accepted then Some(s.queue[0].id) else s.activeRevisionId
  {
  }

  /** The step of a loaded task ends the task, and the host is not touched before its turn. */
  lemma LoadedEndsTheTask(env: Env, s: State, step: Step)
    requires step.Loaded? && PublishFlow.Enabled(s, step)
    ensures var r := Advance(env, s, step);
      r.tasks == s.tasks - {step.task} && r.platform == s.platform && r.activeRevisionId == s.activeRevisionId &&
      r.rejected == s.rejected
  {
  }
}
