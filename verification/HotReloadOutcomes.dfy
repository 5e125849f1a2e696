/** What the lifecycle operations of the host do to one app, said of the configuration that was given:
    its list of apps, its list of bindings, and the shard. */
module HotReloadOutcomes {
  import opened Wrappers
  import opened BindingRouter
  import opened RouteValidation
  import opened RuntimeSignature
  import opened HotReload
  import opened HotReloadRouting

  /** The last of the configured apps with this id is the one that counts. */
  function LastApp(apps: seq<App>, id: AppId): (r: Option<App>)
    ensures r.Some? <==> exists a :: a in apps && a.id == id
    ensures r.Some? ==> r.value in apps && r.value.id == id
  {
    if apps == [] then None
    else
      assert apps == apps[..|apps| - 1] + [apps[|apps| - 1]];
      if apps[|apps| - 1].id == id then Some(apps[|apps| - 1]) else LastApp(apps[..|apps| - 1], id)
  }

  lemma {:induction false} LastAppIsLast(apps: seq<App>, id: AppId, i: nat)
    requires i < |apps| && apps[i].id == id && forall j :: i < j < |apps| ==> apps[j].id != id
    ensures LastApp(apps, id) == Some(apps[i])
  {
    var front := apps[..|apps| - 1];
    if i < |front| {
      assert forall j :: i < j < |front| ==> front[j] == apps[j];
      LastAppIsLast(front, id, i);
    }
  }

  /** The app is configured and belongs to this shard. */
  predicate Wanted(env: Env, p: Platform, id: AppId) {
    env.inShard(id) && exists a :: a in p.apps && a.id == id
  }

  /** The host desires exactly the configured apps of its shard, each as it was configured last. */
  lemma {:induction false} DesiredIsLast(env: Env, apps: seq<App>, id: AppId)
    ensures id in Desired(env, apps) <==> env.inShard(id) && LastApp(apps, id).Some?
    ensures id in Desired(env, apps) ==> Some(Desired(env, apps)[id]) == LastApp(apps, id)
  {
    if apps != [] {
      DesiredIsLast(env, apps[..|apps| - 1], id);
    }
  }

  lemma DesiredExactly(env: Env, p: Platform, id: AppId)
    ensures id in Desired(env, p.apps) <==> Wanted(env, p, id)
    ensures Wanted(env, p, id) ==> Desired(env, p.apps)[id] == ConfigOf(env, p, id)
  {
    DesiredIsLast(env, p.apps, id);
  }

  /** The configuration of a wanted app. */
  function ConfigOf(env: Env, p: Platform, id: AppId): App
    requires Wanted(env, p, id)
  {
    LastApp(p.apps, id).value
  }

  /** The build that the configuration prescribes. */
  ghost function BuildOf(env: Env, p: Platform, id: AppId): Runtime
    requires Wanted(env, p, id)
  {
    Runtime(ConfigOf(env, p, id), AssignedTo(id, p.bindings))
  }

  /** The app runs, and would be built alike now. */
  ghost predicate Unchanged(env: Env, h: Host, p: Platform, id: AppId) {
    id in h.apps && Wanted(env, p, id) &&
    env.signature(h.apps[id].app, h.apps[id].bindings) ==
    env.signature(ConfigOf(env, p, id), AssignedTo(id, p.bindings))
  }

  /** The app was wanted and not running, and what is wanted is alike now. */
  ghost predicate StillWanted(env: Env, h: Host, p: Platform, id: AppId) {
    id in h.desired && Wanted(env, p, id) &&
    env.signature(h.desired[id], BindingsFor(h, id)) == env.signature(ConfigOf(env, p, id), AssignedTo(id, p.bindings))
  }

  /** What the assignment of an app that does not come to run says. */
  function Idling(outcome: Outcome, before: Assignment): Assignment {
    match outcome
    case NoLease => Standby
    case StartFails => Failed
    case Stopping => before
    case Starts => Running
  }

  /** A start that goes through: the wanted apps are assigned, and run exactly when their start does. */
  lemma StartOutcome(env: Env, ops: seq<Op>, h: Host, op: Op, id: AppId)
    requires h == Run(env, EMPTY, ops) && op.Start? && HotReload.Enabled(env, h, op)
    ensures var r := Apply(env, h, op);
      r.started && r.activeRevisionId == op.revision && r.platform == op.platform &&
      (id in r.assignments <==> Wanted(env, op.platform, id)) &&
      (id in r.apps <==> Wanted(env, op.platform, id) && op.outcomes(id).Starts?) &&
      (id in r.apps ==> r.apps[id] == BuildOf(env, op.platform, id) && id in r.leases && r.leases[id]) &&
      (id in r.assignments ==> r.assignments[id] == Idling(op.outcomes(id), Pending))
  {
    DesiredExactly(env, op.platform, id);
    GroupIsAssigned(op.platform.bindings, id);
    StartAt(env, h, op, id);
  }

  lemma ChangedMeans(env: Env, h: Host, p: Platform, id: AppId)
    requires Inv(env, h) && (id in h.desired || Wanted(env, p, id))
    ensures Changed(env, h, p, id) <==> !StillWanted(env, h, p, id)
    ensures id in h.apps ==> (Changed(env, h, p, id) <==> !Unchanged(env, h, p, id))
  {
    DesiredExactly(env, p, id);
    GroupIsAssigned(p.bindings, id);
  }

  /** An app runs on when it would be built alike, and otherwise runs its new build exactly when its
      start goes through; if it does not come to run, its assignment says why. */
  ghost predicate ApplyGives(env: Env, h: Host, op: Op, id: AppId)
    requires op.ApplyConfig?
  {
    var r, p := ApplyStep(env, h, op), op.platform;
    (id in r.assignments <==> Wanted(env, p, id)) &&
    (id in r.apps <==>
      Unchanged(env, h, p, id) || (Wanted(env, p, id) && op.brokerStarts && op.outcomes(id).Starts?)) &&
    (id in r.apps ==>
      id in r.leases &&
      (if Unchanged(env, h, p, id) then r.apps[id] == h.apps[id] && id in h.leases && r.leases[id] == h.leases[id]
       else r.apps[id] == BuildOf(env, p, id) && r.leases[id])) &&
    (id in r.assignments ==>
      var before := if StillWanted(env, h, p, id) && id in h.assignments then h.assignments[id] else Pending;
      r.assignments[id] ==
        if Unchanged(env, h, p, id) then Running
        else if op.brokerStarts then Idling(op.outcomes(id), before)
        else before)
  }

  /** An accepted configuration does so for every app, after any run of the host. */
  lemma ApplyOutcome(env: Env, ops: seq<Op>, h: Host, op: Op, id: AppId)
    requires h == Run(env, EMPTY, ops) && op.ApplyConfig? && HotReload.Enabled(env, h, op)
    requires h.started && op.deployable
    ensures Apply(env, h, op) == ApplyStep(env, h, op) && ApplyGives(env, h, op, id)
  {
    RunKeepsInv(env, EMPTY, ops);
    ApplyOutcomeAt(env, h, op, id);
  }

  lemma SwitchOutcome(env: Env, h: Host, p: Platform, revision: Option<nat>, id: AppId)
    requires Inv(env, h)
    ensures var s := Switched(env, h, p, revision);
      (id in s.apps <==> Unchanged(env, h, p, id)) &&
      (id in s.apps ==> id in s.leases && id in h.leases && s.apps[id] == h.apps[id] && s.leases[id] == h.leases[id]) &&
      (id in s.assignments <==> Wanted(env, p, id)) && (id in s.desired <==> Wanted(env, p, id)) &&
      (Wanted(env, p, id) ==>
        s.desired[id] == ConfigOf(env, p, id) && BindingsFor(s, id) == AssignedTo(id, p.bindings) &&
        s.assignments[id] == if StillWanted(env, h, p, id) && id in h.assignments then h.assignments[id] else Pending)
  {
    DesiredExactly(env, p, id);
    GroupIsAssigned(p.bindings, id);
    if id in h.desired || Wanted(env, p, id) {
      ChangedMeans(env, h, p, id);
    }
    SwitchedAt(env, h, p, revision, id);
  }

  lemma ApplyOutcomeAt(env: Env, h: Host, op: Op, id: AppId)
    requires Inv(env, h) && op.ApplyConfig? && h.started && op.deployable
    ensures ApplyGives(env, h, op, id)
  {
    SwitchOutcome(env, h, op.platform, op.revision, id);
    SwitchedKeepsKeys(env, h, op.platform, op.revision);
    if op.brokerStarts {
      ReconcileAt(Switched(env, h, op.platform, op.revision), op.outcomes, id);
    }
    if Unchanged(env, h, op.platform, id) {
      assert StillWanted(env, h, op.platform, id) && h.assignments[id] == Running;
    }
  }

  /** What the caller is told: a host that does not run, a refused deployment, a broker that does not
      come up, or a newly wanted or changed app whose start failed, in this order. */
  lemma ApplyTells(env: Env, ops: seq<Op>, h: Host, op: Op)
    requires h == Run(env, EMPTY, ops) && op.ApplyConfig? && HotReload.Enabled(env, h, op)
    ensures ApplyResult(env, h, op) ==
      if !h.started then Err(NotRunning)
      else if !op.deployable then Err(Rejected)
      else if !op.brokerStarts then Err(BrokerFailed)
      else if exists id ::
        Wanted(env, op.platform, id) && !StillWanted(env, h, op.platform, id) && op.outcomes(id).StartFails?
      then Err(StartFailed)
      else Ok(true)
  {
    RunKeepsInv(env, EMPTY, ops);
    if h.started && op.deployable && op.brokerStarts {
      var r := ApplyStep(env, h, op);
      forall id: AppId
        ensures (id in r.assignments && Changed(env, h, op.platform, id) && r.assignments[id].Failed?) <==>
          (Wanted(env, op.platform, id) && !StillWanted(env, h, op.platform, id) && op.outcomes(id).StartFails?)
      {
        FailedChange(env, h, op, id);
      }
    }
  }

  lemma FailedChange(env: Env, h: Host, op: Op, id: AppId)
    requires Inv(env, h) && op.ApplyConfig? && h.started && op.deployable && op.brokerStarts
    ensures var r := ApplyStep(env, h, op);
      (id in r.assignments && Changed(env, h, op.platform, id) && r.assignments[id].Failed?) <==>
      (Wanted(env, op.platform, id) && !StillWanted(env, h, op.platform, id) && op.outcomes(id).StartFails?)
  {
    ApplyOutcomeAt(env, h, op, id);
    if Wanted(env, op.platform, id) {
      ChangedMeans(env, h, op.platform, id);
    }
  }

  /** Maintenance of a running host: an app runs on when its lease holds; any other desired app runs
      exactly when its start goes through, and one that lost its lease is pending before that. */
  ghost predicate MaintenanceGives(h: Host, r: Host, outcomes: AppId -> Outcome, id: AppId) {
    var holds := id in h.apps && id in h.leases && h.leases[id];
    (id in r.apps <==> holds || (id in h.desired && outcomes(id).Starts?)) &&
    (id in r.apps ==>
      id in r.leases && r.leases[id] &&
      r.apps[id] == if holds then h.apps[id] else Runtime(h.desired[id], BindingsFor(h, id))) &&
    (id in r.assignments <==> id in h.desired) &&
    (id in h.desired && id in h.assignments ==>
      r.assignments[id] ==
        if holds then Running else Idling(outcomes(id), if id in h.apps then Pending else h.assignments[id]))
  }

  lemma MaintenanceOutcome(env: Env, ops: seq<Op>, h: Host, outcomes: AppId -> Outcome, id: AppId)
    requires h == Run(env, EMPTY, ops)
    ensures var r := Apply(env, h, Maintenance(outcomes));
      if h.started then
        r.desired == h.desired && r.bindingsByApp == h.bindingsByApp && r.platform == h.platform &&
        r.activeRevisionId == h.activeRevisionId && r.started && MaintenanceGives(h, r, outcomes, id)
      else r == h
  {
    RunKeepsInv(env, EMPTY, ops);
    MaintenanceAt(env, h, outcomes, id);
  }

  lemma MaintenanceAt(env: Env, h: Host, outcomes: AppId -> Outcome, id: AppId)
    requires Inv(env, h)
    ensures MaintenanceGives(h, Reconcile(DropLost(h), outcomes), outcomes, id)
  {
    DropLostKeepsInv(env, h);
    DropLostAt(env, h, id);
    ReconcileAt(DropLost(h), outcomes, id);
  }

  lemma DropLostAt(env: Env, h: Host, id: AppId)
    requires Inv(env, h)
    ensures var r, holds := DropLost(h), id in h.apps && id in h.leases && h.leases[id];
      (id in r.apps <==> holds) && (id in r.leases <==> holds) &&
      (holds ==> r.apps[id] == h.apps[id] && r.leases[id]) &&
      (id in r.assignments <==> id in h.assignments) &&
      (id in h.assignments ==> r.assignments[id] == if id in h.apps && !holds then Pending else h.assignments[id])
  {
    assert id in h.apps.Keys <==> id in h.leases.Keys;
  }

  /** A stop, and a start whose servers do not come up, leave nothing behind; a refused deployment
      leaves everything but the configuration alone. */
  lemma NothingIsLeft(env: Env, ops: seq<Op>, h: Host, op: Op)
    requires h == Run(env, EMPTY, ops) && HotReload.Enabled(env, h, op)
    requires op.Stop? || (op.FailedStart? && !op.failure.Refused?)
    ensures var r := Apply(env, h, op);
      !r.started && r.apps == map[] && r.leases == map[] && r.desired == map[] && r.assignments == map[] &&
      (op.Stop? || op.failure.ServersFail? ==> r.bindingsByApp == map[]) &&
      (op.FailedStart? && op.failure.Undeployable? ==> r.bindingsByApp == h.bindingsByApp) &&
      (op.FailedStart? ==> r.platform == op.platform && r.activeRevisionId == op.revision) &&
      (op.Stop? ==> r.platform == h.platform && r.activeRevisionId == h.activeRevisionId)
  {
    RunKeepsInv(env, EMPTY, ops);
    if op.FailedStart? {
      assert h.apps.Keys == {} && h.leases.Keys == {} && h.assignments.Keys == {};
    }
  }

  /** A lease that notices its loss: from then on, until the app is dropped or started anew, it counts as
      lost; nothing else changes, and the app runs on until the next maintenance. */
  lemma LeaseLossOutcome(env: Env, ops: seq<Op>, h: Host, id: AppId)
    requires h == Run(env, EMPTY, ops) && id in h.apps
    ensures HotReload.Enabled(env, h, LoseLease(id))
    ensures var r := Apply(env, h, LoseLease(id));
      id in r.leases && !r.leases[id] && r == h.(leases := r.leases) &&
      forall other :: other != id ==>
        (other in r.leases <==> other in h.leases) && (other in h.leases ==> r.leases[other] == h.leases[other])
    ensures forall outcomes: AppId -> Outcome ::
      h.started && !outcomes(id).Starts? ==> id !in Apply(env, Apply(env, h, LoseLease(id)), Maintenance(outcomes)).apps
  {
    RunKeepsInv(env, EMPTY, ops);
    assert id in h.leases.Keys;
    StepKeepsInv(env, h, LoseLease(id));
    var r := Apply(env, h, LoseLease(id));
    forall outcomes: AppId -> Outcome | h.started && !outcomes(id).Starts?
      ensures id !in Apply(env, r, Maintenance(outcomes)).apps
    {
      DropLostKeepsInv(env, r);
      DropLostAt(env, r, id);
      ReconcileAt(DropLost(r), outcomes, id);
    }
  }
}
