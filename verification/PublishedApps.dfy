/** From the published document to the running apps: the publish flow and the host it drives, as one
    system.  What the flow's queue hands over is what the host applies. */
module PublishedApps {
  import opened Wrappers
  import BindingRouter
  import C = ConfigStore
  import F = PublishFlow
  import H = HotReload
  import HotReloadRouting
  import RouteValidation
  import RuntimeSignature

  /** What the two halves are given, and the platform that a loaded configuration describes. */
  datatype Env = Env(store: C.Env, host: H.Env, build: F.LoadedConfig -> H.Platform)

  /** Loading refuses a configuration that does not pass the route check. */
  ghost predicate ValidEnv(env: Env) {
    C.ValidEnv(env.store) && forall c :: H.Loadable(env.host, env.build(c))
  }

  datatype World = World(flow: F.State, host: H.Host)

  datatype Step =
    | Flow(step: F.Step)
    | ApplyNext(deployable: bool, brokerStarts: bool, outcomes: H.AppId -> H.Outcome)
    | Tend(op: H.Op)

  /** The lifecycle operation that applies the oldest queued configuration. */
  function NextOp(env: Env, w: World, step: Step): H.Op
    requires step.ApplyNext? && w.flow.queue != []
  {
    var q := w.flow.queue[0];
    H.ApplyConfig(env.build(q.platform), Some(q.id), step.deployable, step.brokerStarts, step.outcomes)
  }

  ghost predicate Enabled(env: Env, w: World, step: Step) {
    match step
    case Flow(f) => !f.HostApply? && F.Enabled(w.flow, f)
    case ApplyNext(_, _, _) => w.flow.queue != []
    case Tend(op) => (op.Maintenance? || op.LoseLease? || op.Stop?) && H.Enabled(env.host, w.host, op)
  }

  ghost function Apply(env: Env, w: World, step: Step): World
    requires ValidEnv(env) && Enabled(env, w, step)
  {
    match step
    case Flow(f) => w.(flow := F.Advance(env.store, w.flow, f))
    case ApplyNext(deployable, _, _) =>
      World(F.Advance(env.store, w.flow, F.HostApply(w.host.started && deployable)),
            H.ApplyStep(env.host, w.host, NextOp(env, w, step)))
    case Tend(op) => w.(host := H.Apply(env.host, w.host, op))
  }

  ghost function Run(env: Env, w: World, steps: seq<Step>): World
    requires ValidEnv(env)
    decreases |steps|
  {
    if steps == [] then w else Run(env, if Enabled(env, w, steps[0]) then Apply(env, w, steps[0]) else w, steps[1..])
  }

  /** The host was started with the store's active revision, loaded from its document. */
  ghost predicate Init(env: Env, w: World, start: H.Op) {
    F.Init(env.store, w.flow) && start.Start? && start.revision == w.flow.activeRevisionId &&
    H.Enabled(env.host, H.EMPTY, start) && w.host == H.Apply(env.host, H.EMPTY, start) &&
    (start.revision.Some? ==> w.flow.platform.Some? && start.platform == env.build(w.flow.platform.value))
  }

  /** The host runs what the flow believes it runs. */
  ghost predicate Coupled(env: Env, w: World) {
    w.host.activeRevisionId == w.flow.activeRevisionId &&
    (w.flow.activeRevisionId.Some? ==> w.flow.platform.Some? && w.host.platform == env.build(w.flow.platform.value))
  }

  ghost predicate Inv(env: Env, w: World) {
    F.FlowInv(env.store, w.flow) && H.Inv(env.host, w.host) && Coupled(env, w)
  }

  lemma InitInv(env: Env, w: World, start: H.Op)
    requires ValidEnv(env) && Init(env, w, start)
    ensures Inv(env, w)
  {
    H.StepKeepsInv(env.host, H.EMPTY, start);
  }

  lemma FlowKeepsInv(env: Env, w: World, f: F.Step)
    requires ValidEnv(env) && Inv(env, w) && Enabled(env, w, Flow(f))
    ensures Inv(env, Apply(env, w, Flow(f)))
  {
    F.StepKeepsInv(env.store, w.flow, f);
  }

  lemma ApplyNextKeepsInv(env: Env, w: World, step: Step)
    requires ValidEnv(env) && Inv(env, w) && step.ApplyNext? && Enabled(env, w, step)
    ensures Inv(env, Apply(env, w, step))
  {
    F.StepKeepsInv(env.store, w.flow, F.HostApply(w.host.started && step.deployable));
    H.StepKeepsInv(env.host, w.host, NextOp(env, w, step));
  }

  lemma TendKeepsInv(env: Env, w: World, op: H.Op)
    requires ValidEnv(env) && Inv(env, w) && Enabled(env, w, Tend(op))
    ensures Inv(env, Apply(env, w, Tend(op)))
  {
    H.StepKeepsInv(env.host, w.host, op);
  }

  lemma {:induction false} RunKeepsInv(env: Env, w: World, steps: seq<Step>)
    requires ValidEnv(env) && Inv(env, w)
    ensures Inv(env, Run(env, w, steps))
    decreases |steps|
  {
    if steps != [] {
      if Enabled(env, w, steps[0]) {
        match steps[0] {
          case Flow(f) => FlowKeepsInv(env, w, f);
          case ApplyNext(_, _, _) => ApplyNextKeepsInv(env, w, steps[0]);
          case Tend(op) => TendKeepsInv(env, w, op);
        }
      }
      RunKeepsInv(env, if Enabled(env, w, steps[0]) then Apply(env, w, steps[0]) else w, steps[1..]);
    }
  }

  /** Nothing is left to apply, and the last configuration was not refused outright. */
  predicate Drained(w: World) {
    w.flow.queue == [] && !w.flow.rejected && w.host.started && w.flow.store.active.Some?
  }

  /** The document of the store's active revision. */
  function ActiveDocument(w: World): Option<C.Document> {
    var active := w.flow.store.active;
    if active.Some? && C.Has(w.flow.store, active.value) then Some(F.DocumentOf(w.flow.store, active.value)) else None
  }

  /** Once the queue has drained, whatever was published, rolled back, reloaded, lost and restarted on
      the way: the host's platform was built from the document of the store's active revision, and every
      running app carries the signature that this platform prescribes for it. */
  lemma RunningAppsArePublished(env: Env, first: World, start: H.Op, steps: seq<Step>, id: H.AppId)
    requires ValidEnv(env) && Init(env, first, start) && Drained(Run(env, first, steps)) &&
      id in Run(env, first, steps).host.apps
    ensures var w := Run(env, first, steps);
      w.host.activeRevisionId == w.flow.store.active && w.flow.platform.Some? &&
      ActiveDocument(w) == Some(w.flow.platform.value.document) &&
      var p := env.build(w.flow.platform.value);
      id in H.Desired(env.host, p.apps) &&
      env.host.signature(w.host.apps[id].app, w.host.apps[id].bindings) ==
      env.host.signature(H.Desired(env.host, p.apps)[id], H.Lookup(H.Group(p.bindings), id))
  {
    InitInv(env, first, start);
    RunKeepsInv(env, first, steps);
    var w := Run(env, first, steps);
    assert id in w.host.desired;
  }

  /** The two halves with the host's real signature and route check. */
  ghost function RoutedEnv(
      store: C.Env, loc: BindingRouter.Locale, inShard: H.AppId -> bool, build: F.LoadedConfig -> H.Platform): Env {
    Env(store, HotReloadRouting.RoutingEnv(loc, inShard), build)
  }

  /** And it routes every message as the published document prescribes. */
  lemma RunningRoutersArePublished(
      store: C.Env, loc: BindingRouter.Locale, inShard: H.AppId -> bool, build: F.LoadedConfig -> H.Platform, env: Env,
      first: World, start: H.Op, steps: seq<Step>, id: H.AppId, m: BindingRouter.Message)
    requires env == RoutedEnv(store, loc, inShard, build) && ValidEnv(env)
    requires Init(env, first, start) && Drained(Run(env, first, steps)) && id in Run(env, first, steps).host.apps
    ensures var w := Run(env, first, steps);
      ActiveDocument(w).Some? && w.flow.platform.Some? && w.flow.platform.value.document == ActiveDocument(w).value &&
      var published := H.Lookup(H.Group(env.build(w.flow.platform.value).bindings), id);
      RouteValidation.RoutesAccepted(w.host.apps[id].bindings) && RouteValidation.RoutesAccepted(published) &&
      RuntimeSignature.SameAnswer(BindingRouter.Resolve(loc, w.host.apps[id].bindings, m),
                                  BindingRouter.Resolve(loc, published, m))
  {
    InitInv(env, first, start);
    RunKeepsInv(env, first, steps);
    var w := Run(env, first, steps);
    RunningAppsArePublished(env, first, start, steps, id);
    HotReloadRouting.RouterIsCurrent(loc, inShard, w.host, id, m);
  }
}
