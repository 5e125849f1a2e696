/** The host's apps: hot reload, maintenance and reconciliation.

    Lifecycle operations run one after the other on a promise chain, so each is one step here; what a
    step meets outside (which leases are free, which runtimes fail to start) is its parameter.  A
    lease may be lost at any time between steps.  */
module HotReload {
  import opened Wrappers
  import opened BindingRouter
  import opened RuntimeSignature

  type AppId = string

  datatype App = App(id: AppId, definition: string)

  datatype Platform = Platform(apps: seq<App>, bindings: seq<Binding>)

  /** What a running app was built from. */
  datatype Runtime = Runtime(app: App, bindings: seq<Binding>)

  datatype Assignment = Pending | Standby | Failed | Running

  /** What trying to start an app comes to: another instance has the lease, the runtime does not
      start, it runs, or the host is stopping. */
  datatype Outcome = NoLease | StartFails | Starts | Stopping

  datatype Env = Env(
    signature: (App, seq<Binding>) -> Signature,
    inShard: AppId -> bool,
    accepted: seq<Binding> -> bool)

  /** `leases` has for each lease whether it is still acquired. */
  datatype Host = Host(
    started: bool,
    platform: Platform,
    activeRevisionId: Option<nat>,
    desired: map<AppId, App>,
    bindingsByApp: map<AppId, seq<Binding>>,
    apps: map<AppId, Runtime>,
    leases: map<AppId, bool>,
    assignments: map<AppId, Assignment>)

  datatype Error = NotRunning | AlreadyRunning | Rejected | BrokerFailed | StartFailed

  /** How a start of the host fails: its deployment is refused, the model policy refuses the binding
      after the first `admitted` ones, or the broker or a server does not come up. */
  datatype Failure = Undeployable | Refused(admitted: nat) | ServersFail

  datatype Op =
    | Start(platform: Platform, revision: Option<nat>, outcomes: AppId -> Outcome)
    | FailedStart(platform: Platform, revision: Option<nat>, failure: Failure)
    | ApplyConfig(platform: Platform, revision: Option<nat>, deployable: bool, brokerStarts: bool,
                  outcomes: AppId -> Outcome)
    | Maintenance(outcomes: AppId -> Outcome)
    | LoseLease(id: AppId)
    | Stop

  const EMPTY := Host(false, Platform([], []), None, map[], map[], map[], map[], map[])

  // ---------------------------------------------------------------- what a configuration asks for

  /** The apps of this shard by id. */
  function Desired(env: Env, apps: seq<App>): (r: map<AppId, App>)
    ensures forall id :: id in r ==> r[id] in apps && r[id].id == id && env.inShard(id)
  {
    if apps == [] then map[]
    else
      var last := apps[|apps| - 1];
      var r := Desired(env, apps[..|apps| - 1]);
      if env.inShard(last.id) then r[last.id := last] else r
  }

  function Lookup(groups: map<AppId, seq<Binding>>, id: AppId): seq<Binding> {
    if id in groups then groups[id] else []
  }

  function Group(bindings: seq<Binding>): map<AppId, seq<Binding>> {
    if bindings == [] then map[]
    else
      var last := bindings[|bindings| - 1];
      var r := Group(bindings[..|bindings| - 1]);
      r[last.app := Lookup(r, last.app) + [last]]
  }

  /** The bindings pushed one by one onto groups that may already be there. */
  function Pushed(groups: map<AppId, seq<Binding>>, bindings: seq<Binding>): map<AppId, seq<Binding>> {
    if bindings == [] then groups
    else
      var last := bindings[|bindings| - 1];
      var r := Pushed(groups, bindings[..|bindings| - 1]);
      r[last.app := Lookup(r, last.app) + [last]]
  }

  function BindingsFor(h: Host, id: AppId): seq<Binding> {
    Lookup(h.bindingsByApp, id)
  }

  /** Configurations have passed the route check of every app. */
  predicate Loadable(env: Env, p: Platform) {
    forall id :: id in Desired(env, p.apps) ==> env.accepted(Lookup(Group(p.bindings), id))
  }

  // ---------------------------------------------------------------- transitions

  predicate Startable(h: Host, id: AppId) {
    id in h.desired && id !in h.apps
  }

  function Assigned(outcome: Outcome, before: Assignment): Assignment {
    match outcome
    case NoLease => Standby
    case StartFails => Failed
    case Starts => Running
    case Stopping => before
  }

  /** Tries to start every desired app that does not run. */
  function Reconcile(h: Host, outcomes: AppId -> Outcome): Host {
    h.(apps := map id | id in h.apps.Keys + h.desired.Keys && (id in h.apps || outcomes(id).Starts?) ::
                 if id in h.apps then h.apps[id] else Runtime(h.desired[id], BindingsFor(h, id)),
       leases := map id | id in h.leases.Keys + h.desired.Keys &&
       (id in h.leases || (Startable(h, id) && outcomes(id).Starts?)) ::
                   if Startable(h, id) && outcomes(id).Starts? then true else h.leases[id],
       assignments := map id | id in h.assignments ::
         if Startable(h, id) then Assigned(outcomes(id), h.assignments[id]) else h.assignments[id])
  }

  /** The app joins, leaves, or would be built differently. */
  predicate Changed(env: Env, h: Host, p: Platform, id: AppId) {
    (id in h.desired || id in Desired(env, p.apps)) &&
    !(id in h.desired && id in Desired(env, p.apps) &&
      env.signature(h.desired[id], BindingsFor(h, id)) ==
      env.signature(Desired(env, p.apps)[id], Lookup(Group(p.bindings), id)))
  }

  /** The new configuration is in force and the changed apps are stopped; nothing is started yet. */
  function Switched(env: Env, h: Host, p: Platform, revision: Option<nat>): Host {
    Host(h.started, p, revision, Desired(env, p.apps), Group(p.bindings),
         map id | id in h.apps && !Changed(env, h, p, id) :: h.apps[id],
         map id | id in h.leases && !Changed(env, h, p, id) :: h.leases[id],
         map id | id in Desired(env, p.apps) ::
           if !Changed(env, h, p, id) && id in h.assignments then h.assignments[id] else Pending)
  }

  function ApplyStep(env: Env, h: Host, op: Op): Host
    requires op.ApplyConfig?
  {
    if !h.started || !op.deployable then h
    else
      var r := Switched(env, h, op.platform, op.revision);
      if op.brokerStarts then Reconcile(r, op.outcomes) else r
  }

  function ApplyResult(env: Env, h: Host, op: Op): Result<bool, Error>
    requires op.ApplyConfig?
  {
    if !h.started then Err(NotRunning)
    else if !op.deployable then Err(Rejected)
    else if !op.brokerStarts then Err(BrokerFailed)
    else
      var r := ApplyStep(env, h, op);
      if exists id :: id in r.assignments && Changed(env, h, op.platform, id) && r.assignments[id].Failed?
      then Err(StartFailed)
      else Ok(true)
  }

  predicate Lost(h: Host, id: AppId) {
    id in h.apps && !(id in h.leases && h.leases[id])
  }

  /** Stops the apps whose lease is gone. */
  function DropLost(h: Host): Host {
    h.(apps := map id | id in h.apps && !Lost(h, id) :: h.apps[id],
       leases := map id | id in h.leases && !Lost(h, id) :: h.leases[id],
       assignments := map id | id in h.assignments :: if Lost(h, id) && id in h.desired then Pending
         else h.assignments[id])
  }

  function Stopped(h: Host): Host {
    h.(started := false, desired := map[], bindingsByApp := map[], apps := map[], leases := map[], assignments := map[])
  }

  /** The configuration taken in, nothing running yet. */
  function TakenIn(env: Env, h: Host, p: Platform, revision: Option<nat>): Host {
    Host(h.started, p, revision, Desired(env, p.apps), Pushed(h.bindingsByApp, p.bindings), map[], map[],
         map id | id in Desired(env, p.apps) :: Pending)
  }

  function StartStep(env: Env, h: Host, op: Op): Host
    requires op.Start?
  {
    Reconcile(TakenIn(env, h, op.platform, op.revision), op.outcomes).(started := true)
  }

  /** A start that throws.  Only the last kind of failure cleans up. */
  function FailedStartStep(env: Env, h: Host, op: Op): Host
    requires op.FailedStart? && (op.failure.Refused? ==> op.failure.admitted < |op.platform.bindings|)
  {
    match op.failure
    case Undeployable => h.(platform := op.platform, activeRevisionId := op.revision)
    case Refused(k) =>
      h.(platform := op.platform, activeRevisionId := op.revision,
         bindingsByApp := Pushed(h.bindingsByApp, op.platform.bindings[..k]))
    case ServersFail => Stopped(TakenIn(env, h, op.platform, op.revision))
  }

  predicate Idle(h: Host) {
    !h.started && h.desired == map[]
  }

  /** Runs do not start a host again on which a refused start has left bindings; what happens then is
      the matter of `RetriesAreCleanIff`. */
  predicate Enabled(env: Env, h: Host, op: Op) {
    match op
    case Start(p, _, _) => Idle(h) && h.bindingsByApp == map[] && Loadable(env, p)
    case FailedStart(p, _, failure) => Idle(h) && (failure.Refused? ==> failure.admitted < |p.bindings|)
    case ApplyConfig(p, _, _, _, _) => Loadable(env, p)
    case Maintenance(_) => true
    case LoseLease(id) => id in h.leases
    case Stop => true
  }

  function Apply(env: Env, h: Host, op: Op): Host
    requires Enabled(env, h, op)
  {
    match op
    case Start(_, _, _) => StartStep(env, h, op)
    case FailedStart(_, _, _) => FailedStartStep(env, h, op)
    case ApplyConfig(_, _, _, _, _) => ApplyStep(env, h, op)
    case Maintenance(outcomes) => if h.started then Reconcile(DropLost(h), outcomes) else h
    case LoseLease(id) => h.(leases := h.leases[id := false])
    case Stop => Stopped(h)
  }

  function Run(env: Env, h: Host, ops: seq<Op>): Host
    decreases |ops|
  {
    if ops == [] then h else Run(env, if Enabled(env, h, ops[0]) then Apply(env, h, ops[0]) else h, ops[1..])
  }

  // ---------------------------------------------------------------- the invariant

  /** The running apps, the leases and the assignments in state running are the same, all of them
      desired, and every desired app has an assignment. */
  ghost predicate KeysInv(h: Host) {
    h.apps.Keys == h.leases.Keys && h.desired.Keys == h.assignments.Keys &&
    (forall id :: id in h.apps ==> id in h.desired) &&
    (forall id :: id in h.assignments ==> (h.assignments[id].Running? <==> id in h.apps))
  }

  /** Each running app was built as its present configuration would build it. */
  ghost predicate BuiltInv(env: Env, h: Host) {
    forall id :: id in h.apps && id in h.desired ==>
      env.signature(h.apps[id].app, h.apps[id].bindings) == env.signature(h.desired[id], BindingsFor(h, id)) &&
      env.accepted(h.apps[id].bindings)
  }

  ghost predicate ConfigInv(env: Env, h: Host) {
    (forall id :: id in h.desired ==> h.desired[id].id == id && env.accepted(BindingsFor(h, id))) &&
    (h.started ==> h.desired == Desired(env, h.platform.apps) && h.bindingsByApp == Group(h.platform.bindings))
  }

  ghost predicate Inv(env: Env, h: Host) {
    KeysInv(h) && BuiltInv(env, h) && ConfigInv(env, h)
  }

  lemma ReconcileKeepsKeys(h: Host, outcomes: AppId -> Outcome)
    requires KeysInv(h)
    ensures KeysInv(Reconcile(h, outcomes))
  {
    var r := Reconcile(h, outcomes);
    assert r.apps.Keys == r.leases.Keys;
    assert r.assignments.Keys == h.assignments.Keys;
  }

  lemma ReconcileKeepsBuilt(env: Env, h: Host, outcomes: AppId -> Outcome)
    requires BuiltInv(env, h) && ConfigInv(env, h)
    ensures BuiltInv(env, Reconcile(h, outcomes)) && ConfigInv(env, Reconcile(h, outcomes))
  {
  }

  lemma ReconcileKeepsInv(env: Env, h: Host, outcomes: AppId -> Outcome)
    requires Inv(env, h)
    ensures Inv(env, Reconcile(h, outcomes))
  {
    ReconcileKeepsKeys(h, outcomes);
    ReconcileKeepsBuilt(env, h, outcomes);
  }

  /** What reconciliation makes of one app. */
  lemma ReconcileAt(h: Host, outcomes: AppId -> Outcome, id: AppId)
    requires KeysInv(h)
    ensures var r := Reconcile(h, outcomes);
      (id in r.apps <==> id in h.apps || (id in h.desired && outcomes(id).Starts?)) &&
      (id in r.apps <==> id in r.leases) &&
      (id in h.apps ==> r.apps[id] == h.apps[id] && r.leases[id] == h.leases[id]) &&
      (Startable(h, id) && outcomes(id).Starts? ==>
       r.apps[id] == Runtime(h.desired[id], BindingsFor(h, id)) && r.leases[id]) &&
      (id in r.assignments <==> id in h.desired) &&
      (id in h.desired ==> r.assignments[id] == if id in h.apps then Running
       else Assigned(outcomes(id), h.assignments[id]))
  {
  }

  lemma SwitchedAt(env: Env, h: Host, p: Platform, revision: Option<nat>, id: AppId)
    requires KeysInv(h)
    ensures var r := Switched(env, h, p, revision);
      (id in r.apps <==> id in h.apps && !Changed(env, h, p, id)) && (id in r.apps <==> id in r.leases) &&
      (id in r.apps ==> r.apps[id] == h.apps[id] && r.leases[id] == h.leases[id]) &&
      (id in r.assignments <==> id in Desired(env, p.apps))
  {
  }

  lemma SwitchedKeepsKeys(env: Env, h: Host, p: Platform, revision: Option<nat>)
    requires KeysInv(h)
    ensures KeysInv(Switched(env, h, p, revision))
  {
    var r := Switched(env, h, p, revision);
    assert r.apps.Keys == r.leases.Keys;
    assert r.desired.Keys == r.assignments.Keys;
  }

  lemma SwitchedKeepsInv(env: Env, h: Host, p: Platform, revision: Option<nat>)
    requires Inv(env, h) && Loadable(env, p)
    ensures Inv(env, Switched(env, h, p, revision))
  {
    SwitchedKeepsKeys(env, h, p, revision);
  }

  lemma DropLostKeepsInv(env: Env, h: Host)
    requires Inv(env, h)
    ensures Inv(env, DropLost(h))
  {
    var r := DropLost(h);
    assert r.apps.Keys == r.leases.Keys;
    assert r.assignments.Keys == h.assignments.Keys;
  }

  lemma {:induction false} PushedOnNothing(bindings: seq<Binding>)
    ensures Pushed(map[], bindings) == Group(bindings)
  {
    if bindings != [] {
      PushedOnNothing(bindings[..|bindings| - 1]);
    }
  }

  lemma TakenInKeepsInv(env: Env, h: Host, p: Platform, revision: Option<nat>)
    requires Idle(h) && h.bindingsByApp == map[] && Loadable(env, p)
    ensures Inv(env, TakenIn(env, h, p, revision))
  {
    PushedOnNothing(p.bindings);
  }

  lemma StepKeepsInv(env: Env, h: Host, op: Op)
    requires Inv(env, h) && Enabled(env, h, op)
    ensures Inv(env, Apply(env, h, op))
  {
    match op
    case Start(p, revision, outcomes) =>
      TakenInKeepsInv(env, h, p, revision);
      ReconcileKeepsInv(env, TakenIn(env, h, p, revision), outcomes);
      PushedOnNothing(p.bindings);
    case FailedStart(_, _, _) =>
    case ApplyConfig(p, revision, _, _, outcomes) =>
      if h.started {
        SwitchedKeepsInv(env, h, p, revision);
        ReconcileKeepsInv(env, Switched(env, h, p, revision), outcomes);
      }
    case Maintenance(outcomes) =>
      DropLostKeepsInv(env, h);
      ReconcileKeepsInv(env, DropLost(h), outcomes);
    case LoseLease(id) =>
      assert h.leases[id := false].Keys == h.leases.Keys;
    case Stop =>
  }

  lemma {:induction false} RunKeepsInv(env: Env, h: Host, ops: seq<Op>)
    requires Inv(env, h)
    ensures Inv(env, Run(env, h, ops))
    decreases |ops|
  {
    if ops != [] {
      if Enabled(env, h, ops[0]) {
        StepKeepsInv(env, h, ops[0]);
      }
      RunKeepsInv(env, if Enabled(env, h, ops[0]) then Apply(env, h, ops[0]) else h, ops[1..]);
    }
  }

  // ---------------------------------------------------------------- main results

  /** After any run of the host: apps, leases and running assignments agree, within what is desired;
      every running app carries the signature of its present configuration. */
  lemma RunningAppsAreCurrent(env: Env, ops: seq<Op>)
    ensures var h := Run(env, EMPTY, ops);
      h.apps.Keys == h.leases.Keys == (set id | id in h.assignments && h.assignments[id].Running?) &&
      h.apps.Keys <= h.desired.Keys == h.assignments.Keys &&
      forall id :: id in h.apps ==>
        env.signature(h.apps[id].app, h.apps[id].bindings) == env.signature(h.desired[id], BindingsFor(h, id))
  {
    RunKeepsInv(env, EMPTY, ops);
  }

  /** An apply stops only apps that left or whose signature changed; every other running app keeps its
      runtime and its lease.  A refused configuration changes nothing at all. */
  lemma ApplyStopsOnlyChangedApps(env: Env, ops: seq<Op>, h: Host, op: Op, id: AppId)
    requires h == Run(env, EMPTY, ops) && op.ApplyConfig? && Enabled(env, h, op) && id in h.apps
    ensures var r := ApplyStep(env, h, op);
      id in h.leases &&
      ((id in r.apps && id in r.leases && r.apps[id] == h.apps[id] && r.leases[id] == h.leases[id]) ||
       (h.started && op.deployable && Changed(env, h, op.platform, id)))
    ensures !h.started || !op.deployable ==> ApplyStep(env, h, op) == h && ApplyResult(env, h, op).Err?
  {
    RunKeepsInv(env, EMPTY, ops);
  }

  /** A configuration is either refused before anything changes, or it is in force from then on, with
      its revision, even where the broker or some app then fails to start. */
  lemma AcceptedConfigurationsAreInForce(env: Env, ops: seq<Op>, h: Host, op: Op)
    requires h == Run(env, EMPTY, ops) && op.ApplyConfig? && Enabled(env, h, op)
    ensures var r, refused := ApplyStep(env, h, op), ApplyResult(env, h, op) == Err(NotRunning) ||
      ApplyResult(env, h, op) == Err(Rejected);
      if refused then r == h
      else
        r.activeRevisionId == op.revision && r.platform == op.platform && r.desired == Desired(env, op.platform.apps) &&
        (ApplyResult(env, h, op).Ok? ==>
          forall id :: id in r.desired && Changed(env, h, op.platform, id) ==>
            id in r.assignments && !r.assignments[id].Failed?)
  {
    RunKeepsInv(env, EMPTY, ops);
    if h.started && op.deployable {
      SwitchedKeepsKeys(env, h, op.platform, op.revision);
      ReconcileKeepsKeys(Switched(env, h, op.platform, op.revision), op.outcomes);
    }
  }

  /** An app that was running and has changed is not running its old build afterwards. */
  lemma ChangedAppsAreRebuilt(env: Env, ops: seq<Op>, h: Host, op: Op, id: AppId)
    requires h == Run(env, EMPTY, ops) && op.ApplyConfig? && Enabled(env, h, op) && h.started && op.deployable
    requires id in h.apps && Changed(env, h, op.platform, id)
    ensures var r := ApplyStep(env, h, op);
      if id !in Desired(env, op.platform.apps) then id !in r.apps && id !in r.leases && id !in r.assignments
      else if op.brokerStarts && op.outcomes(id).Starts? then
        id in r.apps && id in r.leases && r.leases[id] &&
        r.apps[id] == Runtime(Desired(env, op.platform.apps)[id], Lookup(Group(op.platform.bindings), id))
      else id !in r.apps && id !in r.leases && id in r.assignments && !r.assignments[id].Running?
  {
    RunKeepsInv(env, EMPTY, ops);
    ChangedAt(env, h, op, id);
  }

  lemma ChangedAt(env: Env, h: Host, op: Op, id: AppId)
    requires KeysInv(h) && op.ApplyConfig? && h.started && op.deployable
    requires id in h.apps && Changed(env, h, op.platform, id)
    ensures var r := ApplyStep(env, h, op);
      if id !in Desired(env, op.platform.apps) then id !in r.apps && id !in r.leases && id !in r.assignments
      else if op.brokerStarts && op.outcomes(id).Starts? then
        id in r.apps && id in r.leases && r.leases[id] &&
        r.apps[id] == Runtime(Desired(env, op.platform.apps)[id], Lookup(Group(op.platform.bindings), id))
      else id !in r.apps && id !in r.leases && id in r.assignments && !r.assignments[id].Running?
  {
    var s := Switched(env, h, op.platform, op.revision);
    SwitchedAt(env, h, op.platform, op.revision, id);
    SwitchedKeepsKeys(env, h, op.platform, op.revision);
    if op.brokerStarts {
      ReconcileAt(s, op.outcomes, id);
    }
  }

  /** Two hosts that differ at most in what equal signatures leave open. */
  ghost predicate Equivalent(env: Env, a: Host, b: Host) {
    a.started == b.started && a.platform == b.platform && a.activeRevisionId == b.activeRevisionId &&
    a.desired == b.desired && a.bindingsByApp == b.bindingsByApp && a.assignments == b.assignments &&
    a.apps.Keys == b.apps.Keys && a.leases.Keys == b.leases.Keys &&
    forall id :: id in a.apps ==>
      env.signature(a.apps[id].app, a.apps[id].bindings) == env.signature(b.apps[id].app, b.apps[id].bindings)
  }

  predicate Kept(env: Env, h: Host, p: Platform, id: AppId) {
    id in h.apps && !Changed(env, h, p, id)
  }

  /** The outcomes a full restart meets when the apps that hot reload keeps start again. */
  function RestartOutcomes(env: Env, h: Host, p: Platform, outcomes: AppId -> Outcome): AppId -> Outcome {
    id => if Kept(env, h, p, id) then Starts else outcomes(id)
  }

  /** Hot reload does what a restart would do: stopping the whole host and starting it with the new
      configuration ends in an equivalent state, when the kept apps start again and the others fare
      as they did.  This needs that no start was cut short by a stopping host. */
  lemma HotReloadRefinesRestart(env: Env, ops: seq<Op>, h: Host, op: Op)
    requires h == Run(env, EMPTY, ops) && op.ApplyConfig? && Enabled(env, h, op) && h.started && op.deployable &&
      op.brokerStarts
    requires forall id :: !op.outcomes(id).Stopping?
    ensures var stopped := Apply(env, h, Stop);
      var restart := Start(op.platform, op.revision, RestartOutcomes(env, h, op.platform, op.outcomes));
      Enabled(env, stopped, restart) && Equivalent(env, ApplyStep(env, h, op), Apply(env, stopped, restart))
  {
    RunKeepsInv(env, EMPTY, ops);
    var stopped := Apply(env, h, Stop);
    var restart := Start(op.platform, op.revision, RestartOutcomes(env, h, op.platform, op.outcomes));
    forall id: AppId
      ensures SameAt(env, ApplyStep(env, h, op), StartStep(env, stopped, restart), id)
    {
      RestartAt(env, h, op, id);
    }
    PushedOnNothing(op.platform.bindings);
    SameEverywhere(env, ApplyStep(env, h, op), StartStep(env, stopped, restart));
  }

  ghost predicate SameAt(env: Env, a: Host, b: Host, id: AppId) {
    (id in a.assignments <==> id in b.assignments) &&
    (id in a.assignments ==> a.assignments[id] == b.assignments[id]) &&
    (id in a.apps <==> id in b.apps) && (id in a.leases <==> id in b.leases) &&
    (id in a.apps ==>
      env.signature(a.apps[id].app, a.apps[id].bindings) == env.signature(b.apps[id].app, b.apps[id].bindings))
  }

  lemma SameEverywhere(env: Env, a: Host, b: Host)
    requires a.started == b.started && a.platform == b.platform && a.activeRevisionId == b.activeRevisionId
    requires a.desired == b.desired && a.bindingsByApp == b.bindingsByApp
    requires forall id :: SameAt(env, a, b, id)
    ensures Equivalent(env, a, b)
  {
    assert a.assignments.Keys == b.assignments.Keys by {
      assert forall id :: SameAt(env, a, b, id) ==> (id in a.assignments <==> id in b.assignments);
    }
    assert a.assignments == b.assignments by {
      assert forall id :: SameAt(env, a, b, id) && id in a.assignments ==> a.assignments[id] == b.assignments[id];
    }
    assert a.apps.Keys == b.apps.Keys by {
      assert forall id :: SameAt(env, a, b, id) ==> (id in a.apps <==> id in b.apps);
    }
    assert a.leases.Keys == b.leases.Keys by {
      assert forall id :: SameAt(env, a, b, id) ==> (id in a.leases <==> id in b.leases);
    }
    assert forall id :: SameAt(env, a, b, id) && id in a.apps ==>
      env.signature(a.apps[id].app, a.apps[id].bindings) == env.signature(b.apps[id].app, b.apps[id].bindings);
  }

  /** One app after a hot reload. */
  lemma ReloadAt(env: Env, h: Host, op: Op, id: AppId)
    requires KeysInv(h) && op.ApplyConfig? && h.started && op.deployable && op.brokerStarts &&
      !op.outcomes(id).Stopping?
    ensures var r, desired := ApplyStep(env, h, op), Desired(env, op.platform.apps);
      (id in r.apps <==> Kept(env, h, op.platform, id) || (id in desired && op.outcomes(id).Starts?)) &&
      (id in r.apps <==> id in r.leases) && (id in r.assignments <==> id in desired) &&
      (Kept(env, h, op.platform, id) ==> r.apps[id] == h.apps[id]) &&
      (id in r.apps && !Kept(env, h, op.platform, id) ==>
       r.apps[id] == Runtime(desired[id], Lookup(Group(op.platform.bindings), id))) &&
      (id in desired && Kept(env, h, op.platform, id) ==> r.assignments[id] == Running) &&
      (id in desired && !Kept(env, h, op.platform, id) ==> r.assignments[id] == Assigned(op.outcomes(id), Pending))
  {
    SwitchedAt(env, h, op.platform, op.revision, id);
    SwitchedKeepsKeys(env, h, op.platform, op.revision);
    ReconcileAt(Switched(env, h, op.platform, op.revision), op.outcomes, id);
  }

  /** One app after a start. */
  lemma StartAt(env: Env, h: Host, op: Op, id: AppId)
    requires op.Start? && h.bindingsByApp == map[]
    ensures var r, desired := StartStep(env, h, op), Desired(env, op.platform.apps);
      (id in r.apps <==> id in desired && op.outcomes(id).Starts?) &&
      (id in r.apps <==> id in r.leases) && (id in r.assignments <==> id in desired) &&
      (id in r.apps ==> r.apps[id] == Runtime(desired[id], Lookup(Group(op.platform.bindings), id))) &&
      (id in desired ==> r.assignments[id] == Assigned(op.outcomes(id), Pending)) &&
      (id in desired && op.outcomes(id).Starts? ==> r.assignments[id] == Running)
  {
    PushedOnNothing(op.platform.bindings);
    ReconcileAt(TakenIn(env, h, op.platform, op.revision), op.outcomes, id);
  }

  lemma KeptIsCurrent(env: Env, h: Host, p: Platform, id: AppId)
    requires Inv(env, h) && Kept(env, h, p, id)
    ensures id in Desired(env, p.apps)
    ensures env.signature(h.apps[id].app, h.apps[id].bindings) ==
      env.signature(Desired(env, p.apps)[id], Lookup(Group(p.bindings), id))
  {
    assert id in h.desired;
  }

  lemma RestartAt(env: Env, h: Host, op: Op, id: AppId)
    requires Inv(env, h)
    requires op.ApplyConfig? && h.started && op.deployable && op.brokerStarts && !op.outcomes(id).Stopping?
    ensures var restart := Start(op.platform, op.revision, RestartOutcomes(env, h, op.platform, op.outcomes));
      SameAt(env, ApplyStep(env, h, op), StartStep(env, Stopped(h), restart), id)
  {
    var outcomes := RestartOutcomes(env, h, op.platform, op.outcomes);
    var restart := Start(op.platform, op.revision, outcomes);
    var a, b := ApplyStep(env, h, op), StartStep(env, Stopped(h), restart);
    ReloadAt(env, h, op, id);
    StartAt(env, Stopped(h), restart, id);
    if Kept(env, h, op.platform, id) {
      KeptIsCurrent(env, h, op.platform, id);
      assert restart.outcomes(id) == Starts;
    } else {
      assert restart.outcomes(id) == op.outcomes(id);
    }
    SameIfAlike(env, a, b, id);
  }

  /** The reloaded and the restarted host agree on an app when each is as described for that app. */
  lemma SameIfAlike(env: Env, a: Host, b: Host, id: AppId)
    requires (id in a.leases <==> id in a.apps) && (id in b.leases <==> id in b.apps)
    requires (id in a.assignments <==> id in b.assignments) &&
      (id in a.assignments ==> a.assignments[id] == b.assignments[id])
    requires id in a.apps <==> id in b.apps
    requires id in a.apps && id in b.apps ==>
      env.signature(a.apps[id].app, a.apps[id].bindings) == env.signature(b.apps[id].app, b.apps[id].bindings)
    ensures SameAt(env, a, b, id)
  {
  }

  /** Maintenance stops exactly the apps that have lost their lease, and touches no other app that
      runs. */
  lemma MaintenanceStopsLostApps(env: Env, ops: seq<Op>, h: Host, outcomes: AppId -> Outcome, id: AppId)
    requires h == Run(env, EMPTY, ops) && h.started && id in h.apps
    ensures var r := Apply(env, h, Maintenance(outcomes));
      id in h.leases &&
      if h.leases[id] then id in r.apps && id in r.leases && r.apps[id] == h.apps[id] && r.leases[id]
      else if outcomes(id).Starts? then
        id in h.desired && id in r.apps && id in r.leases &&
        r.apps[id] == Runtime(h.desired[id], BindingsFor(h, id)) && r.leases[id]
      else id !in r.apps && id !in r.leases
  {
    RunKeepsInv(env, EMPTY, ops);
  }

  // ---------------------------------------------------------------- what a failed start leaves behind

  lemma {:induction false} PushedAt(groups: map<AppId, seq<Binding>>, bindings: seq<Binding>, id: AppId)
    ensures Lookup(Pushed(groups, bindings), id) == Lookup(groups, id) + Lookup(Group(bindings), id)
  {
    if bindings == [] {
      assert Lookup(groups, id) + [] == Lookup(groups, id);
    } else {
      var front, last := bindings[..|bindings| - 1], bindings[|bindings| - 1];
      PushedAt(groups, front, id);
      assert Lookup(groups, id) + Lookup(Group(front), id) + [last] == Lookup(groups, id) +
        (Lookup(Group(front), id) + [last]);
    }
  }

  lemma FirstBindingIsGrouped(bindings: seq<Binding>)
    requires bindings != []
    ensures Lookup(Group(bindings), bindings[|bindings| - 1].app) != []
  {
  }

  /** Starting again on the same host after a start that failed gives every app the bindings it should
      have if and only if the failure was no refusal of a later binding than the first: what was pushed
      before the refusal stays, and the next start pushes onto it. */
  lemma RetriesAreCleanIff(env: Env, h: Host, failed: Op, retry: Op)
    requires Inv(env, h) && Idle(h) && h.bindingsByApp == map[]
    requires failed.FailedStart? && Enabled(env, h, failed) && retry.Start?
    ensures (forall id ::
      BindingsFor(StartStep(env, Apply(env, h, failed), retry), id) == Lookup(Group(retry.platform.bindings), id))
      <==> !(failed.failure.Refused? && failed.failure.admitted > 0)
  {
    var left := Apply(env, h, failed);
    var r := StartStep(env, left, retry);
    forall id: AppId
      ensures BindingsFor(r, id) == Lookup(left.bindingsByApp, id) + Lookup(Group(retry.platform.bindings), id)
    {
      PushedAt(left.bindingsByApp, retry.platform.bindings, id);
    }
    if failed.failure.Refused? && failed.failure.admitted > 0 {
      var admitted := failed.platform.bindings[..failed.failure.admitted];
      var id := admitted[|admitted| - 1].app;
      PushedOnNothing(admitted);
      FirstBindingIsGrouped(admitted);
      assert |BindingsFor(r, id)| > |Lookup(Group(retry.platform.bindings), id)|;
    }
  }
}
