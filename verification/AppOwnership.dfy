/** Several hosts, one app: the lease row decides which of them runs it.

    The model follows one app id through the maps of every host and through the lease objects that the
    hosts make for it.  A step is one stretch of one host: an attempt to take the lease, the end of a
    start, a heartbeat, a stop, or anything that does not concern this app.  */
module AppOwnership {
  import opened Wrappers
  import L = AppLease
  import H = HotReload
  import HotReloadHost

  type HostId = string

  /** `held` has the lease object behind a host's running app, `starting` the one of a start under way. */
  datatype Cluster = Cluster(
    lease: L.State,
    hosts: map<HostId, H.Host>,
    held: map<HostId, L.Token>,
    starting: map<HostId, L.Token>)

  datatype Step =
    | Attempt(host: HostId, token: L.Token, ownerId: string, ttl: int, at: int)
    | Resolve(host: HostId, outcome: H.Outcome, at: int)
    | Beat(host: HostId, at: int)
    | Drop(host: HostId, after: H.Host)
    | Tend(host: HostId, after: H.Host)
    | Old(token: L.Token, release: bool, at: int)

  predicate Runs(h: H.Host, app: H.AppId) {
    app in h.apps
  }

  /** The two host states say the same about the app. */
  predicate SameApp(a: H.Host, b: H.Host, app: H.AppId) {
    (app in a.apps <==> app in b.apps) && (app in a.leases <==> app in b.leases) &&
    (app in a.leases ==> a.leases[app] == b.leases[app])
  }

  predicate Enabled(c: Cluster, app: H.AppId, step: Step) {
    match step
    case Attempt(h, t, _, ttl, at) =>
      h in c.hosts && h !in c.starting && H.Startable(c.hosts[h], app) && t !in c.lease.leases && ttl > 0 &&
      c.lease.now <= at
    case Resolve(h, outcome, at) =>
      h in c.hosts && h in c.starting && H.Startable(c.hosts[h], app) && !outcome.NoLease? &&
      c.starting[h] in c.lease.leases && c.lease.now <= at
    case Beat(h, at) =>
      h in c.hosts && c.lease.now <= at &&
      (if h in c.held then app in c.hosts[h].leases && c.held[h] in c.lease.leases
       else h in c.starting && c.starting[h] in c.lease.leases)
    case Drop(h, after) => h in c.hosts && h in c.held && app !in after.apps && app !in after.leases
    case Tend(h, after) => h in c.hosts && SameApp(c.hosts[h], after, app)
    case Old(t, _, at) => t in c.lease.leases && t !in c.held.Values && t !in c.starting.Values && c.lease.now <= at
  }

  function AttemptStep(c: Cluster, app: H.AppId, step: Step): Cluster
    requires step.Attempt? && Enabled(c, app, step)
  {
    var made := L.Apply(c.lease, L.Create(step.token, step.ownerId, step.ttl));
    var taken := L.AcquireStep(made, step.token, step.at);
    if L.AcquireResult(made.row, made.leases[step.token], step.at) then
      c.(lease := taken, starting := c.starting[step.host := step.token])
    else
      c.(lease := taken, hosts := c.hosts[step.host := HotReloadHost.StartOne(c.hosts[step.host], app, H.NoLease)])
  }

  /** The host reads from its lease object whether the lease still counts as acquired. */
  function Seen(h: H.Host, app: H.AppId, lease: L.Lease): H.Host {
    h.(leases := h.leases[app := L.IsAcquired(lease)])
  }

  function ResolveStep(c: Cluster, app: H.AppId, step: Step): Cluster
    requires step.Resolve? && Enabled(c, app, step)
  {
    var h, t := step.host, c.starting[step.host];
    var after := HotReloadHost.StartOne(c.hosts[h], app, step.outcome);
    if step.outcome.Starts? then
      Cluster(c.lease, c.hosts[h := Seen(after, app, c.lease.leases[t])], c.held[h := t], c.starting - {h})
    else
      Cluster(L.ReleaseStep(c.lease, t, step.at), c.hosts[h := after], c.held, c.starting - {h})
  }

  /** The timer of a lease beats while the app runs, and already while it starts. */
  function BeatStep(c: Cluster, app: H.AppId, step: Step): Cluster
    requires step.Beat? && Enabled(c, app, step)
  {
    var h := step.host;
    if h in c.held then
      var lease := L.HeartbeatStep(c.lease, c.held[h], step.at);
      c.(lease := lease, hosts := c.hosts[h := Seen(c.hosts[h], app, lease.leases[c.held[h]])])
    else
      c.(lease := L.HeartbeatStep(c.lease, c.starting[h], step.at))
  }

  function Apply(c: Cluster, app: H.AppId, step: Step): Cluster
    requires Enabled(c, app, step)
  {
    match step
    case Attempt(_, _, _, _, _) => AttemptStep(c, app, step)
    case Resolve(_, _, _) => ResolveStep(c, app, step)
    case Beat(_, _) => BeatStep(c, app, step)
    case Drop(h, after) => c.(hosts := c.hosts[h := after], held := c.held - {h})
    case Tend(h, after) => c.(hosts := c.hosts[h := after])
    case Old(t, release, at) =>
      c.(lease := if release then L.ReleaseStep(c.lease, t, at) else L.HeartbeatStep(c.lease, t, at))
  }

  function Run(c: Cluster, app: H.AppId, steps: seq<Step>): Cluster
    decreases |steps|
  {
    if steps == [] then c else Run(if Enabled(c, app, steps[0]) then Apply(c, app, steps[0]) else c, app, steps[1..])
  }

  /** No host runs the app yet. */
  predicate Init(c: Cluster, app: H.AppId, start: int) {
    c.lease == L.Init(start) && c.held == map[] && c.starting == map[] &&
    forall h :: h in c.hosts ==> app !in c.hosts[h].apps && app !in c.hosts[h].leases
  }

  /** How an operation of the host ends the app's start, should it attempt one. */
  function OutcomeIn(op: H.Op, app: H.AppId): H.Outcome {
    match op
    case Start(_, _, outcomes) => outcomes(app)
    case ApplyConfig(_, _, _, _, outcomes) => outcomes(app)
    case Maintenance(outcomes) => outcomes(app)
    case _ => H.NoLease
  }

  /** Seen through one app, each operation of a host leaves it alone, drops it, notices a lost lease,
      or ends with the app started: the steps above miss nothing. */
  lemma OperationsAreSteps(env: H.Env, h: H.Host, op: H.Op, app: H.AppId)
    requires H.KeysInv(h) && H.Enabled(env, h, op)
    ensures var r := H.Apply(env, h, op);
      || SameApp(h, r, app)
      || (app !in r.apps && app !in r.leases)
      || op == H.LoseLease(app)
      || (OutcomeIn(op, app).Starts? && app in r.apps && app in r.leases && r.leases[app])
  {
    assert app in h.apps <==> app in h.leases by {
      assert app in h.apps.Keys <==> app in h.leases.Keys;
    }
  }

  // ---------------------------------------------------------------- the invariant

  /** A host runs the app under a lease object of its own, whose state is what the host sees. */
  predicate HostOk(c: Cluster, app: H.AppId, h: HostId)
    requires h in c.hosts
  {
    (Runs(c.hosts[h], app) <==> h in c.held) && (app in c.hosts[h].leases <==> h in c.held) &&
    (h in c.held ==>
      h !in c.starting && c.held[h] in c.lease.leases &&
      c.hosts[h].leases[app] == L.IsAcquired(c.lease.leases[c.held[h]])) &&
    (h in c.starting ==> c.starting[h] in c.lease.leases)
  }

  /** No two hosts use one lease object. */
  predicate OwnTokens(c: Cluster) {
    (forall h, g :: h in c.held && g in c.held && c.held[h] == c.held[g] ==> h == g) &&
    (forall h, g :: h in c.starting && g in c.starting && c.starting[h] == c.starting[g] ==> h == g) &&
    (forall h, g :: h in c.held && g in c.starting ==> c.held[h] != c.starting[g])
  }

  ghost predicate Inv(c: Cluster, app: H.AppId) {
    L.Inv(c.lease) && (forall h :: h in c.hosts ==> HostOk(c, app, h)) && c.held.Keys <= c.hosts.Keys &&
    c.starting.Keys <= c.hosts.Keys && OwnTokens(c)
  }

  lemma LeaseStaysGood(c: Cluster, app: H.AppId, step: Step)
    requires L.Inv(c.lease) && Enabled(c, app, step)
    ensures L.Inv(Apply(c, app, step).lease)
  {
    match step
    case Attempt(_, t, owner, ttl, at) =>
      L.StepKeepsInv(c.lease, L.Create(t, owner, ttl));
      L.AcquireKeepsInv(L.Apply(c.lease, L.Create(t, owner, ttl)), t, at);
    case Resolve(h, _, at) => L.ReleaseKeepsInv(c.lease, c.starting[h], at);
    case Beat(h, at) => L.HeartbeatKeepsInv(c.lease, if h in c.held then c.held[h] else c.starting[h], at);
    case Old(t, release, at) =>
      if release {
        L.ReleaseKeepsInv(c.lease, t, at);
      } else {
        L.HeartbeatKeepsInv(c.lease, t, at);
      }
    case _ =>
  }

  /** The one lease object a step may change. */
  function Touched(c: Cluster, app: H.AppId, step: Step): Option<L.Token>
    requires Enabled(c, app, step)
  {
    match step
    case Attempt(_, t, _, _, _) => Some(t)
    case Resolve(h, _, _) => Some(c.starting[h])
    case Beat(h, _) => Some(if h in c.held then c.held[h] else c.starting[h])
    case Old(t, _, _) => Some(t)
    case _ => None
  }

  lemma OtherLeasesStay(c: Cluster, app: H.AppId, step: Step, t: L.Token)
    requires Enabled(c, app, step) && t in c.lease.leases && Touched(c, app, step) != Some(t)
    ensures t in Apply(c, app, step).lease.leases && Apply(c, app, step).lease.leases[t] == c.lease.leases[t]
  {
  }

  lemma LeasesStay(c: Cluster, app: H.AppId, step: Step, t: L.Token)
    requires Enabled(c, app, step) && t in c.lease.leases
    ensures t in Apply(c, app, step).lease.leases
  {
  }

  predicate Concerns(step: Step, h: HostId) {
    !step.Old? && step.host == h
  }

  lemma OtherHostsStay(c: Cluster, app: H.AppId, step: Step, g: HostId)
    requires Enabled(c, app, step) && !Concerns(step, g)
    ensures var r := Apply(c, app, step);
      (g in r.hosts <==> g in c.hosts) && (g in c.hosts ==> r.hosts[g] == c.hosts[g]) &&
      (g in r.held <==> g in c.held) && (g in c.held ==> r.held[g] == c.held[g]) &&
      (g in r.starting <==> g in c.starting) && (g in c.starting ==> r.starting[g] == c.starting[g])
  {
  }

  /** What a host holds is not what the step of another changes. */
  lemma HeldElsewhere(c: Cluster, app: H.AppId, step: Step, g: HostId)
    requires OwnTokens(c) && Enabled(c, app, step) && !Concerns(step, g)
    requires g in c.held && c.held[g] in c.lease.leases
    ensures Touched(c, app, step) != Some(c.held[g])
  {
    if step.Old? {
      assert c.held[g] in c.held.Values;
    }
  }

  lemma ElsewhereStaysGood(c: Cluster, app: H.AppId, step: Step, g: HostId)
    requires OwnTokens(c) && Enabled(c, app, step) && !Concerns(step, g)
    requires g in c.hosts && HostOk(c, app, g)
    ensures g in Apply(c, app, step).hosts && HostOk(Apply(c, app, step), app, g)
  {
    OtherHostsStay(c, app, step, g);
    if g in c.held {
      HeldElsewhere(c, app, step, g);
      OtherLeasesStay(c, app, step, c.held[g]);
    }
    if g in c.starting {
      LeasesStay(c, app, step, c.starting[g]);
    }
  }

  lemma AttemptKeepsHost(c: Cluster, app: H.AppId, step: Step)
    requires step.Attempt? && Enabled(c, app, step) && HostOk(c, app, step.host)
    ensures step.host in AttemptStep(c, app, step).hosts && HostOk(AttemptStep(c, app, step), app, step.host)
  {
  }

  lemma ResolveKeepsHost(c: Cluster, app: H.AppId, step: Step)
    requires step.Resolve? && Enabled(c, app, step) && HostOk(c, app, step.host)
    ensures step.host in ResolveStep(c, app, step).hosts && HostOk(ResolveStep(c, app, step), app, step.host)
  {
  }

  lemma BeatKeepsHost(c: Cluster, app: H.AppId, step: Step)
    requires step.Beat? && Enabled(c, app, step) && HostOk(c, app, step.host)
    ensures step.host in BeatStep(c, app, step).hosts && HostOk(BeatStep(c, app, step), app, step.host)
  {
  }

  lemma HostsStayGood(c: Cluster, app: H.AppId, step: Step, h: HostId)
    requires OwnTokens(c) && Enabled(c, app, step) && h in c.hosts && HostOk(c, app, h)
    ensures h in Apply(c, app, step).hosts && HostOk(Apply(c, app, step), app, h)
  {
    if !Concerns(step, h) {
      ElsewhereStaysGood(c, app, step, h);
    } else {
      match step
      case Attempt(_, _, _, _, _) => AttemptKeepsHost(c, app, step);
      case Resolve(_, _, _) => ResolveKeepsHost(c, app, step);
      case Beat(_, _) => BeatKeepsHost(c, app, step);
      case _ =>
    }
  }

  lemma AttemptKeepsTokens(c: Cluster, app: H.AppId, step: Step)
    requires step.Attempt? && Enabled(c, app, step) && OwnTokens(c)
    requires forall h :: h in c.held ==> c.held[h] in c.lease.leases
    requires forall h :: h in c.starting ==> c.starting[h] in c.lease.leases
    ensures OwnTokens(AttemptStep(c, app, step))
  {
    var r := AttemptStep(c, app, step);
    assert r.held == c.held && (r.starting == c.starting || r.starting == c.starting[step.host := step.token]);
  }

  lemma ResolveKeepsTokens(c: Cluster, app: H.AppId, step: Step)
    requires step.Resolve? && Enabled(c, app, step) && OwnTokens(c)
    ensures OwnTokens(ResolveStep(c, app, step))
  {
    var r := ResolveStep(c, app, step);
    assert r.starting == c.starting - {step.host};
    assert r.held == c.held || r.held == c.held[step.host := c.starting[step.host]];
  }

  /** Attempts bring in a token nobody has, and a start that succeeds moves its token. */
  lemma TokensStayOwn(c: Cluster, app: H.AppId, step: Step)
    requires OwnTokens(c) && Enabled(c, app, step)
    requires forall h :: h in c.held ==> c.held[h] in c.lease.leases
    requires forall h :: h in c.starting ==> c.starting[h] in c.lease.leases
    ensures OwnTokens(Apply(c, app, step))
  {
    if step.Attempt? {
      AttemptKeepsTokens(c, app, step);
    } else if step.Resolve? {
      ResolveKeepsTokens(c, app, step);
    }
  }

  lemma StepKeepsInv(c: Cluster, app: H.AppId, step: Step)
    requires Inv(c, app) && Enabled(c, app, step)
    ensures Inv(Apply(c, app, step), app)
  {
    LeaseStaysGood(c, app, step);
    TokensStayOwn(c, app, step);
    forall h | h in c.hosts
      ensures h in Apply(c, app, step).hosts && HostOk(Apply(c, app, step), app, h)
    {
      HostsStayGood(c, app, step, h);
    }
  }

  lemma {:induction false} RunKeepsInv(c: Cluster, app: H.AppId, steps: seq<Step>)
    requires Inv(c, app)
    ensures Inv(Run(c, app, steps), app)
    decreases |steps|
  {
    if steps != [] {
      if Enabled(c, app, steps[0]) {
        StepKeepsInv(c, app, steps[0]);
      }
      RunKeepsInv(if Enabled(c, app, steps[0]) then Apply(c, app, steps[0]) else c, app, steps[1..]);
    }
  }

  /** In every reachable state: whatever a host comes to that leaves the app alone or drops it is a step
      the model has, the timer of a lease can beat exactly while its app runs or starts, and a start
      under way can end. */
  lemma HostsAreFreeToAct(first: Cluster, app: H.AppId, start: int, steps: seq<Step>, h: HostId, after: H.Host, at: int)
    requires Init(first, app, start) && h in Run(first, app, steps).hosts && Run(first, app, steps).lease.now <= at
    ensures var c := Run(first, app, steps);
      (SameApp(c.hosts[h], after, app) ==> Enabled(c, app, Tend(h, after))) &&
      (Runs(c.hosts[h], app) && app !in after.apps && app !in after.leases ==> Enabled(c, app, Drop(h, after))) &&
      (Enabled(c, app, Beat(h, at)) <==> h in c.held || h in c.starting) &&
      (H.Startable(c.hosts[h], app) && h in c.starting ==> Enabled(c, app, Resolve(h, H.Starts, at)))
  {
    RunKeepsInv(first, app, steps);
    FreeToAct(Run(first, app, steps), app, h, after, at);
  }

  lemma FreeToAct(c: Cluster, app: H.AppId, h: HostId, after: H.Host, at: int)
    requires h in c.hosts && HostOk(c, app, h) && c.lease.now <= at
    ensures SameApp(c.hosts[h], after, app) ==> Enabled(c, app, Tend(h, after))
    ensures Runs(c.hosts[h], app) && app !in after.apps && app !in after.leases ==> Enabled(c, app, Drop(h, after))
    ensures Enabled(c, app, Beat(h, at)) <==> h in c.held || h in c.starting
    ensures H.Startable(c.hosts[h], app) && h in c.starting ==> Enabled(c, app, Resolve(h, H.Starts, at))
  {
  }

  /** Some ownership interval of the lease object covers the present. */
  predicate Owner(lease: L.State, t: L.Token) {
    exists i :: 0 <= i < |lease.holdings| && lease.holdings[i].token == t && L.Covers(lease.holdings[i], lease.now)
  }

  /** The host runs the app, and its lease has not lapsed. */
  predicate RunsAsOwner(c: Cluster, app: H.AppId, h: HostId) {
    h in c.hosts && Runs(c.hosts[h], app) && h in c.held && Owner(c.lease, c.held[h])
  }

  lemma OneCovers(holdings: seq<L.Holding>, now: int, i: nat, j: nat)
    requires L.HoldingsInv(holdings, now) && i < |holdings| && j < |holdings|
    requires L.Covers(holdings[i], now) && L.Covers(holdings[j], now)
    ensures i == j
  {
  }

  lemma OneOwner(lease: L.State, t: L.Token, u: L.Token)
    requires L.Inv(lease) && Owner(lease, t) && Owner(lease, u)
    ensures t == u
  {
    var i :| 0 <= i < |lease.holdings| && lease.holdings[i].token == t && L.Covers(lease.holdings[i], lease.now);
    var j :| 0 <= j < |lease.holdings| && lease.holdings[j].token == u && L.Covers(lease.holdings[j], lease.now);
    OneCovers(lease.holdings, lease.now, i, j);
  }

  /** However the hosts' attempts, starts, heartbeats and stops interleave: at most one host runs the
      app under a lease that has not lapsed. */
  lemma OneOwnerRuns(first: Cluster, app: H.AppId, start: int, steps: seq<Step>, h: HostId, g: HostId)
    requires Init(first, app, start)
    requires RunsAsOwner(Run(first, app, steps), app, h) && RunsAsOwner(Run(first, app, steps), app, g)
    ensures h == g
  {
    RunKeepsInv(first, app, steps);
    var c := Run(first, app, steps);
    OneOwner(c.lease, c.held[h], c.held[g]);
  }

  lemma HeartbeatTellsOwner(lease: L.State, t: L.Token, at: int)
    requires L.Inv(lease) && L.Enabled(lease, L.Heartbeat(t, at)) && L.IsAcquired(lease.leases[t])
    ensures var r := L.HeartbeatStep(lease, t, at); t in r.leases && (L.IsAcquired(r.leases[t]) <==> Owner(r, t))
  {
    var r := L.HeartbeatStep(lease, t, at);
    L.HeartbeatKeepsInv(lease, t, at);
    if L.HeartbeatResult(lease.row, lease.leases[t], t, at) {
      assert r.holdings[|r.holdings| - 1].token == t;
    }
  }

  /** A running host that is no owner any more finds out at its next heartbeat: the app then counts as
      lost, and maintenance will stop it.  To an owner the heartbeat confirms the lease. */
  lemma HeartbeatTellsOwners(first: Cluster, app: H.AppId, start: int, steps: seq<Step>, h: HostId, at: int)
    requires Init(first, app, start) && Enabled(Run(first, app, steps), app, Beat(h, at))
    requires var c := Run(first, app, steps); Runs(c.hosts[h], app) && !H.Lost(c.hosts[h], app)
    ensures var r := Apply(Run(first, app, steps), app, Beat(h, at));
      h in r.hosts && Runs(r.hosts[h], app) && (H.Lost(r.hosts[h], app) <==> !RunsAsOwner(r, app, h))
  {
    RunKeepsInv(first, app, steps);
    var c := Run(first, app, steps);
    assert HostOk(c, app, h);
    HeartbeatTellsOwner(c.lease, c.held[h], at);
  }

  lemma OwnerIffRenews(lease: L.State, t: L.Token)
    requires L.Inv(lease) && t in lease.leases
    ensures Owner(lease, t) <==> L.Renews(lease.row, lease.leases[t], t, lease.now)
  {
    if L.Renews(lease.row, lease.leases[t], t, lease.now) {
      assert lease.holdings[|lease.holdings| - 1].token == t;
    }
  }

  /** Of the hosts that run the app, the owner is exactly the one whose renewal the row would accept
      now: its lease object is the row's, and the row has not expired. */
  lemma RunnerOwnsIff(first: Cluster, app: H.AppId, start: int, steps: seq<Step>, h: HostId)
    requires Init(first, app, start)
    requires var c := Run(first, app, steps); h in c.hosts && Runs(c.hosts[h], app)
    ensures var c := Run(first, app, steps);
      h in c.held && c.held[h] in c.lease.leases &&
      (RunsAsOwner(c, app, h) <==> L.Renews(c.lease.row, c.lease.leases[c.held[h]], c.held[h], c.lease.now))
  {
    RunKeepsInv(first, app, steps);
    var c := Run(first, app, steps);
    assert HostOk(c, app, h);
    OwnerIffRenews(c.lease, c.held[h]);
  }

  function Wanting(app: H.AppId, config: H.App): H.Host {
    H.EMPTY.(desired := map[app := config], assignments := map[app := H.Pending])
  }

  /** Before that heartbeat two hosts can run the app: "a" has a lease of ten time units and does not
      beat in time, "b" takes the row over when it has expired. */
  lemma LapsedHostRunsOn(app: H.AppId, config: H.App)
    ensures var first := Cluster(L.Init(0), map["a" := Wanting(app, config), "b" := Wanting(app, config)],
                                 map[], map[]);
      var steps := [Attempt("a", "t", "a", 10, 0), Resolve("a", H.Starts, 0),
                    Attempt("b", "u", "b", 10, 10), Resolve("b", H.Starts, 10)];
      var c := Run(first, app, steps);
      Init(first, app, 0) && "a" in c.hosts && "b" in c.hosts &&
      Runs(c.hosts["a"], app) && Runs(c.hosts["b"], app) && !H.Lost(c.hosts["a"], app)
  {
    var first := Cluster(L.Init(0), map["a" := Wanting(app, config), "b" := Wanting(app, config)], map[], map[]);
    var s0, s1 := Attempt("a", "t", "a", 10, 0), Resolve("a", H.Starts, 0);
    var s2, s3 := Attempt("b", "u", "b", 10, 10), Resolve("b", H.Starts, 10);
    var c1 := Apply(first, app, s0);
    var c2 := Apply(c1, app, s1);
    var c3 := Apply(c2, app, s2);
    var c4 := Apply(c3, app, s3);
    assert Run(c4, app, []) == c4;
    assert [s3][1..] == [] && Run(c3, app, [s3]) == c4;
    assert [s2, s3][1..] == [s3] && Run(c2, app, [s2, s3]) == c4;
    assert [s1, s2, s3][1..] == [s2, s3] && Run(c1, app, [s1, s2, s3]) == c4;
    assert [s0, s1, s2, s3][1..] == [s1, s2, s3] && Run(first, app, [s0, s1, s2, s3]) == c4;
  }

  // ---------------------------------------------------------------- one attempt with its lease object

  /** What an attempt leaves of the lease row. */
  function RowAfter(row: Option<L.Row>, taken: L.Row, outcome: H.Outcome): Option<L.Row> {
    match outcome
    case NoLease => row
    case Starts => Some(taken)
    case _ => None
  }

  /** The host's attempt from end to end: the lease decides, and is kept exactly when the app runs. */
  method TryStartApp(host: HotReloadHost.PlatformHost, lease: L.AppRuntimeLease, app: H.App, now: int, stopping: bool,
                     starts: bool)
    returns (outcome: H.Outcome)
    requires H.Startable(host.Snapshot(), app.id) && host.desiredApps[app.id] == app && app.id !in host.startingApps
    requires lease.Valid() && !lease.acquired
    modifies host, lease, lease.database
    ensures outcome ==
      if !L.Free(old(lease.database.RowOf(lease.key)), now) then H.NoLease
      else if stopping then H.Stopping
      else if starts then H.Starts
      else H.StartFails
    ensures host.Snapshot() == HotReloadHost.StartOne(old(host.Snapshot()), app.id, outcome)
    ensures host.startingApps == old(host.startingApps)
    ensures lease.Valid() && (lease.acquired <==> outcome.Starts?) && !lease.lost
    ensures lease.database.Has(old(lease.database.rows), lease.key,
              RowAfter(old(lease.database.RowOf(lease.key)),
                       L.Row(lease.ownerId, lease.token, now, now + lease.ttl), outcome))
  {
    var taken := lease.Acquire(now);
    if !taken {
      outcome := H.NoLease;
    } else if stopping {
      lease.Release();
      outcome := H.Stopping;
    } else if !starts {
      lease.Release();
      outcome := H.StartFails;
    } else {
      outcome := H.Starts;
    }
    host.TryStartApp(app, outcome);
  }
}
