/** The mutable host: the same operations with its maps updated in place. */
module HotReloadHost {
  import opened Wrappers
  import opened SetFacts
  import opened BindingRouter
  import opened HotReload

  // ---------------------------------------------------------------- one app at a time

  function StartOne(h: Host, id: AppId, outcome: Outcome): Host
    requires Startable(h, id)
  {
    match outcome
    case NoLease => h.(assignments := h.assignments[id := Standby])
    case StartFails => h.(assignments := h.assignments[id := Failed])
    case Starts =>
      h.(apps := h.apps[id := Runtime(h.desired[id], BindingsFor(h, id))], leases := h.leases[id := true],
         assignments := h.assignments[id := Running])
    case Stopping => h
  }

  function StartableApps(h: Host): set<AppId> {
    set id | id in h.desired && id !in h.apps
  }

  function AppsAfter(h: Host, outcomes: AppId -> Outcome, done: set<AppId>): map<AppId, Runtime>
    requires done <= StartableApps(h)
  {
    map id | id in h.apps.Keys + done && (id in h.apps || outcomes(id).Starts?) ::
      if id in h.apps then h.apps[id] else Runtime(h.desired[id], BindingsFor(h, id))
  }

  function LeasesAfter(h: Host, outcomes: AppId -> Outcome, done: set<AppId>): map<AppId, bool> {
    map id | id in h.leases.Keys + done && (id in h.leases || outcomes(id).Starts?) ::
      if id in done && outcomes(id).Starts? then true else h.leases[id]
  }

  function AssignmentsAfter(h: Host, outcomes: AppId -> Outcome, done: set<AppId>): map<AppId, Assignment> {
    map id | id in h.assignments :: if id in done then Assigned(outcomes(id), h.assignments[id]) else h.assignments[id]
  }

  /** Reconciliation of some of the candidates. */
  function ReconcileSome(h: Host, outcomes: AppId -> Outcome, done: set<AppId>): Host
    requires done <= StartableApps(h)
  {
    h.(apps := AppsAfter(h, outcomes, done), leases := LeasesAfter(h, outcomes, done),
       assignments := AssignmentsAfter(h, outcomes, done))
  }

  lemma AppsOneMore(h: Host, outcomes: AppId -> Outcome, done: set<AppId>, id: AppId)
    requires done <= StartableApps(h) && id in StartableApps(h) && id !in done
    ensures AppsAfter(h, outcomes, done + {id}) ==
      if outcomes(id).Starts? then AppsAfter(h, outcomes, done)[id := Runtime(h.desired[id], BindingsFor(h, id))]
      else AppsAfter(h, outcomes, done)
  {
  }

  lemma LeasesOneMore(h: Host, outcomes: AppId -> Outcome, done: set<AppId>, id: AppId)
    requires id !in h.leases && id !in done
    ensures LeasesAfter(h, outcomes, done + {id}) ==
      if outcomes(id).Starts? then LeasesAfter(h, outcomes, done)[id := true] else LeasesAfter(h, outcomes, done)
  {
  }

  lemma AssignmentsOneMore(h: Host, outcomes: AppId -> Outcome, done: set<AppId>, id: AppId)
    requires id in h.assignments && id !in done
    ensures id in AssignmentsAfter(h, outcomes, done)
    ensures AssignmentsAfter(h, outcomes, done + {id}) ==
      AssignmentsAfter(h, outcomes, done)[id := Assigned(outcomes(id), AssignmentsAfter(h, outcomes, done)[id])]
  {
  }

  lemma StartOneAs(h: Host, id: AppId, outcome: Outcome)
    requires Startable(h, id) && id in h.assignments
    ensures var r := StartOne(h, id, outcome);
      r.started == h.started && r.platform == h.platform && r.activeRevisionId == h.activeRevisionId &&
      r.desired == h.desired && r.bindingsByApp == h.bindingsByApp &&
      r.apps == (if outcome.Starts? then h.apps[id := Runtime(h.desired[id], BindingsFor(h, id))] else h.apps) &&
      r.leases == (if outcome.Starts? then h.leases[id := true] else h.leases) &&
      r.assignments == h.assignments[id := Assigned(outcome, h.assignments[id])]
  {
    assert h.assignments == h.assignments[id := h.assignments[id]];
  }

  /** Whatever the order, one more start is one more candidate done. */
  lemma StartOneMore(h: Host, outcomes: AppId -> Outcome, done: set<AppId>, id: AppId)
    requires done <= StartableApps(h) && id in StartableApps(h) - done && id in h.assignments && id !in h.leases
    ensures Startable(ReconcileSome(h, outcomes, done), id)
    ensures StartOne(ReconcileSome(h, outcomes, done), id, outcomes(id)) == ReconcileSome(h, outcomes, done + {id})
  {
    AppsOneMore(h, outcomes, done, id);
    LeasesOneMore(h, outcomes, done, id);
    AssignmentsOneMore(h, outcomes, done, id);
    StartOneAs(ReconcileSome(h, outcomes, done), id, outcomes(id));
  }

  lemma ReconcileNone(h: Host, outcomes: AppId -> Outcome)
    ensures ReconcileSome(h, outcomes, {}) == h
  {
    var r := ReconcileSome(h, outcomes, {});
    assert r.apps == h.apps && r.leases == h.leases && r.assignments == h.assignments;
  }

  lemma ReconcileEvery(h: Host, outcomes: AppId -> Outcome)
    requires KeysInv(h)
    ensures ReconcileSome(h, outcomes, StartableApps(h)) == Reconcile(h, outcomes)
  {
    var r, t := ReconcileSome(h, outcomes, StartableApps(h)), Reconcile(h, outcomes);
    assert r.apps == t.apps;
    assert r.leases == t.leases;
    assert r.assignments == t.assignments;
  }

  /** The apps among `done` that have lost their lease are gone. */
  function DropSome(h: Host, done: set<AppId>): Host {
    h.(apps := map id | id in h.apps && !(id in done && Lost(h, id)) :: h.apps[id],
       leases := map id | id in h.leases && !(id in done && Lost(h, id)) :: h.leases[id],
       assignments := map id | id in h.assignments :: if id in done && Lost(h, id) && id in h.desired then Pending
         else h.assignments[id])
  }

  function DropOne(h: Host, id: AppId): Host {
    h.(apps := h.apps - {id}, leases := h.leases - {id},
       assignments := if id in h.desired then h.assignments[id := Pending] else h.assignments)
  }

  lemma DropOneMore(h: Host, done: set<AppId>, id: AppId)
    requires done <= h.apps.Keys && id in h.apps && id !in done && (id in h.desired ==> id in h.assignments)
    ensures DropSome(h, done + {id}) == if Lost(h, id) then DropOne(DropSome(h, done), id) else DropSome(h, done)
    ensures Lost(DropSome(h, done), id) <==> Lost(h, id)
  {
    var s, t := DropSome(h, done), DropSome(h, done + {id});
    var r := if Lost(h, id) then DropOne(s, id) else s;
    assert r.apps == t.apps;
    assert r.leases == t.leases;
    assert r.assignments == t.assignments;
  }

  lemma DropNone(h: Host)
    ensures DropSome(h, {}) == h
  {
    var r := DropSome(h, {});
    assert r.apps == h.apps && r.leases == h.leases && r.assignments == h.assignments;
  }

  lemma DropEvery(h: Host)
    ensures DropSome(h, h.apps.Keys) == DropLost(h)
  {
    var r, t := DropSome(h, h.apps.Keys), DropLost(h);
    assert r.apps == t.apps;
    assert r.leases == t.leases;
    assert r.assignments == t.assignments;
  }

  /** The assignments once those of changed and departed apps are reset. */
  function Reset(assignments: map<AppId, Assignment>, desired: map<AppId, App>, changed: set<AppId>)
    : map<AppId, Assignment>
  {
    var kept := map id | id in assignments && id in desired :: assignments[id];
    map id | id in desired :: if id !in changed && id in kept then kept[id] else Pending
  }

  /** The switch to a new configuration, with the set of changed apps at hand. */
  function SwitchedBy(env: Env, h: Host, p: Platform, revision: Option<nat>, changed: set<AppId>): Host {
    var desired := Desired(env, p.apps);
    Host(h.started, p, revision, desired, Group(p.bindings), h.apps - changed, h.leases - changed,
         Reset(h.assignments, desired, changed))
  }

  lemma SwitchedBySets(env: Env, h: Host, p: Platform, revision: Option<nat>, changed: set<AppId>)
    requires forall id :: id in changed <==> Changed(env, h, p, id)
    ensures SwitchedBy(env, h, p, revision, changed) == Switched(env, h, p, revision)
  {
    AppsBySets(env, h, p, changed);
    LeasesBySets(env, h, p, changed);
    AssignmentsBySets(env, h, p, changed);
  }

  lemma AssignmentsBySets(env: Env, h: Host, p: Platform, changed: set<AppId>)
    requires forall id :: id in changed <==> Changed(env, h, p, id)
    ensures (map id | id in Desired(env, p.apps) ::
             if !Changed(env, h, p, id) && id in h.assignments then h.assignments[id] else Pending) ==
      Reset(h.assignments, Desired(env, p.apps), changed)
  {
  }

  lemma AppsBySets(env: Env, h: Host, p: Platform, changed: set<AppId>)
    requires forall id :: id in changed <==> Changed(env, h, p, id)
    ensures (map id | id in h.apps && !Changed(env, h, p, id) :: h.apps[id]) == h.apps - changed
  {
  }

  lemma LeasesBySets(env: Env, h: Host, p: Platform, changed: set<AppId>)
    requires forall id :: id in changed <==> Changed(env, h, p, id)
    ensures (map id | id in h.leases && !Changed(env, h, p, id) :: h.leases[id]) == h.leases - changed
  {
  }

  lemma NothingRuns(h: Host)
    requires KeysInv(h) && h.desired == map[]
    ensures h.apps == map[] && h.leases == map[]
  {
    assert h.apps.Keys == {} == h.leases.Keys;
  }

  lemma StartKeepsInv(env: Env, h: Host, p: Platform, revision: Option<nat>, failure: Option<Failure>,
                      outcomes: AppId -> Outcome)
    requires Inv(env, h) && Idle(h) && Loadable(env, p)
    requires failure.Some? && failure.value.Refused? ==> failure.value.admitted < |p.bindings|
    ensures failure.Some? ==> Inv(env, FailedStartStep(env, h, FailedStart(p, revision, failure.value)))
    ensures failure.None? && h.bindingsByApp == map[] ==> Inv(env, StartStep(env, h, Op.Start(p, revision, outcomes)))
  {
    if failure.Some? {
      StepKeepsInv(env, h, FailedStart(p, revision, failure.value));
    } else if h.bindingsByApp == map[] {
      StepKeepsInv(env, h, Op.Start(p, revision, outcomes));
    }
  }

  // ---------------------------------------------------------------- the mutable host

  class PlatformHost {
    const env: Env
    var started: bool
    var platform: Platform
    var activeRevisionId: Option<nat>
    var desiredApps: map<AppId, App>
    var bindingsByApp: map<AppId, seq<Binding>>
    var apps: map<AppId, Runtime>
    var leases: map<AppId, bool>
    var assignments: map<AppId, Assignment>
    var startingApps: set<AppId>

    ghost function Snapshot(): Host
      reads this
    {
      Host(started, platform, activeRevisionId, desiredApps, bindingsByApp, apps, leases, assignments)
    }

    /** Nothing is being started between lifecycle operations. */
    ghost predicate Valid()
      reads this
    {
      Inv(env, Snapshot()) && startingApps == {}
    }

    constructor (env: Env)
      ensures Valid() && Snapshot() == EMPTY && this.env == env
    {
      this.env := env;
      started, platform, activeRevisionId := false, Platform([], []), None;
      desiredApps, bindingsByApp, apps, leases, assignments, startingApps := map[], map[], map[], map[], map[], {};
    }

    method SetAssignment(id: AppId, state: Assignment)
      modifies this`assignments
      ensures assignments == if id in desiredApps then old(assignments)[id := state] else old(assignments)
    {
      if id !in desiredApps {
        return;
      }
      assignments := assignments[id := state];
    }

    method TryStartApp(app: App, outcome: Outcome)
      requires Startable(Snapshot(), app.id) && desiredApps[app.id] == app && app.id !in startingApps
      modifies this
      ensures Snapshot() == StartOne(old(Snapshot()), app.id, outcome) && startingApps == old(startingApps)
    {
      startingApps := startingApps + {app.id};
      match outcome {
        case NoLease =>
          SetAssignment(app.id, Standby);
        case Stopping =>
        case StartFails =>
          SetAssignment(app.id, Failed);
        case Starts =>
          var runtime := Runtime(app, Lookup(bindingsByApp, app.id));
          leases := leases[app.id := true];
          apps := apps[app.id := runtime];
          SetAssignment(app.id, Running);
      }
      startingApps := startingApps - {app.id};
    }

    /** Tries one of the candidates left. */
    method TryNext(ghost h: Host, candidates: set<AppId>, rest: set<AppId>, outcomes: AppId -> Outcome)
      returns (left: set<AppId>)
      requires candidates <= StartableApps(h) && rest <= candidates && rest != {} && startingApps == {}
      requires forall id :: id in candidates ==> h.desired[id].id == id && id in h.assignments && id !in h.leases
      requires Snapshot() == ReconcileSome(h, outcomes, candidates - rest)
      modifies this
      ensures left < rest && Snapshot() == ReconcileSome(h, outcomes, candidates - left) && startingApps == {}
    {
      var id := Pick(rest);
      StartOneMore(h, outcomes, candidates - rest, id);
      CollectedSoFar(candidates, rest, id);
      TryStartApp(desiredApps[id], outcomes(id));
      left := rest - {id};
    }

    /** Tries the candidates one by one, in any order. */
    method TryAll(candidates: set<AppId>, outcomes: AppId -> Outcome)
      requires candidates <= StartableApps(Snapshot()) && startingApps == {}
      requires forall id :: id in candidates ==> desiredApps[id].id == id && id in assignments && id !in leases
      modifies this
      ensures Snapshot() == ReconcileSome(old(Snapshot()), outcomes, candidates) && startingApps == {}
    {
      ghost var h := Snapshot();
      var rest := candidates;
      ReconcileNone(h, outcomes);
      assert candidates - rest == {};
      while rest != {}
        invariant rest <= candidates
        invariant Snapshot() == ReconcileSome(h, outcomes, candidates - rest) && startingApps == {}
        decreases rest
      {
        rest := TryNext(h, candidates, rest, outcomes);
      }
      assert candidates - rest == candidates;
    }

    method ReconcileApps(outcomes: AppId -> Outcome)
      requires KeysInv(Snapshot()) && startingApps == {}
      requires forall id :: id in desiredApps ==> desiredApps[id].id == id
      modifies this
      ensures Snapshot() == Reconcile(old(Snapshot()), outcomes) && startingApps == {}
    {
      ReconcileEvery(Snapshot(), outcomes);
      var candidates := desiredApps.Keys - apps.Keys - startingApps;
      assert candidates == StartableApps(Snapshot());
      TryAll(candidates, outcomes);
    }

    /** The apps that join, leave or would be built differently. */
    method ChangedApps(next: Platform) returns (changed: set<AppId>)
      ensures forall id :: id in changed <==> Changed(env, Snapshot(), next, id)
    {
      var nextDesired, nextBindings := Desired(env, next.apps), Group(next.bindings);
      var rest := desiredApps.Keys + nextDesired.Keys;
      changed := {};
      while rest != {}
        invariant rest <= desiredApps.Keys + nextDesired.Keys
        invariant forall id :: id in changed <==> id !in rest && Changed(env, Snapshot(), next, id)
        decreases |rest|
      {
        var id := Pick(rest);
        if id !in desiredApps || id !in nextDesired ||
           env.signature(desiredApps[id], Lookup(bindingsByApp, id)) !=
           env.signature(nextDesired[id], Lookup(nextBindings, id)) {
          changed := changed + {id};
        }
        rest := rest - {id};
      }
    }

    /** Stops what changed and puts the new configuration in force. */
    method Switch(next: Platform, revision: Option<nat>, changed: set<AppId>)
      modifies this
      ensures Snapshot() == SwitchedBy(env, old(Snapshot()), next, revision, changed) &&
        startingApps == old(startingApps)
    {
      apps, leases := apps - changed, leases - changed;
      platform, activeRevisionId := next, revision;
      bindingsByApp, desiredApps := Group(next.bindings), Desired(env, next.apps);
      assignments := Reset(assignments, desiredApps, changed);
    }

    /** Pushes the bindings onto the groups, up to the one that the model policy refuses. */
    method PushBindings(bindings: seq<Binding>, failure: Option<Failure>) returns (ok: bool)
      modifies this`bindingsByApp
      ensures ok <==> !(failure.Some? && failure.value.Refused? && failure.value.admitted < |bindings|)
      ensures bindingsByApp == Pushed(old(bindingsByApp), if ok then bindings else bindings[..failure.value.admitted])
    {
      var i := 0;
      while i < |bindings|
        invariant 0 <= i <= |bindings|
        invariant bindingsByApp == Pushed(old(bindingsByApp), bindings[..i])
        invariant failure.Some? && failure.value.Refused? ==> i <= failure.value.admitted
      {
        if failure == Some(Refused(i)) {
          return false;
        }
        assert bindings[..i + 1][..i] == bindings[..i];
        bindingsByApp := bindingsByApp[bindings[i].app := Lookup(bindingsByApp, bindings[i].app) + [bindings[i]]];
        i := i + 1;
      }
      assert bindings[..i] == bindings;
      return true;
    }

    /** What the host desires from now on; nothing runs yet. */
    method Desire(next: Platform)
      modifies this`desiredApps, this`assignments
      ensures desiredApps == Desired(env, next.apps) && assignments == map id | id in Desired(env, next.apps) :: Pending
    {
      desiredApps := Desired(env, next.apps);
      assignments := map id | id in desiredApps :: Pending;
    }

    /** Checks the configuration and takes it in, as far as the checks let it. */
    method TakeIn(next: Platform, revision: Option<nat>, failure: Option<Failure>) returns (ok: bool)
      requires failure.Some? && failure.value.Refused? ==> failure.value.admitted < |next.bindings|
      requires apps == map[] && leases == map[]
      modifies this
      ensures startingApps == old(startingApps) && (ok <==> failure.None? || failure.value.ServersFail?)
      ensures Snapshot() ==
        if ok then TakenIn(env, old(Snapshot()), next, revision)
        else FailedStartStep(env, old(Snapshot()), FailedStart(next, revision, failure.value))
    {
      platform, activeRevisionId := next, revision;
      if failure == Some(Undeployable) {
        return false;
      }
      ok := PushBindings(next.bindings, failure);
      if ok {
        Desire(next);
      }
    }

    method StartUp(outcomes: AppId -> Outcome)
      requires KeysInv(Snapshot()) && startingApps == {}
      requires forall id :: id in desiredApps ==> desiredApps[id].id == id
      modifies this
      ensures Snapshot() == Reconcile(old(Snapshot()), outcomes).(started := true) && startingApps == {}
    {
      ReconcileApps(outcomes);
      started := true;
    }

    /** The cleanup when the broker or a server does not come up. */
    method StopAfterFailedStart()
      requires !started
      modifies this
      ensures Snapshot() == Stopped(old(Snapshot())) && startingApps == old(startingApps)
    {
      apps, leases, desiredApps, assignments, bindingsByApp := map[], map[], map[], map[], map[];
    }

    method Start(next: Platform, revision: Option<nat>, failure: Option<Failure>, outcomes: AppId -> Outcome)
      returns (r: Result<bool, Error>)
      requires Valid() && Loadable(env, next)
      requires failure.Some? && failure.value.Refused? ==> failure.value.admitted < |next.bindings|
      modifies this
      ensures old(bindingsByApp) == map[] || !Idle(old(Snapshot())) || failure.Some? ==> Valid()
      ensures !Idle(old(Snapshot())) ==> r == Err(AlreadyRunning) && Snapshot() == old(Snapshot())
      ensures Idle(old(Snapshot())) && failure.Some? ==>
        r == Err(if failure.value.ServersFail? then BrokerFailed else Rejected) &&
        Snapshot() == FailedStartStep(env, old(Snapshot()), FailedStart(next, revision, failure.value))
      ensures Idle(old(Snapshot())) && failure.None? ==>
        r == Ok(true) && Snapshot() == StartStep(env, old(Snapshot()), Op.Start(next, revision, outcomes))
    {
      if started || desiredApps != map[] {
        return Err(AlreadyRunning);
      }
      ghost var h := Snapshot();
      StartKeepsInv(env, h, next, revision, failure, outcomes);
      NothingRuns(h);
      var ok := TakeIn(next, revision, failure);
      if !ok {
        return Err(Rejected);
      }
      if failure == Some(ServersFail) {
        StopAfterFailedStart();
        return Err(BrokerFailed);
      }
      StartUp(outcomes);
      return Ok(true);
    }

    method ApplyPlatformConfig(next: Platform, revision: Option<nat>, deployable: bool, brokerStarts: bool,
                               outcomes: AppId -> Outcome)
      returns (r: Result<bool, Error>)
      requires Valid() && Loadable(env, next)
      modifies this
      ensures Valid()
      ensures var op := ApplyConfig(next, revision, deployable, brokerStarts, outcomes);
        Snapshot() == ApplyStep(env, old(Snapshot()), op) && r == ApplyResult(env, old(Snapshot()), op)
    {
      ghost var h, op := Snapshot(), ApplyConfig(next, revision, deployable, brokerStarts, outcomes);
      StepKeepsInv(env, h, op);
      if !started {
        return Err(NotRunning);
      }
      if !deployable {
        return Err(Rejected);
      }
      SwitchedKeepsKeys(env, h, next, revision);
      var changed := ChangedApps(next);
      SwitchedBySets(env, h, next, revision, changed);
      Switch(next, revision, changed);
      if !brokerStarts {
        return Err(BrokerFailed);
      }
      ReconcileApps(outcomes);
      var failed := set id | id in changed && id in assignments && assignments[id].Failed?;
      if failed != {} {
        var id := Pick(failed);
        assert id in ApplyStep(env, h, op).assignments && Changed(env, h, next, id);
        return Err(StartFailed);
      }
      assert forall id :: id in changed && id in assignments ==> id !in failed;
      r := Ok(true);
    }

    method DropIfLost(id: AppId)
      requires id in apps
      modifies this
      ensures Snapshot() == (if Lost(old(Snapshot()), id) then DropOne(old(Snapshot()), id) else old(Snapshot()))
      ensures startingApps == old(startingApps)
    {
      if !(id in leases && leases[id]) {
        apps := apps - {id};
        leases := leases - {id};
        SetAssignment(id, Pending);
      }
    }

    /** Stops every app whose lease is no longer acquired. */
    method StopLost()
      requires forall id :: id in apps && id in desiredApps ==> id in assignments
      modifies this
      ensures Snapshot() == DropLost(old(Snapshot())) && startingApps == old(startingApps)
    {
      ghost var h := Snapshot();
      DropEvery(h);
      var rest := apps.Keys;
      DropNone(h);
      assert h.apps.Keys - rest == {};
      while rest != {}
        invariant rest <= h.apps.Keys
        invariant Snapshot() == DropSome(h, h.apps.Keys - rest) && startingApps == old(startingApps)
        decreases |rest|
      {
        var id := Pick(rest);
        DropOneMore(h, h.apps.Keys - rest, id);
        CollectedSoFar(h.apps.Keys, rest, id);
        DropIfLost(id);
        rest := rest - {id};
      }
      assert h.apps.Keys - rest == h.apps.Keys;
    }

    /** The lease object of a running app notices that it has lost its row. */
    method OnLeaseLost(id: AppId)
      requires Valid() && id in leases
      modifies this
      ensures Valid() && Snapshot() == Apply(env, old(Snapshot()), LoseLease(id))
    {
      StepKeepsInv(env, Snapshot(), LoseLease(id));
      leases := leases[id := false];
    }

    method RunMaintenance(outcomes: AppId -> Outcome)
      requires Valid()
      modifies this
      ensures Valid() && Snapshot() == Apply(env, old(Snapshot()), Maintenance(outcomes))
    {
      ghost var h := Snapshot();
      StepKeepsInv(env, h, Maintenance(outcomes));
      if !started {
        return;
      }
      DropLostKeepsInv(env, h);
      StopLost();
      ReconcileApps(outcomes);
    }

    method Stop()
      requires Valid()
      modifies this
      ensures Valid() && Snapshot() == Stopped(old(Snapshot()))
    {
      started := false;
      apps, leases := map[], map[];
      startingApps := {};
      desiredApps, assignments, bindingsByApp := map[], map[], map[];
    }
  }
}
