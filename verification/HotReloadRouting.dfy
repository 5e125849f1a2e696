/** What skipping a restart means for messages: the router a kept app still has answers exactly like
    one built from the bindings now in force. */
module HotReloadRouting {
  import opened BindingRouter
  import opened RouteValidation
  import opened RoutingTheorems
  import opened RuntimeSignature
  import opened HotReload

  /** The host's real signature and route check. */
  ghost function RoutingEnv(loc: Locale, inShard: AppId -> bool): Env {
    Env((app: App, bindings: seq<Binding>) => SignatureOf(loc, app.definition, bindings), inShard,
        (bindings: seq<Binding>) => RoutesAccepted(bindings) && forall b :: b in bindings ==> Loaded(loc, b))
  }

  /** The host's grouping gives each app the bindings that the load-time check looked at, in the same
      order. */
  lemma {:induction false} GroupIsAssigned(bindings: seq<Binding>, app: string)
    ensures Lookup(Group(bindings), app) == AssignedTo(app, bindings)
  {
    if bindings != [] {
      var front, last := bindings[..|bindings| - 1], bindings[|bindings| - 1];
      GroupIsAssigned(front, app);
      GroupIsAssigned(front, last.app);
      AssignedInParts(app, front, [last]);
      assert bindings == front + [last];
      assert AssignedTo(app, [last]) == if last.app == app then [last] else [];
    }
  }

  /** A platform that the load-time check accepts is one the host may be given. */
  lemma ValidatedPlatformsAreLoadable(loc: Locale, inShard: AppId -> bool, p: Platform)
    requires forall a :: a in p.apps ==> RoutesAccepted(AssignedTo(a.id, p.bindings))
    requires forall b :: b in p.bindings ==> Loaded(loc, b)
    ensures Loadable(RoutingEnv(loc, inShard), p)
  {
    var env := RoutingEnv(loc, inShard);
    forall id | id in Desired(env, p.apps)
      ensures env.accepted(Lookup(Group(p.bindings), id))
    {
      GroupIsAssigned(p.bindings, id);
      assert Desired(env, p.apps)[id] in p.apps;
    }
  }

  lemma SameSignatureSameAnswers(loc: Locale, a: Runtime, b: Runtime, m: Message)
    requires RoutesAccepted(a.bindings) && RoutesAccepted(b.bindings)
    requires (forall x :: x in a.bindings ==> Loaded(loc, x)) && forall x :: x in b.bindings ==> Loaded(loc, x)
    requires SignatureOf(loc, a.app.definition, a.bindings) == SignatureOf(loc, b.app.definition, b.bindings)
    ensures SameAnswer(Resolve(loc, a.bindings, m), Resolve(loc, b.bindings, m))
  {
    assert SignatureOf(loc, a.app.definition, b.bindings) == SignatureOf(loc, b.app.definition, b.bindings);
    SameSignatureSameRouting(loc, a.app.definition, a.bindings, b.bindings, m);
  }

  /** After any run of configurations that passed the route check, every running app routes every
      message to the binding, and with the content, that its present configuration prescribes; no
      message is refused as ambiguous. */
  lemma RunningRoutersAreCurrent(loc: Locale, inShard: AppId -> bool, ops: seq<Op>, id: AppId, m: Message)
    requires id in Run(RoutingEnv(loc, inShard), EMPTY, ops).apps
    ensures var h := Run(RoutingEnv(loc, inShard), EMPTY, ops);
      RoutesAccepted(h.apps[id].bindings) && RoutesAccepted(BindingsFor(h, id)) &&
      SameAnswer(Resolve(loc, h.apps[id].bindings, m), Resolve(loc, BindingsFor(h, id), m))
  {
    RunKeepsInv(RoutingEnv(loc, inShard), EMPTY, ops);
    RouterIsCurrent(loc, inShard, Run(RoutingEnv(loc, inShard), EMPTY, ops), id, m);
  }

  lemma RouterIsCurrent(loc: Locale, inShard: AppId -> bool, h: Host, id: AppId, m: Message)
    requires Inv(RoutingEnv(loc, inShard), h) && id in h.apps
    ensures RoutesAccepted(h.apps[id].bindings) && RoutesAccepted(BindingsFor(h, id)) &&
      SameAnswer(Resolve(loc, h.apps[id].bindings, m), Resolve(loc, BindingsFor(h, id), m))
  {
    var env := RoutingEnv(loc, inShard);
    assert id in h.desired;
    assert env.accepted(h.apps[id].bindings) && env.accepted(BindingsFor(h, id));
    SameSignatureSameAnswers(loc, h.apps[id], Runtime(h.desired[id], BindingsFor(h, id)), m);
  }
}
