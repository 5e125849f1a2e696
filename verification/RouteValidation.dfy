/** The load-time check on the bindings of each app. */
module RouteValidation {
  import opened Wrappers
  import opened SetFacts
  import opened BindingRouter

  predicate SelectorsOverlap(left: seq<string>, right: seq<string>) {
    left == [] || right == [] || exists v :: v in left && v in right
  }

  predicate RoutesCanTie(left: Route, right: Route) {
    left.priority == right.priority &&
    if left.commandPrefixes != [] || right.commandPrefixes != [] then
      exists p :: p in left.commandPrefixes && p in right.commandPrefixes
    else
      Specificity(left) == Specificity(right) &&
      SelectorsOverlap(left.chatAllowlist, right.chatAllowlist) &&
      SelectorsOverlap(left.userAllowlist, right.userAllowlist) &&
      SelectorsOverlap(left.threadAllowlist, right.threadAllowlist)
  }

  predicate Lists(b: Binding, x: int, p: string) {
    0 <= x < |b.route.commandPrefixes| && b.route.commandPrefixes[x] == p
  }

  /** No command prefix is listed twice, neither by two bindings nor within one. */
  ghost predicate PrefixesOwnedOnce(bindings: seq<Binding>) {
    forall i, j, x, y, p | 0 <= i < |bindings| && 0 <= j < |bindings| && Lists(bindings[i], x, p) &&
    Lists(bindings[j], y, p) ::
      i == j && x == y
  }

  function Dynamic(bindings: seq<Binding>): (r: seq<Binding>)
    ensures forall b :: b in r <==> b in bindings && !b.route.default
  {
    if bindings == [] then []
    else (if bindings[0].route.default then [] else [bindings[0]]) + Dynamic(bindings[1..])
  }

  ghost predicate NoPairCanTie(dynamic: seq<Binding>) {
    forall i, j :: 0 <= i < j < |dynamic| ==> !RoutesCanTie(dynamic[i].route, dynamic[j].route)
  }

  ghost predicate RoutesAccepted(group: seq<Binding>) {
    |Defaults(group)| == 1 && PrefixesOwnedOnce(group) && NoPairCanTie(Dynamic(group))
  }

  /** The `lark-cli` profile of an agent that uses it: root, executable and version, serialized. */
  type Profiles = string -> Option<string>

  /** The agents of these bindings that use a profile use the same one. */
  ghost predicate OneProfile(profile: Profiles, group: seq<Binding>) {
    forall a, b :: a in group && b in group && profile(a.agent).Some? && profile(b.agent).Some? ==>
      profile(a.agent) == profile(b.agent)
  }

  ghost predicate AppAccepted(profile: Profiles, group: seq<Binding>) {
    RoutesAccepted(group) && OneProfile(profile, group)
  }

  function AssignedTo(app: string, bindings: seq<Binding>): (r: seq<Binding>)
    ensures forall b :: b in r <==> b in bindings && b.app == app
  {
    if bindings == [] then []
    else (if bindings[0].app == app then [bindings[0]] else []) + AssignedTo(app, bindings[1..])
  }

  lemma Associative(a: seq<Binding>, b: seq<Binding>, c: seq<Binding>)
    ensures a + (b + c) == (a + b) + c
  {
  }

  lemma {:induction false} AssignedInParts(app: string, a: seq<Binding>, b: seq<Binding>)
    ensures AssignedTo(app, a + b) == AssignedTo(app, a) + AssignedTo(app, b)
  {
    if a == [] {
      assert a + b == b;
    } else {
      AssignedInParts(app, a[1..], b);
      assert (a + b)[0] == a[0] && (a + b)[1..] == a[1..] + b;
      Associative(if a[0].app == app then [a[0]] else [], AssignedTo(app, a[1..]), AssignedTo(app, b));
    }
  }

  /** Fills the prefix table; fails on the first prefix that already has an owner. */
  method CheckPrefixes(group: seq<Binding>) returns (ok: bool)
    ensures ok <==> PrefixesOwnedOnce(group)
  {
    var prefixes: map<string, string> := map[];
    var i := 0;
    while i < |group|
      invariant 0 <= i <= |group|
      invariant PrefixesOwnedOnce(group[..i])
      invariant forall p :: p in prefixes <==> Listed(group, i, 0, p)
    {
      var own := group[i].route.commandPrefixes;
      var x := 0;
      while x < |own|
        invariant 0 <= x <= |own|
        invariant forall y, z, p :: 0 <= y < x && 0 <= z < x && Lists(group[i], y, p) && Lists(group[i], z, p) ==>
          y == z
        invariant forall y, p :: 0 <= y < x && Lists(group[i], y, p) ==> !Listed(group, i, 0, p)
        invariant forall p :: p in prefixes <==> Listed(group, i, x, p)
      {
        assert Lists(group[i], x, own[x]);
        if own[x] in prefixes {
          return false;
        }
        prefixes := prefixes[own[x] := group[i].id];
        x := x + 1;
      }
      OneMoreBinding(group, i);
      i := i + 1;
    }
    assert group[..i] == group;
    return true;
  }

  /** `p` is among the prefixes of the first `i` bindings or the first `x` of the next one. */
  ghost predicate Listed(bindings: seq<Binding>, i: nat, x: nat, p: string)
    requires i <= |bindings| && (x > 0 ==> i < |bindings|)
  {
    (exists j, y :: 0 <= j < i && Lists(bindings[j], y, p)) || (exists y :: 0 <= y < x && Lists(bindings[i], y, p))
  }

  lemma OneMoreBinding(bindings: seq<Binding>, i: nat)
    requires i < |bindings| && PrefixesOwnedOnce(bindings[..i])
    requires forall y, z, p :: Lists(bindings[i], y, p) && Lists(bindings[i], z, p) ==> y == z
    requires forall y, p :: Lists(bindings[i], y, p) ==> !Listed(bindings, i, 0, p)
    ensures PrefixesOwnedOnce(bindings[..i + 1])
  {
    var b := bindings[..i + 1];
    assert forall j :: 0 <= j < i ==> b[j] == bindings[..i][j];
  }

  method CheckPairs(dynamic: seq<Binding>) returns (ok: bool)
    ensures ok <==> NoPairCanTie(dynamic)
  {
    var left := 0;
    while left < |dynamic|
      invariant 0 <= left <= |dynamic|
      invariant forall i, j :: 0 <= i < j < |dynamic| && i < left ==> !RoutesCanTie(dynamic[i].route, dynamic[j].route)
    {
      var right := left + 1;
      while right < |dynamic|
        invariant left < right <= |dynamic|
        invariant forall j :: left < j < right ==> !RoutesCanTie(dynamic[left].route, dynamic[j].route)
      {
        if RoutesCanTie(dynamic[left].route, dynamic[right].route) {
          return false;
        }
        right := right + 1;
      }
      left := left + 1;
    }
    return true;
  }

  function CliProfiles(profile: Profiles, group: seq<Binding>): set<string> {
    set b | b in group && profile(b.agent).Some? :: profile(b.agent).value
  }

  lemma OneProfileIffFew(profile: Profiles, group: seq<Binding>)
    ensures |CliProfiles(profile, group)| <= 1 <==> OneProfile(profile, group)
  {
    var profiles := CliProfiles(profile, group);
    forall a, b | a in group && b in group && profile(a.agent).Some? && profile(b.agent).Some? && |profiles| <= 1
      ensures profile(a.agent) == profile(b.agent)
    {
      var p, q := profile(a.agent).value, profile(b.agent).value;
      if p != q {
        assert {p, q} <= profiles;
        SubsetSize({p, q}, profiles);
      }
    }
    if OneProfile(profile, group) && profiles != {} {
      var p :| p in profiles;
      assert profiles == {p};
    }
  }

  /** The check of one app: one default, one profile, every prefix owned once, no pair that can tie. */
  method ValidateApp(profile: Profiles, group: seq<Binding>) returns (ok: bool)
    ensures ok <==> AppAccepted(profile, group)
  {
    if |Defaults(group)| != 1 {
      return false;
    }
    OneProfileIffFew(profile, group);
    if |CliProfiles(profile, group)| > 1 {
      return false;
    }
    ok := CheckPrefixes(group);
    if ok {
      ok := CheckPairs(Dynamic(group));
    }
  }

  method ValidateAppRoutes(profile: Profiles, apps: seq<string>, bindings: seq<Binding>) returns (ok: bool)
    ensures ok <==> forall app :: app in apps ==> AppAccepted(profile, AssignedTo(app, bindings))
  {
    var i := 0;
    while i < |apps|
      invariant 0 <= i <= |apps|
      invariant forall app :: app in apps[..i] ==> AppAccepted(profile, AssignedTo(app, bindings))
    {
      ok := ValidateApp(profile, AssignedTo(apps[i], bindings));
      assert apps[i] in apps && apps[..i + 1] == apps[..i] + [apps[i]];
      if !ok {
        return false;
      }
      i := i + 1;
    }
    assert apps[..i] == apps;
    return true;
  }
}
