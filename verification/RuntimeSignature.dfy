/** The signature by which the Host decides whether an app must be restarted, and why equal
    signatures mean equal routing. */
module RuntimeSignature {
  import opened Wrappers
  import opened Sorting
  import opened BindingRouter
  import opened RouteValidation
  import opened RoutingTheorems

  /** The parts of a binding that are serialized into the signature. */
  datatype BindingPart = BindingPart(id: string, route: Route, conversation: string, agent: string)

  datatype Signature = Signature(app: string, bindings: seq<BindingPart>)

  function Part(b: Binding): BindingPart {
    BindingPart(b.id, b.route, b.conversation, b.agent)
  }

  function ById(loc: Locale): (Binding, Binding) -> int {
    (left: Binding, right: Binding) => loc.rank(left.id) - loc.rank(right.id)
  }

  function Parts(bindings: seq<Binding>): seq<BindingPart> {
    seq(|bindings|, i requires 0 <= i < |bindings| => Part(bindings[i]))
  }

  /** `app` is the serialized app definition; serialization is taken to be injective. */
  function SignatureOf(loc: Locale, app: string, bindings: seq<Binding>): Signature {
    Signature(app, Parts(Sort(bindings, ById(loc))))
  }

  lemma SamePart(loc: Locale, a: seq<Binding>, b: seq<Binding>, x: Binding) returns (y: Binding)
    requires Parts(Sort(a, ById(loc))) == Parts(Sort(b, ById(loc))) && x in a
    ensures y in b && Part(y) == Part(x)
  {
    var s, t := Sort(a, ById(loc)), Sort(b, ById(loc));
    SameMembers(a, s);
    SameMembers(b, t);
    var i :| 0 <= i < |s| && s[i] == x;
    assert Parts(s)[i] == Parts(t)[i];
    y := t[i];
  }

  /** Matching looks at nothing outside the signature. */
  lemma PartDecidesMatch(loc: Locale, x: Binding, y: Binding, m: Message)
    requires Part(x) == Part(y)
    ensures Matches(loc, x, m) <==> Matches(loc, y, m)
    ensures Matches(loc, x, m) ==>
      var c, d := MatchBinding(loc, x, m).value, MatchBinding(loc, y, m).value;
      c.score == d.score && c.message == d.message && c.commandPrefix == d.commandPrefix
  {
  }

  lemma {:induction false} DefaultIsDefault(bindings: seq<Binding>)
    ensures forall b :: b in Defaults(bindings) <==> b in bindings && b.route.default
  {
    if bindings != [] {
      DefaultIsDefault(bindings[1..]);
    }
  }

  /** Two answers send the message to the same binding with the same content. */
  predicate SameAnswer(a: Result<RouteMatch, seq<string>>, b: Result<RouteMatch, seq<string>>) {
    a.Ok? && b.Ok? && Part(a.value.binding) == Part(b.value.binding) &&
    a.value.message == b.value.message && a.value.commandPrefix == b.value.commandPrefix
  }

  /** Equal signatures route every message alike, whatever order the bindings are in. */
  lemma SameSignatureSameRouting(loc: Locale, app: string, a: seq<Binding>, b: seq<Binding>, m: Message)
    requires RoutesAccepted(a) && RoutesAccepted(b)
    requires (forall x :: x in a ==> Loaded(loc, x)) && forall x :: x in b ==> Loaded(loc, x)
    requires SignatureOf(loc, app, a) == SignatureOf(loc, app, b)
    ensures SameAnswer(Resolve(loc, a, m), Resolve(loc, b, m))
  {
    AcceptedListsResolve(loc, a, m);
    AcceptedListsResolve(loc, b, m);
    if x :| x in a && Matches(loc, x, m) {
      var y := SamePart(loc, a, b, x);
      PartDecidesMatch(loc, x, y, m);
      var v, w := Resolve(loc, a, m).value.binding, Resolve(loc, b, m).value.binding;
      var v2 := SamePart(loc, a, b, v);
      var w2 := SamePart(loc, b, a, w);
      CounterpartIsBeaten(loc, b, m, w, v2, v);
      CounterpartIsBeaten(loc, a, m, v, w2, w);
      BestCorresponds(loc, m, v, w, v2, w2);
      PartDecidesMatch(loc, v, w, m);
    } else {
      forall y | y in b ensures !Matches(loc, y, m) {
        var x := SamePart(loc, b, a, y);
        PartDecidesMatch(loc, x, y, m);
      }
      SameDefault(loc, a, b);
    }
  }

  lemma CounterpartIsBeaten(loc: Locale, list: seq<Binding>, m: Message, best: Binding, other: Binding, x: Binding)
    requires UniqueBest(loc, list, m, best) && other in list && Part(other) == Part(x) && Matches(loc, x, m)
    ensures other == best || Beats(ScoreOf(loc, best, m), ScoreOf(loc, x, m))
  {
    PartDecidesMatch(loc, x, other, m);
    assert ScoreOf(loc, other, m) == ScoreOf(loc, x, m);
  }

  lemma NotBothBeat(s: Score, t: Score)
    ensures !(Beats(s, t) && Beats(t, s))
  {
  }

  /** The best of one list and the best of another that has each other's counterpart are alike. */
  lemma BestCorresponds(loc: Locale, m: Message, v: Binding, w: Binding, v2: Binding, w2: Binding)
    requires Matches(loc, v, m) && Matches(loc, w, m)
    requires v2 == w || Beats(ScoreOf(loc, w, m), ScoreOf(loc, v, m))
    requires w2 == v || Beats(ScoreOf(loc, v, m), ScoreOf(loc, w, m))
    requires Part(v2) == Part(v) && Part(w2) == Part(w)
    ensures Part(v) == Part(w)
  {
    NotBothBeat(ScoreOf(loc, v, m), ScoreOf(loc, w, m));
  }

  lemma SameDefault(loc: Locale, a: seq<Binding>, b: seq<Binding>)
    requires Parts(Sort(a, ById(loc))) == Parts(Sort(b, ById(loc))) && |Defaults(a)| == 1 && |Defaults(b)| == 1
    ensures Part(Defaults(a)[0]) == Part(Defaults(b)[0])
  {
    var d, e := Defaults(a)[0], Defaults(b)[0];
    assert Defaults(a) == [d] && Defaults(b) == [e];
    DefaultIsDefault(a);
    DefaultIsDefault(b);
    assert d in Defaults(a);
    var y := SamePart(loc, a, b, d);
    assert y in [e];
  }

  // ---------------------------------------------------------------- what the signature tells

  /** Everything but the configuration file. */
  predicate AlikeButFile(x: Binding, y: Binding) {
    x.id == y.id && x.route == y.route && x.conversation == y.conversation && x.agent == y.agent
  }

  ghost predicate HasAlike(b: seq<Binding>, x: Binding) {
    exists y :: y in b && AlikeButFile(x, y)
  }

  ghost predicate Covered(a: seq<Binding>, b: seq<Binding>) {
    forall x :: x in a ==> HasAlike(b, x)
  }

  /** The ids are unique, and the collation tells them apart. */
  ghost predicate DistinctIds(loc: Locale, a: seq<Binding>) {
    forall i, j :: 0 <= i < j < |a| ==> loc.rank(a[i].id) != loc.rank(a[j].id)
  }

  ghost predicate Ascending(loc: Locale, s: seq<Binding>) {
    forall i, j :: 0 <= i < j < |s| ==> loc.rank(s[i].id) < loc.rank(s[j].id)
  }

  lemma SameHead(loc: Locale, s: seq<Binding>, t: seq<Binding>)
    requires Ascending(loc, s) && Ascending(loc, t) && s != [] && t != []
    requires HasAlike(t, s[0]) && HasAlike(s, t[0])
    ensures AlikeButFile(s[0], t[0])
  {
    var y :| y in t && AlikeButFile(s[0], y);
    var x :| x in s && AlikeButFile(t[0], x);
    assert loc.rank(t[0].id) <= loc.rank(y.id) && loc.rank(s[0].id) <= loc.rank(x.id);
    assert y == t[0];
  }

  lemma CoveredTail(loc: Locale, s: seq<Binding>, t: seq<Binding>)
    requires Ascending(loc, s) && Ascending(loc, t) && Covered(s, t) && s != [] && t != [] && AlikeButFile(s[0], t[0])
    ensures Covered(s[1..], t[1..])
  {
    forall x | x in s[1..]
      ensures HasAlike(t[1..], x)
    {
      assert x in s && HasAlike(t, x);
      var y :| y in t && AlikeButFile(x, y);
      assert loc.rank(x.id) > loc.rank(s[0].id);
      assert y != t[0] && t == [t[0]] + t[1..];
    }
  }

  lemma {:induction false} AscendingAgree(loc: Locale, s: seq<Binding>, t: seq<Binding>)
    requires Ascending(loc, s) && Ascending(loc, t) && Covered(s, t) && Covered(t, s)
    ensures Parts(s) == Parts(t)
  {
    if s == [] || t == [] {
      assert s != [] ==> HasAlike(t, s[0]);
      assert t != [] ==> HasAlike(s, t[0]);
    } else {
      assert HasAlike(t, s[0]) && HasAlike(s, t[0]);
      SameHead(loc, s, t);
      CoveredTail(loc, s, t);
      CoveredTail(loc, t, s);
      AscendingAgree(loc, s[1..], t[1..]);
      PartsFront(s);
      PartsFront(t);
    }
  }

  lemma PartsFront(s: seq<Binding>)
    requires s != []
    ensures Parts(s) == [Part(s[0])] + Parts(s[1..])
  {
  }

  lemma {:induction false} RankOnce(loc: Locale, a: seq<Binding>, x: Binding, y: Binding)
    requires DistinctIds(loc, a) && loc.rank(x.id) == loc.rank(y.id)
    ensures multiset(a)[x] + (if x == y then 0 else multiset(a)[y]) <= 1
  {
    if a != [] {
      assert a == [a[0]] + a[1..];
      RankOnce(loc, a[1..], x, y);
      if loc.rank(a[0].id) == loc.rank(x.id) {
        assert forall b :: b in a[1..] ==> loc.rank(b.id) != loc.rank(x.id);
        assert x !in a[1..] && y !in a[1..];
        assert multiset(a[1..])[x] == 0 && multiset(a[1..])[y] == 0;
      }
    }
  }

  lemma ByIdSorts(loc: Locale, a: seq<Binding>)
    requires DistinctIds(loc, a)
    ensures Ascending(loc, Sort(a, ById(loc)))
  {
    var s, cmp := Sort(a, ById(loc)), ById(loc);
    assert Comparator(cmp);
    SortSorts(a, cmp);
    forall i, j | 0 <= i < j < |s|
      ensures loc.rank(s[i].id) < loc.rank(s[j].id)
    {
      assert cmp(s[i], s[j]) <= 0;
      if loc.rank(s[i].id) == loc.rank(s[j].id) {
        RankOnce(loc, a, s[i], s[j]);
        TwoPlaces(s, i, j);
      }
    }
  }

  lemma TwoPlaces(s: seq<Binding>, i: nat, j: nat)
    requires i < j < |s|
    ensures multiset(s)[s[i]] + (if s[i] == s[j] then 0 else multiset(s)[s[j]]) >= 2
  {
    assert s == s[..j] + s[j..];
    assert s[i] in s[..j] && s[j] in s[j..];
    assert multiset(s) == multiset(s[..j]) + multiset(s[j..]);
  }

  lemma CoveredBySort(a: seq<Binding>, b: seq<Binding>, s: seq<Binding>, t: seq<Binding>)
    requires multiset(a) == multiset(s) && multiset(b) == multiset(t) && Covered(a, b)
    ensures Covered(s, t)
  {
    SameMembers(a, s);
    SameMembers(b, t);
    forall x | x in s
      ensures HasAlike(t, x)
    {
      assert x in a && HasAlike(b, x);
      var y :| y in b && AlikeButFile(x, y);
      assert y in t;
    }
  }

  /** Two signatures are equal exactly when the app definitions are, and each binding of either list
      has a counterpart in the other with the same id, route, policy and agent. */
  lemma SignatureTells(loc: Locale, appA: string, a: seq<Binding>, appB: string, b: seq<Binding>)
    requires DistinctIds(loc, a) && DistinctIds(loc, b)
    ensures SignatureOf(loc, appA, a) == SignatureOf(loc, appB, b) <==> appA == appB && Covered(a, b) && Covered(b, a)
  {
    var s, t := Sort(a, ById(loc)), Sort(b, ById(loc));
    if appA == appB && Covered(a, b) && Covered(b, a) {
      ByIdSorts(loc, a);
      ByIdSorts(loc, b);
      CoveredBySort(a, b, s, t);
      CoveredBySort(b, a, t, s);
      AscendingAgree(loc, s, t);
    }
    if SignatureOf(loc, appA, a) == SignatureOf(loc, appB, b) {
      EqualPartsCover(s, t);
      EqualPartsCover(t, s);
      CoveredBySort(s, t, a, b);
      CoveredBySort(t, s, b, a);
    }
  }

  lemma EqualPartsCover(s: seq<Binding>, t: seq<Binding>)
    requires Parts(s) == Parts(t)
    ensures Covered(s, t)
  {
    forall x | x in s
      ensures HasAlike(t, x)
    {
      var i :| 0 <= i < |s| && s[i] == x;
      assert |t| == |Parts(s)|;
      assert Parts(s)[i] == Part(s[i]) && Parts(t)[i] == Part(t[i]);
      assert t[i] in t && AlikeButFile(x, t[i]);
    }
  }

  /** The content is white space, a text that reads as the prefix, and a rest that is empty or
      begins with white space. */
  predicate Splits(loc: Locale, content: string, prefix: string, lead: string, command: string, rest: string) {
    content == lead + command + rest && (forall i :: 0 <= i < |lead| ==> loc.space(lead[i])) &&
    Lower(loc, command) == prefix && (rest != "" ==> loc.space(loc.lower(rest[0])))
  }

  function Shown(loc: Locale, rest: string): string {
    if Trim(loc, rest) == "" then EMPTY_COMMAND_TEXT else Trim(loc, rest)
  }

  lemma ThreeParts(s: string, a: nat, b: nat)
    requires a <= b <= |s|
    ensures s == s[..a] + s[a..b] + s[b..]
  {
  }

  lemma LowerPart(loc: Locale, s: string, a: nat, n: nat, p: string)
    requires a + n <= |s| && |p| == n && StartsWith(Lower(loc, s[a..]), p)
    ensures Lower(loc, s[a..a + n]) == p
  {
    assert forall i :: 0 <= i < n ==> s[a..a + n][i] == s[a..][i];
    assert forall i :: 0 <= i < n ==> Lower(loc, s[a..])[i] == p[i];
  }

  lemma SplitCommand(loc: Locale, content: string, p: string) returns (lead: string, command: string, rest: string)
    requires PrefixMatches(loc, Normalized(loc, content), p)
    ensures Splits(loc, content, p, lead, command, rest)
    ensures |lead| + |p| == |content| - |TrimStart(loc, content)| + |p| <= |content|
    ensures content[|lead| + |p|..] == rest
  {
    var a := |content| - |TrimStart(loc, content)|;
    assert StartsWith(Normalized(loc, content), p);
    lead, command, rest := content[..a], content[a..a + |p|], content[a + |p|..];
    ThreeParts(content, a, a + |p|);
    LowerPart(loc, content, a, |p|, p);
    assert rest != "" ==> rest[0] == TrimStart(loc, content)[|p|];
  }

  lemma ContentBehindPrefix(loc: Locale, content: string, p: string, rest: string)
    requires |content| - |TrimStart(loc, content)| + |p| <= |content|
    requires content[|content| - |TrimStart(loc, content)| + |p|..] == rest
    ensures WithoutPrefix(loc, content, p) == Shown(loc, rest)
  {
  }

  lemma MatchContent(loc: Locale, b: Binding, m: Message, c: Candidate)
    requires MatchBinding(loc, b, m) == Some(c) && b.route.commandPrefixes != []
    ensures c.commandPrefix.Some? && PrefixMatches(loc, Normalized(loc, m.content), c.commandPrefix.value)
    ensures c.message.content == WithoutPrefix(loc, m.content, c.commandPrefix.value)
  {
    LongestPrefixIsLongest(loc, m.content, b.route.commandPrefixes);
  }

  /** Routing by a command cuts exactly the command out of the content; the binding sees the rest
      trimmed, or a fixed request when nothing is left. */
  lemma RewriteDropsTheCommand(loc: Locale, b: Binding, m: Message, c: Candidate)
    returns (lead: string, command: string, rest: string)
    requires MatchBinding(loc, b, m) == Some(c) && b.route.commandPrefixes != []
    ensures c.commandPrefix.Some? && Splits(loc, m.content, c.commandPrefix.value, lead, command, rest)
    ensures c.message.content == Shown(loc, rest)
  {
    MatchContent(loc, b, m, c);
    lead, command, rest := SplitCommand(loc, m.content, c.commandPrefix.value);
    ContentBehindPrefix(loc, m.content, c.commandPrefix.value, rest);
  }
}
