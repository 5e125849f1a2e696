/** What the load-time check buys at run time. */
module RoutingTheorems {
  import opened Wrappers
  import opened Sorting
  import opened BindingRouter
  import opened RouteValidation

  /** What the manifest loader guarantees of a command prefix: it is not empty, begins with a
      character that is no white space, and is already in lower case. */
  predicate LoadedPrefix(loc: Locale, p: string) {
    p != "" && !loc.space(p[0]) && Lower(loc, p) == p
  }

  predicate Loaded(loc: Locale, b: Binding) {
    forall p :: p in b.route.commandPrefixes ==> LoadedPrefix(loc, p)
  }

  predicate Matches(loc: Locale, b: Binding, m: Message) {
    !b.route.default && MatchBinding(loc, b, m).Some?
  }

  function ScoreOf(loc: Locale, b: Binding, m: Message): Score
    requires Matches(loc, b, m)
  {
    MatchBinding(loc, b, m).value.score
  }

  /** Strictly ahead, lexicographically. */
  predicate Beats(a: Score, b: Score) {
    a.priority > b.priority ||
    (a.priority == b.priority && (a.length > b.length || (a.length == b.length && a.specificity > b.specificity)))
  }

  function MatchOf(c: Candidate): RouteMatch {
    RouteMatch(c.binding, c.message, c.commandPrefix)
  }

  // ---------------------------------------------------------------- prefixes

  /** The chosen prefix matches and none that matches is longer. */
  lemma LongestPrefixIsLongest(loc: Locale, content: string, prefixes: seq<string>)
    ensures LongestMatchingPrefix(loc, content, prefixes).None? <==>
      forall p :: p in prefixes ==> !PrefixMatches(loc, Normalized(loc, content), p)
    ensures LongestMatchingPrefix(loc, content, prefixes).Some? ==>
      var r := LongestMatchingPrefix(loc, content, prefixes).value;
      r in prefixes && PrefixMatches(loc, Normalized(loc, content), r) &&
      forall p :: p in prefixes && PrefixMatches(loc, Normalized(loc, content), p) ==> |p| <= |r|
  {
    var normalized := Normalized(loc, content);
    var matching := MatchingPrefixes(loc, normalized, prefixes);
    var cmp := (a: string, b: string) => |b| - |a|;
    SameMembers(matching, Sort(matching, cmp));
    if matching != [] {
      SortHead(matching, cmp);
    } else {
      assert forall p :: p in prefixes && PrefixMatches(loc, normalized, p) ==> p in matching;
    }
  }

  /** Two prefixes of the same length that match the same text are the same prefix. */
  lemma SameLengthSamePrefix(loc: Locale, normalized: string, p: string, q: string)
    requires PrefixMatches(loc, normalized, p) && PrefixMatches(loc, normalized, q) && |p| == |q|
    ensures p == q
  {
    assert normalized[..|p|] == p && normalized[..|q|] == q;
  }

  /** A matching binding scores a positive length exactly when it has prefixes; then some prefix
      of its own, of that length, matches. */
  lemma MatchedPrefix(loc: Locale, b: Binding, m: Message) returns (p: string)
    requires Loaded(loc, b) && Matches(loc, b, m)
    ensures ScoreOf(loc, b, m).priority == b.route.priority && ScoreOf(loc, b, m).specificity == Specificity(b.route)
    ensures b.route.commandPrefixes == [] <==> ScoreOf(loc, b, m).length == 0
    ensures b.route.commandPrefixes != [] ==>
      p in b.route.commandPrefixes && |p| == ScoreOf(loc, b, m).length &&
      PrefixMatches(loc, Normalized(loc, m.content), p)
  {
    LongestPrefixIsLongest(loc, m.content, b.route.commandPrefixes);
    var r := LongestMatchingPrefix(loc, m.content, b.route.commandPrefixes);
    p := if r.Some? then r.value else "";
  }

  // ---------------------------------------------------------------- two routes

  /** The exact condition for a tie, prefixes or not. */
  predicate TieCondition(l: Route, r: Route) {
    l.priority == r.priority && Specificity(l) == Specificity(r) &&
    SelectorsOverlap(l.chatAllowlist, r.chatAllowlist) &&
    SelectorsOverlap(l.userAllowlist, r.userAllowlist) &&
    SelectorsOverlap(l.threadAllowlist, r.threadAllowlist) &&
    ((l.commandPrefixes == [] && r.commandPrefixes == []) ||
     exists p :: p in l.commandPrefixes && p in r.commandPrefixes)
  }

  /** Two bindings match the message with equal scores. */
  predicate TiesOn(loc: Locale, l: Binding, r: Binding, m: Message) {
    Matches(loc, l, m) && Matches(loc, r, m) && ScoreOf(loc, l, m) == ScoreOf(loc, r, m)
  }

  lemma TieMeetsCondition(loc: Locale, l: Binding, r: Binding, m: Message)
    requires Loaded(loc, l) && Loaded(loc, r) && TiesOn(loc, l, r, m)
    ensures TieCondition(l.route, r.route)
  {
    var p := MatchedPrefix(loc, l, m);
    var q := MatchedPrefix(loc, r, m);
    if l.route.commandPrefixes != [] {
      SameLengthSamePrefix(loc, Normalized(loc, m.content), p, q);
    }
    assert SelectorsMatch(l.route, m) && SelectorsMatch(r.route, m);
  }

  /** A value both selectors let through. */
  lemma Common(left: seq<string>, right: seq<string>) returns (v: string)
    requires SelectorsOverlap(left, right)
    ensures Selected(left, v) && Selected(right, v)
  {
    if left != [] && right != [] {
      v :| v in left && v in right;
    } else if left != [] {
      v := left[0];
    } else if right != [] {
      v := right[0];
    } else {
      v := "";
    }
  }

  /** A message that is just the prefix makes it the longest match. */
  lemma BarePrefixMatches(loc: Locale, b: Binding, m: Message, p: string)
    requires Loaded(loc, b) && p in b.route.commandPrefixes && m.content == p
    requires !b.route.default && SelectorsMatch(b.route, m)
    ensures Matches(loc, b, m) && ScoreOf(loc, b, m) == Score(b.route.priority, |p|, Specificity(b.route))
  {
    LongestPrefixIsLongest(loc, p, b.route.commandPrefixes);
    assert LoadedPrefix(loc, p);
    assert TrimStart(loc, p) == p;
    assert PrefixMatches(loc, Normalized(loc, p), p);
  }

  lemma PlainMatches(loc: Locale, b: Binding, m: Message)
    requires b.route.commandPrefixes == [] && !b.route.default && SelectorsMatch(b.route, m)
    ensures Matches(loc, b, m) && ScoreOf(loc, b, m) == Score(b.route.priority, 0, Specificity(b.route))
  {
    LongestPrefixIsLongest(loc, m.content, b.route.commandPrefixes);
  }

  /** The message that matches both routes with equal scores. */
  lemma TieWitness(loc: Locale, l: Binding, r: Binding) returns (m: Message)
    requires Loaded(loc, l) && Loaded(loc, r) && !l.route.default && !r.route.default
    requires TieCondition(l.route, r.route)
    ensures TiesOn(loc, l, r, m)
  {
    var chat := Common(l.route.chatAllowlist, r.route.chatAllowlist);
    var user := Common(l.route.userAllowlist, r.route.userAllowlist);
    var topic := Common(l.route.threadAllowlist, r.route.threadAllowlist);
    if l.route.commandPrefixes == [] && r.route.commandPrefixes == [] {
      m := Message(chat, user, Some(topic), None, "");
      PlainMatches(loc, l, m);
      PlainMatches(loc, r, m);
    } else {
      var p :| p in l.route.commandPrefixes && p in r.route.commandPrefixes;
      m := Message(chat, user, Some(topic), None, p);
      BarePrefixMatches(loc, l, m, p);
      BarePrefixMatches(loc, r, m, p);
    }
  }

  /** Two dynamic bindings tie on some message exactly under `TieCondition`.  The load-time check
      misses no tie, and on routes without prefixes it reports nothing else. */
  lemma TiesExactly(loc: Locale, l: Binding, r: Binding)
    requires Loaded(loc, l) && Loaded(loc, r) && !l.route.default && !r.route.default
    ensures (exists m :: TiesOn(loc, l, r, m)) <==> TieCondition(l.route, r.route)
    ensures (exists m :: TiesOn(loc, l, r, m)) ==> RoutesCanTie(l.route, r.route)
    ensures l.route.commandPrefixes == [] && r.route.commandPrefixes == [] ==>
      (RoutesCanTie(l.route, r.route) <==> exists m :: TiesOn(loc, l, r, m))
  {
    if TieCondition(l.route, r.route) {
      var m := TieWitness(loc, l, r);
    }
    if m :| TiesOn(loc, l, r, m) {
      TieMeetsCondition(loc, l, r, m);
    }
  }

  /** With prefixes the check is stricter than need be: these two routes share one, so they are
      refused, but their specificities differ and no message makes them tie. */
  lemma SharedPrefixNeedNotTie(loc: Locale, p: string)
    requires LoadedPrefix(loc, p)
    ensures var l := Binding("a", "app", Route(false, 0, [p], [], [], []), "", "", "");
            var r := Binding("b", "app", Route(false, 0, [p], ["chat"], [], []), "", "", "");
            RoutesCanTie(l.route, r.route) && forall m :: !TiesOn(loc, l, r, m)
  {
    var l := Binding("a", "app", Route(false, 0, [p], [], [], []), "", "", "");
    var r := Binding("b", "app", Route(false, 0, [p], ["chat"], [], []), "", "", "");
    assert p in l.route.commandPrefixes && p in r.route.commandPrefixes;
    TiesExactly(loc, l, r);
  }

  // ---------------------------------------------------------------- a whole list

  /** No two positions of the list tie on this message. */
  ghost predicate NoTies(loc: Locale, dynamic: seq<Binding>, m: Message) {
    forall i, j :: 0 <= i < j < |dynamic| ==> !TiesOn(loc, dynamic[i], dynamic[j], m)
  }

  lemma CandidatesOfDynamic(loc: Locale, bindings: seq<Binding>, m: Message)
    ensures Candidates(loc, bindings, m) == Candidates(loc, Dynamic(bindings), m)
  {
    if bindings != [] {
      CandidatesOfDynamic(loc, bindings[1..], m);
      var d := Dynamic(bindings[1..]);
      if bindings[0].route.default {
        assert Dynamic(bindings) == d;
      } else {
        assert Dynamic(bindings) == [bindings[0]] + d && ([bindings[0]] + d)[1..] == d;
      }
    }
  }

  lemma {:induction false} CandidatesAreMatches(loc: Locale, bindings: seq<Binding>, m: Message)
    ensures forall b :: b in bindings && Matches(loc, b, m) ==>
      MatchBinding(loc, b, m).value in Candidates(loc, bindings, m)
    ensures forall c :: c in Candidates(loc, bindings, m) ==>
      c.binding in bindings && Matches(loc, c.binding, m) && MatchBinding(loc, c.binding, m).value == c
  {
    if bindings != [] {
      CandidatesAreMatches(loc, bindings[1..], m);
    }
  }

  lemma {:induction false} NoneTied(candidates: seq<Candidate>, w: Candidate)
    requires forall c :: c in candidates ==> c.score != w.score
    ensures Tied(candidates, w) == []
  {
    if candidates != [] {
      NoneTied(candidates[1..], w);
    }
  }

  lemma NoTiesTail(loc: Locale, dynamic: seq<Binding>, m: Message)
    requires NoTies(loc, dynamic, m) && dynamic != []
    ensures NoTies(loc, dynamic[1..], m)
  {
    var rest := dynamic[1..];
    forall i, j | 0 <= i < j < |rest| ensures !TiesOn(loc, rest[i], rest[j], m) {
      assert !TiesOn(loc, dynamic[i + 1], dynamic[j + 1], m);
    }
  }

  /** Nothing behind the head of a list without ties has the head's score. */
  lemma HeadScoresAlone(loc: Locale, dynamic: seq<Binding>, m: Message)
    requires NoTies(loc, dynamic, m) && dynamic != [] && Matches(loc, dynamic[0], m)
    ensures forall c :: c in Candidates(loc, dynamic[1..], m) ==> c.score != ScoreOf(loc, dynamic[0], m)
  {
    var rest := dynamic[1..];
    CandidatesAreMatches(loc, rest, m);
    forall c | c in Candidates(loc, rest, m) ensures c.score != ScoreOf(loc, dynamic[0], m) {
      var i :| 0 <= i < |rest| && rest[i] == c.binding;
      assert !TiesOn(loc, dynamic[0], dynamic[i + 1], m);
    }
  }

  lemma CandidatesStep(loc: Locale, dynamic: seq<Binding>, m: Message)
    requires dynamic != [] && !dynamic[0].route.default
    ensures Candidates(loc, dynamic, m) ==
      (if Matches(loc, dynamic[0], m) then [MatchBinding(loc, dynamic[0], m).value] else []) +
        Candidates(loc, dynamic[1..], m)
  {
  }

  lemma TiedStep(c: Candidate, rest: seq<Candidate>, w: Candidate)
    ensures Tied([c] + rest, w) == (if c.score == w.score then [c] else []) + Tied(rest, w)
  {
    assert ([c] + rest)[1..] == rest;
  }

  /** Without ties, at most one candidate has any given score. */
  lemma {:induction false} TiedAtMostOnce(loc: Locale, dynamic: seq<Binding>, m: Message, w: Candidate)
    requires NoTies(loc, dynamic, m) && forall b :: b in dynamic ==> !b.route.default
    ensures |Tied(Candidates(loc, dynamic, m), w)| <= 1
  {
    if dynamic != [] {
      var tail := Candidates(loc, dynamic[1..], m);
      NoTiesTail(loc, dynamic, m);
      TiedAtMostOnce(loc, dynamic[1..], m, w);
      CandidatesStep(loc, dynamic, m);
      if Matches(loc, dynamic[0], m) {
        var c := MatchBinding(loc, dynamic[0], m).value;
        TiedStep(c, tail, w);
        if c.score == w.score {
          HeadScoresAlone(loc, dynamic, m);
          NoneTied(tail, w);
        }
      } else {
        assert [] + tail == tail;
      }
    }
  }

  lemma {:induction false} TiedInsert(x: Candidate, s: seq<Candidate>, cmp: (Candidate, Candidate) -> int, w: Candidate)
    ensures |Tied(InsertSorted(x, s, cmp), w)| == |Tied([x] + s, w)|
  {
    assert ([x] + s)[1..] == s;
    if s != [] && cmp(x, s[0]) > 0 {
      TiedInsert(x, s[1..], cmp, w);
      var t := InsertSorted(x, s[1..], cmp);
      assert ([s[0]] + t)[1..] == t;
      assert ([x] + s[1..])[1..] == s[1..];
    }
  }

  /** Sorting does not change how many candidates are tied. */
  lemma {:induction false} TiedSorted(s: seq<Candidate>, cmp: (Candidate, Candidate) -> int, w: Candidate)
    ensures |Tied(Sort(s, cmp), w)| == |Tied(s, w)|
  {
    if s != [] {
      TiedSorted(s[1..], cmp, w);
      TiedInsert(s[0], Sort(s[1..], cmp), cmp, w);
      var t := Sort(s[1..], cmp);
      assert ([s[0]] + t)[1..] == t;
    }
  }

  lemma AcceptedHasNoTies(loc: Locale, bindings: seq<Binding>, m: Message)
    requires NoPairCanTie(Dynamic(bindings)) && forall b :: b in bindings ==> Loaded(loc, b)
    ensures NoTies(loc, Dynamic(bindings), m)
  {
    var d := Dynamic(bindings);
    forall i, j | 0 <= i < j < |d| ensures !TiesOn(loc, d[i], d[j], m) {
      assert d[i] in bindings && d[j] in bindings && !RoutesCanTie(d[i].route, d[j].route);
      TiesExactly(loc, d[i], d[j]);
    }
  }

  lemma ComparatorLaws(loc: Locale)
    ensures Comparator(CompareCandidates(loc))
  {
    var cmp := CompareCandidates(loc);
    forall x, y ensures cmp(x, y) <= 0 || cmp(y, x) <= 0 {
      assert cmp(x, y) == CompareBy(loc, x, y) && cmp(y, x) == CompareBy(loc, y, x);
    }
    forall x, y, z | cmp(x, y) <= 0 && cmp(y, z) <= 0 ensures cmp(x, z) <= 0 {
      assert cmp(x, y) == CompareBy(loc, x, y) && cmp(y, z) == CompareBy(loc, y, z) &&
        cmp(x, z) == CompareBy(loc, x, z);
    }
  }

  /** The winner of a resolution: it matches, and every other matching binding scores strictly less. */
  ghost predicate UniqueBest(loc: Locale, bindings: seq<Binding>, m: Message, w: Binding) {
    w in bindings && Matches(loc, w, m) &&
    forall b :: b in bindings && Matches(loc, b, m) && b != w ==> Beats(ScoreOf(loc, w, m), ScoreOf(loc, b, m))
  }

  /** An accepted list never raises the ambiguity error: it answers with the unique lexicographic
      maximum of (priority, prefix length, specificity), or the default when nothing matches. */
  lemma AcceptedListsResolve(loc: Locale, bindings: seq<Binding>, m: Message)
    requires RoutesAccepted(bindings) && forall b :: b in bindings ==> Loaded(loc, b)
    ensures Resolve(loc, bindings, m).Ok?
    ensures (forall b :: b in bindings ==> !Matches(loc, b, m)) ==>
      Resolve(loc, bindings, m).value == RouteMatch(Defaults(bindings)[0], m, None)
    ensures (exists b :: b in bindings && Matches(loc, b, m)) ==>
      var w := Resolve(loc, bindings, m).value.binding;
      UniqueBest(loc, bindings, m, w) && Resolve(loc, bindings, m).value == MatchOf(MatchBinding(loc, w, m).value)
  {
    var candidates := Candidates(loc, bindings, m);
    CandidatesAreMatches(loc, bindings, m);
    SameMembers(candidates, Sort(candidates, CompareCandidates(loc)));
    if candidates != [] {
      HeadIsUniqueBest(loc, bindings, m);
      OneTied(loc, bindings, m);
    }
  }

  lemma OneTied(loc: Locale, bindings: seq<Binding>, m: Message)
    requires NoPairCanTie(Dynamic(bindings)) && forall b :: b in bindings ==> Loaded(loc, b)
    ensures forall w :: |Tied(Sort(Candidates(loc, bindings, m), CompareCandidates(loc)), w)| <= 1
  {
    AcceptedHasNoTies(loc, bindings, m);
    CandidatesOfDynamic(loc, bindings, m);
    forall w ensures |Tied(Sort(Candidates(loc, bindings, m), CompareCandidates(loc)), w)| <= 1 {
      TiedSorted(Candidates(loc, bindings, m), CompareCandidates(loc), w);
      TiedAtMostOnce(loc, Dynamic(bindings), m, w);
    }
  }

  lemma NotBehindBeats(loc: Locale, a: Candidate, b: Candidate)
    requires CompareBy(loc, a, b) <= 0 && a.score != b.score
    ensures Beats(a.score, b.score)
  {
  }

  lemma HeadIsUniqueBest(loc: Locale, bindings: seq<Binding>, m: Message)
    requires NoPairCanTie(Dynamic(bindings)) && (forall b :: b in bindings ==> Loaded(loc, b))
    requires Candidates(loc, bindings, m) != []
    ensures Sort(Candidates(loc, bindings, m), CompareCandidates(loc)) != []
    ensures var head := Sort(Candidates(loc, bindings, m), CompareCandidates(loc))[0];
      UniqueBest(loc, bindings, m, head.binding) && MatchBinding(loc, head.binding, m).value == head
  {
    var candidates := Candidates(loc, bindings, m);
    ComparatorLaws(loc);
    SortHead(candidates, CompareCandidates(loc));
    CandidatesAreMatches(loc, bindings, m);
    AcceptedHasNoTies(loc, bindings, m);
    var head := Sort(candidates, CompareCandidates(loc))[0];
    forall b | b in bindings && Matches(loc, b, m) && b != head.binding ensures Beats(head.score, ScoreOf(loc, b, m)) {
      var c := MatchBinding(loc, b, m).value;
      assert c in candidates && CompareCandidates(loc)(head, c) <= 0;
      DistinctScores(loc, Dynamic(bindings), m, head.binding, b);
      NotBehindBeats(loc, head, c);
    }
  }

  lemma DistinctScores(loc: Locale, dynamic: seq<Binding>, m: Message, a: Binding, b: Binding)
    requires NoTies(loc, dynamic, m) && a in dynamic && b in dynamic && a != b
    requires Matches(loc, a, m) && Matches(loc, b, m)
    ensures ScoreOf(loc, a, m) != ScoreOf(loc, b, m)
  {
    var i :| 0 <= i < |dynamic| && dynamic[i] == a;
    var j :| 0 <= j < |dynamic| && dynamic[j] == b;
    assert !TiesOn(loc, dynamic[if i < j then i else j], dynamic[if i < j then j else i], m);
  }

  predicate Share(l: Binding, r: Binding) {
    exists p :: p in l.route.commandPrefixes && p in r.route.commandPrefixes
  }

  ghost predicate NoneShare(bindings: seq<Binding>) {
    forall i, j :: 0 <= i < j < |bindings| ==> !Share(bindings[i], bindings[j])
  }

  lemma OwnedOnceNoneShare(bindings: seq<Binding>)
    requires PrefixesOwnedOnce(bindings)
    ensures NoneShare(bindings)
  {
    forall i, j, p | 0 <= i < j < |bindings| && p in bindings[i].route.commandPrefixes
      ensures p !in bindings[j].route.commandPrefixes
    {
      var x :| 0 <= x < |bindings[i].route.commandPrefixes| && bindings[i].route.commandPrefixes[x] == p;
      assert Lists(bindings[i], x, p);
      forall y | 0 <= y < |bindings[j].route.commandPrefixes| ensures bindings[j].route.commandPrefixes[y] != p {
        assert !Lists(bindings[j], y, p);
      }
    }
  }

  lemma {:induction false} DynamicNoneShare(bindings: seq<Binding>)
    requires NoneShare(bindings)
    ensures NoneShare(Dynamic(bindings))
  {
    if bindings != [] {
      var rest, d := bindings[1..], Dynamic(bindings[1..]);
      assert forall i :: 0 <= i < |rest| ==> rest[i] == bindings[i + 1];
      DynamicNoneShare(rest);
      forall b | b in d ensures !Share(bindings[0], b) {
        var i :| 0 <= i < |rest| && rest[i] == b;
        assert !Share(bindings[0], bindings[i + 1]);
      }
      assert Dynamic(bindings) == d || Dynamic(bindings) == [bindings[0]] + d;
    }
  }

  /** A refused pair of such a list comes with a message on which it ties. */
  lemma RefusalHasTie(loc: Locale, bindings: seq<Binding>, i: nat, j: nat) returns (m: Message)
    requires PrefixesOwnedOnce(bindings) && forall b :: b in bindings ==> Loaded(loc, b)
    requires i < j < |Dynamic(bindings)| && RoutesCanTie(Dynamic(bindings)[i].route, Dynamic(bindings)[j].route)
    ensures TiesOn(loc, Dynamic(bindings)[i], Dynamic(bindings)[j], m)
  {
    var l, r := Dynamic(bindings)[i], Dynamic(bindings)[j];
    assert l in Dynamic(bindings) && r in Dynamic(bindings);
    OwnedOnceNoneShare(bindings);
    DynamicNoneShare(bindings);
    assert !Share(l, r);
    m := TieWitness(loc, l, r);
  }

  /** For a list with one default and no shared prefix the check is exact: it accepts the list if
      and only if no message whatsoever makes two of its dynamic bindings tie. */
  lemma AcceptanceIsExact(loc: Locale, bindings: seq<Binding>)
    requires |Defaults(bindings)| == 1 && PrefixesOwnedOnce(bindings) && forall b :: b in bindings ==> Loaded(loc, b)
    ensures RoutesAccepted(bindings) <==> forall m :: NoTies(loc, Dynamic(bindings), m)
  {
    if NoPairCanTie(Dynamic(bindings)) {
      forall m ensures NoTies(loc, Dynamic(bindings), m) {
        AcceptedHasNoTies(loc, bindings, m);
      }
    } else {
      var i, j :| 0 <= i < j < |Dynamic(bindings)| &&
          RoutesCanTie(Dynamic(bindings)[i].route, Dynamic(bindings)[j].route);
      var m := RefusalHasTie(loc, bindings, i, j);
      assert !NoTies(loc, Dynamic(bindings), m);
    }
  }
}
