/** Routing as it is meant: which binding receives a message, and what it gets to read, said of the
    message and the routes alone. */
module RoutingMeaning {
  import opened Wrappers
  import opened Sorting
  import opened BindingRouter
  import opened RouteValidation
  import opened RoutingTheorems
  import opened RuntimeSignature

  // ---------------------------------------------------------------- commands

  /** White space, a command that reads as the prefix and begins with a visible character, and a rest
      that is empty or begins with white space. */
  predicate CommandSplit(loc: Locale, content: string, prefix: string, lead: string, command: string, rest: string) {
    content == lead + command + rest && (forall i :: 0 <= i < |lead| ==> loc.space(lead[i])) &&
    command != "" && !loc.space(command[0]) && Lower(loc, command) == prefix &&
    (rest != "" ==> loc.space(loc.lower(rest[0])))
  }

  ghost predicate GivesCommand(loc: Locale, content: string, prefix: string) {
    exists lead, command, rest :: CommandSplit(loc, content, prefix, lead, command, rest)
  }

  lemma {:induction false} LeadingSpace(loc: Locale, lead: string, tail: string)
    requires forall i :: 0 <= i < |lead| ==> loc.space(lead[i])
    requires tail != "" && !loc.space(tail[0])
    ensures TrimStart(loc, lead + tail) == tail
  {
    if lead == "" {
      assert lead + tail == tail;
    } else {
      assert (lead + tail)[1..] == lead[1..] + tail;
      LeadingSpace(loc, lead[1..], tail);
    }
  }

  lemma LowerSplits(loc: Locale, command: string, rest: string)
    ensures Lower(loc, command + rest) == Lower(loc, command) + Lower(loc, rest)
  {
  }

  lemma PrefixInFront(loc: Locale, prefix: string, tail: string)
    requires tail != "" ==> loc.space(tail[0])
    ensures PrefixMatches(loc, prefix + tail, prefix)
  {
  }

  lemma CommandMatches(loc: Locale, content: string, prefix: string, lead: string, command: string, rest: string)
    requires CommandSplit(loc, content, prefix, lead, command, rest)
    ensures PrefixMatches(loc, Normalized(loc, content), prefix)
  {
    assert content == lead + (command + rest);
    LeadingSpace(loc, lead, command + rest);
    LowerSplits(loc, command, rest);
    PrefixInFront(loc, prefix, Lower(loc, rest));
  }

  /** The prefix test means: the message gives the command, alone or with arguments behind it. */
  lemma PrefixMatchesIff(loc: Locale, content: string, prefix: string)
    requires LoadedPrefix(loc, prefix)
    ensures PrefixMatches(loc, Normalized(loc, content), prefix) <==> GivesCommand(loc, content, prefix)
  {
    if PrefixMatches(loc, Normalized(loc, content), prefix) {
      var lead, command, rest := SplitCommand(loc, content, prefix);
      VisibleCommand(loc, content, prefix, lead, command, rest);
    }
    forall lead, command, rest | CommandSplit(loc, content, prefix, lead, command, rest)
      ensures PrefixMatches(loc, Normalized(loc, content), prefix)
    {
      CommandMatches(loc, content, prefix, lead, command, rest);
    }
  }

  lemma VisibleCommand(loc: Locale, content: string, prefix: string, lead: string, command: string, rest: string)
    requires prefix != "" && Splits(loc, content, prefix, lead, command, rest)
    requires |lead| + |prefix| == |content| - |TrimStart(loc, content)| + |prefix|
    ensures CommandSplit(loc, content, prefix, lead, command, rest)
  {
    assert |command| == |prefix|;
    assert TrimStart(loc, content) == content[|lead|..];
    assert content[|lead|..][0] == command[0];
  }

  // ---------------------------------------------------------------- who receives a message

  predicate Allows(list: seq<string>, value: string) {
    list == [] || exists i :: 0 <= i < |list| && list[i] == value
  }

  /** The topic of a message: its thread, else the message it answers, else the main topic. */
  function Topic(m: Message): string {
    match (m.threadId, m.rootId)
    case (Some(thread), _) => thread
    case (None, Some(root)) => root
    case (None, None) => "main"
  }

  /** A dynamic binding receives a message that passes all its lists and gives one of its commands. */
  ghost predicate Receives(loc: Locale, b: Binding, m: Message) {
    !b.route.default &&
    Allows(b.route.chatAllowlist, m.chatId) && Allows(b.route.userAllowlist, m.senderId) &&
    Allows(b.route.threadAllowlist, Topic(m)) &&
    (b.route.commandPrefixes == [] ||
     exists i :: 0 <= i < |b.route.commandPrefixes| && GivesCommand(loc, m.content, b.route.commandPrefixes[i]))
  }

  /** The chosen prefix is the longest command that the message gives, if it gives any. */
  lemma LongestCommand(loc: Locale, content: string, prefixes: seq<string>)
    requires forall p :: p in prefixes ==> LoadedPrefix(loc, p)
    ensures var r := LongestMatchingPrefix(loc, content, prefixes);
      (r.Some? <==> exists i :: 0 <= i < |prefixes| && GivesCommand(loc, content, prefixes[i])) &&
      (r.Some? ==>
        r.value in prefixes && r.value != "" && GivesCommand(loc, content, r.value) &&
        forall q :: q in prefixes && GivesCommand(loc, content, q) ==> |q| <= |r.value|)
  {
    LongestPrefixIsLongest(loc, content, prefixes);
    forall p | p in prefixes
      ensures p != "" && (PrefixMatches(loc, Normalized(loc, content), p) <==> GivesCommand(loc, content, p))
    {
      PrefixMatchesIff(loc, content, p);
    }
  }

  lemma MatchesBy(loc: Locale, b: Binding, m: Message)
    requires LongestMatchingPrefix(loc, m.content, b.route.commandPrefixes) != Some("")
    ensures Matches(loc, b, m) <==>
      !b.route.default && SelectorsMatch(b.route, m) &&
      (b.route.commandPrefixes == [] || LongestMatchingPrefix(loc, m.content, b.route.commandPrefixes).Some?)
  {
    var prefix := LongestMatchingPrefix(loc, m.content, b.route.commandPrefixes);
    if !SelectorsMatch(b.route, m) {
      assert MatchBinding(loc, b, m) == None;
    } else if b.route.commandPrefixes != [] && prefix.None? {
      assert MatchBinding(loc, b, m) == None;
    } else {
      assert MatchBinding(loc, b, m).Some?;
    }
  }

  lemma ListsAllow(r: Route, m: Message)
    ensures SelectorsMatch(r, m) <==>
      Allows(r.chatAllowlist, m.chatId) && Allows(r.userAllowlist, m.senderId) && Allows(r.threadAllowlist, Topic(m))
  {
  }

  lemma MatchesIffReceives(loc: Locale, b: Binding, m: Message)
    requires Loaded(loc, b)
    ensures Matches(loc, b, m) <==> Receives(loc, b, m)
  {
    LongestCommand(loc, m.content, b.route.commandPrefixes);
    MatchesBy(loc, b, m);
    ListsAllow(b.route, m);
  }

  // ---------------------------------------------------------------- which one goes first

  /** The longest of the binding's commands that the message gives; empty without commands. */
  ghost predicate CommandOf(loc: Locale, b: Binding, m: Message, p: string) {
    if b.route.commandPrefixes == [] then p == ""
    else
      p in b.route.commandPrefixes && GivesCommand(loc, m.content, p) &&
      forall q :: q in b.route.commandPrefixes && GivesCommand(loc, m.content, q) ==> |q| <= |p|
  }

  function Restrictions(r: Route): nat {
    (if r.chatAllowlist == [] then 0 else 1) + (if r.userAllowlist == [] then 0 else 1) +
    (if r.threadAllowlist == [] then 0 else 1) + (if r.commandPrefixes == [] then 0 else 1)
  }

  /** Priority first, then the longer command, then the more restricted route. */
  predicate RanksBefore(x: Route, p: string, y: Route, q: string) {
    x.priority > y.priority ||
    (x.priority == y.priority && (|p| > |q| || (|p| == |q| && Restrictions(x) > Restrictions(y))))
  }

  ghost predicate GoesBefore(loc: Locale, x: Binding, y: Binding, m: Message) {
    exists p, q :: CommandOf(loc, x, m, p) && CommandOf(loc, y, m, q) && RanksBefore(x.route, p, y.route, q)
  }

  lemma ScoreMeans(loc: Locale, b: Binding, m: Message) returns (p: string)
    requires Loaded(loc, b) && Matches(loc, b, m)
    ensures CommandOf(loc, b, m, p)
    ensures ScoreOf(loc, b, m) == Score(b.route.priority, |p|, Restrictions(b.route))
    ensures var c := MatchBinding(loc, b, m).value;
      c.binding == b &&
      if b.route.commandPrefixes == [] then c.commandPrefix == None && c.message == m
      else c.commandPrefix == Some(p) && c.message == m.(content := WithoutPrefix(loc, m.content, p))
  {
    LongestCommand(loc, m.content, b.route.commandPrefixes);
    MatchesBy(loc, b, m);
    p := if b.route.commandPrefixes == [] then ""
         else LongestMatchingPrefix(loc, m.content, b.route.commandPrefixes).value;
    CandidateIs(loc, b, m, p);
  }

  lemma CandidateIs(loc: Locale, b: Binding, m: Message, p: string)
    requires SelectorsMatch(b.route, m)
    requires var r := LongestMatchingPrefix(loc, m.content, b.route.commandPrefixes);
      if b.route.commandPrefixes == [] then r == None && p == "" else r == Some(p) && p != ""
    ensures MatchBinding(loc, b, m) ==
      Some(Candidate(b, if b.route.commandPrefixes == [] then m else m.(content := WithoutPrefix(loc, m.content, p)),
                     if b.route.commandPrefixes == [] then None else Some(p),
                     Score(b.route.priority, |p|, Restrictions(b.route))))
  {
  }

  // ---------------------------------------------------------------- what it gets to read

  /** `text` without the white space around it. */
  ghost predicate TrimmedTo(loc: Locale, text: string, trimmed: string) {
    (trimmed != "" ==> !loc.space(trimmed[0]) && !loc.space(trimmed[|trimmed| - 1])) &&
    exists before, behind :: text == before + trimmed + behind &&
      (forall i :: 0 <= i < |before| ==> loc.space(before[i])) &&
      (forall i :: 0 <= i < |behind| ==> loc.space(behind[i]))
  }

  lemma StartIsCut(loc: Locale, text: string) returns (before: string)
    ensures text == before + TrimStart(loc, text) && forall i :: 0 <= i < |before| ==> loc.space(before[i])
  {
    before := text[..|text| - |TrimStart(loc, text)|];
  }

  lemma EndIsCut(loc: Locale, text: string) returns (behind: string)
    ensures text == TrimEnd(loc, text) + behind && forall i :: 0 <= i < |behind| ==> loc.space(behind[i])
  {
    behind := text[|TrimEnd(loc, text)|..];
  }

  lemma CutAtBothEnds(loc: Locale, text: string, start: string, trimmed: string, before: string, behind: string)
    requires text == before + start && start == trimmed + behind
    requires start != "" ==> !loc.space(start[0])
    requires trimmed != "" ==> !loc.space(trimmed[|trimmed| - 1])
    requires forall i :: 0 <= i < |before| ==> loc.space(before[i])
    requires forall i :: 0 <= i < |behind| ==> loc.space(behind[i])
    ensures TrimmedTo(loc, text, trimmed)
  {
    assert text == before + trimmed + behind;
    if trimmed != "" {
      assert trimmed[0] == start[0];
    }
  }

  lemma TrimMeans(loc: Locale, text: string)
    ensures TrimmedTo(loc, text, Trim(loc, text))
  {
    var start := TrimStart(loc, text);
    var before := StartIsCut(loc, text);
    var behind := EndIsCut(loc, start);
    CutAtBothEnds(loc, text, start, TrimEnd(loc, start), before, behind);
  }

  /** The arguments of the command, or a fixed request when there are none. */
  ghost predicate ReadsArguments(loc: Locale, content: string, prefix: string, shown: string) {
    exists lead, command, rest, trimmed :: CommandSplit(loc, content, prefix, lead, command, rest) &&
      TrimmedTo(loc, rest, trimmed) && shown == if trimmed == "" then EMPTY_COMMAND_TEXT else trimmed
  }

  lemma RewriteMeans(loc: Locale, content: string, prefix: string)
    requires LoadedPrefix(loc, prefix) && GivesCommand(loc, content, prefix)
    ensures ReadsArguments(loc, content, prefix, WithoutPrefix(loc, content, prefix))
  {
    PrefixMatchesIff(loc, content, prefix);
    var lead, command, rest := SplitCommand(loc, content, prefix);
    VisibleCommand(loc, content, prefix, lead, command, rest);
    ContentBehindPrefix(loc, content, prefix, rest);
    TrimMeans(loc, rest);
    assert CommandSplit(loc, content, prefix, lead, command, rest) && TrimmedTo(loc, rest, Trim(loc, rest));
  }

  // ---------------------------------------------------------------- the whole resolution

  /** The answer sends the message on as it came, or with the command cut off. */
  ghost predicate Hands(loc: Locale, b: Binding, m: Message, answer: RouteMatch) {
    answer.binding == b &&
    if b.route.commandPrefixes == [] then answer.message == m && answer.commandPrefix == None
    else
      answer.commandPrefix.Some? && CommandOf(loc, b, m, answer.commandPrefix.value) &&
      answer.message == m.(content := answer.message.content) &&
      ReadsArguments(loc, m.content, answer.commandPrefix.value, answer.message.content)
  }

  /** On an accepted list every message goes to the one receiving binding that goes before all others,
      or unchanged to the default when no binding receives it. */
  lemma MessagesGoWhereTheyShould(loc: Locale, bindings: seq<Binding>, m: Message)
    requires RoutesAccepted(bindings) && forall b :: b in bindings ==> Loaded(loc, b)
    ensures Resolve(loc, bindings, m).Ok?
    ensures var answer := Resolve(loc, bindings, m).value;
      answer.binding in bindings &&
      if exists b :: b in bindings && Receives(loc, b, m) then
        Receives(loc, answer.binding, m) && Hands(loc, answer.binding, m, answer) &&
        forall b :: b in bindings && b != answer.binding && Receives(loc, b, m) ==>
          GoesBefore(loc, answer.binding, b, m)
      else answer.binding.route.default && answer.message == m && answer.commandPrefix == None
  {
    AcceptedListsResolve(loc, bindings, m);
    forall b | b in bindings
      ensures Matches(loc, b, m) <==> Receives(loc, b, m)
    {
      MatchesIffReceives(loc, b, m);
    }
    var answer := Resolve(loc, bindings, m).value;
    if exists b :: b in bindings && Receives(loc, b, m) {
      var w := answer.binding;
      HandsOver(loc, w, m);
      forall b | b in bindings && b != w && Receives(loc, b, m)
        ensures GoesBefore(loc, w, b, m)
      {
        BestGoesBefore(loc, w, b, m);
      }
    } else {
      DefaultIsDefault(bindings);
      assert Defaults(bindings)[0] in Defaults(bindings);
    }
  }

  lemma HandsOver(loc: Locale, w: Binding, m: Message)
    requires Loaded(loc, w) && Matches(loc, w, m)
    ensures Hands(loc, w, m, MatchOf(MatchBinding(loc, w, m).value))
  {
    var p := ScoreMeans(loc, w, m);
    if w.route.commandPrefixes != [] {
      assert LoadedPrefix(loc, p);
      RewriteMeans(loc, m.content, p);
    }
  }

  lemma BestGoesBefore(loc: Locale, w: Binding, b: Binding, m: Message)
    requires Loaded(loc, w) && Loaded(loc, b) && Matches(loc, w, m) && Matches(loc, b, m)
    requires Beats(ScoreOf(loc, w, m), ScoreOf(loc, b, m))
    ensures GoesBefore(loc, w, b, m)
  {
    var p := ScoreMeans(loc, w, m);
    var q := ScoreMeans(loc, b, m);
    BeforeBy(loc, w, b, m, p, q);
  }

  lemma BeforeBy(loc: Locale, x: Binding, y: Binding, m: Message, p: string, q: string)
    requires CommandOf(loc, x, m, p) && CommandOf(loc, y, m, q) && RanksBefore(x.route, p, y.route, q)
    ensures GoesBefore(loc, x, y, m)
  {
  }

  // ---------------------------------------------------------------- when a message is ambiguous

  lemma GoesBeforeIff(loc: Locale, x: Binding, y: Binding, m: Message)
    requires Loaded(loc, x) && Loaded(loc, y) && Matches(loc, x, m) && Matches(loc, y, m)
    ensures GoesBefore(loc, x, y, m) <==> Beats(ScoreOf(loc, x, m), ScoreOf(loc, y, m))
  {
    if GoesBefore(loc, x, y, m) {
      BeforeBeats(loc, x, y, m);
    }
    if Beats(ScoreOf(loc, x, m), ScoreOf(loc, y, m)) {
      BestGoesBefore(loc, x, y, m);
    }
  }

  lemma BeforeBeats(loc: Locale, x: Binding, y: Binding, m: Message)
    requires Loaded(loc, x) && Loaded(loc, y) && Matches(loc, x, m) && Matches(loc, y, m)
    requires GoesBefore(loc, x, y, m)
    ensures Beats(ScoreOf(loc, x, m), ScoreOf(loc, y, m))
  {
    var p := ScoreMeans(loc, x, m);
    var q := ScoreMeans(loc, y, m);
    var r, t :| CommandOf(loc, x, m, r) && CommandOf(loc, y, m, t) && RanksBefore(x.route, r, y.route, t);
    SameLength(loc, x, m, p, r);
    SameLength(loc, y, m, q, t);
  }

  lemma SameLength(loc: Locale, b: Binding, m: Message, p: string, q: string)
    requires CommandOf(loc, b, m, p) && CommandOf(loc, b, m, q)
    ensures |p| == |q|
  {
  }

  predicate Scores(loc: Locale, b: Binding, m: Message, s: Score) {
    Matches(loc, b, m) && ScoreOf(loc, b, m) == s
  }

  lemma TiedFront(loc: Locale, dynamic: seq<Binding>, m: Message, w: Candidate)
    requires dynamic != [] && !dynamic[0].route.default
    ensures |Tied(Candidates(loc, dynamic, m), w)| ==
      |Tied(Candidates(loc, dynamic[1..], m), w)| + if Scores(loc, dynamic[0], m, w.score) then 1 else 0
  {
    CandidatesStep(loc, dynamic, m);
    var rest := Candidates(loc, dynamic[1..], m);
    if Matches(loc, dynamic[0], m) {
      TiedStep(MatchBinding(loc, dynamic[0], m).value, rest, w);
    } else {
      assert [] + rest == rest;
    }
  }

  function Marks(loc: Locale, dynamic: seq<Binding>, m: Message, s: Score): (r: seq<bool>)
    ensures |r| == |dynamic| && forall i :: 0 <= i < |r| ==> (r[i] <==> Scores(loc, dynamic[i], m, s))
  {
    if dynamic == [] then [] else [Scores(loc, dynamic[0], m, s)] + Marks(loc, dynamic[1..], m, s)
  }

  function Marked(marks: seq<bool>): nat {
    if marks == [] then 0 else (if marks[0] then 1 else 0) + Marked(marks[1..])
  }

  lemma {:induction false} SomeMarked(marks: seq<bool>)
    ensures Marked(marks) > 0 <==> exists i :: 0 <= i < |marks| && marks[i]
  {
    if marks != [] {
      SomeMarked(marks[1..]);
      assert forall i :: 0 < i < |marks| ==> marks[i] == marks[1..][i - 1];
    }
  }

  lemma {:induction false} TwoMarked(marks: seq<bool>) returns (i: nat, j: nat)
    requires Marked(marks) > 1
    ensures i < j < |marks| && marks[i] && marks[j]
  {
    if marks[0] {
      SomeMarked(marks[1..]);
      var k :| 0 <= k < |marks[1..]| && marks[1..][k];
      i, j := 0, k + 1;
    } else {
      i, j := TwoMarked(marks[1..]);
      i, j := i + 1, j + 1;
    }
  }

  lemma {:induction false} MarkedTwice(marks: seq<bool>, i: nat, j: nat)
    requires i < j < |marks| && marks[i] && marks[j]
    ensures Marked(marks) > 1
  {
    if i > 0 {
      MarkedTwice(marks[1..], i - 1, j - 1);
    } else {
      assert marks[1..][j - 1];
      SomeMarked(marks[1..]);
    }
  }

  lemma {:induction false} TiedAreMarked(loc: Locale, dynamic: seq<Binding>, m: Message, w: Candidate)
    requires forall b :: b in dynamic ==> !b.route.default
    ensures |Tied(Candidates(loc, dynamic, m), w)| == Marked(Marks(loc, dynamic, m, w.score))
  {
    if dynamic != [] {
      TiedAreMarked(loc, dynamic[1..], m, w);
      TiedFront(loc, dynamic, m, w);
      assert Marks(loc, dynamic, m, w.score)[1..] == Marks(loc, dynamic[1..], m, w.score);
    }
  }

  /** Two bindings receive the message, neither goes before the other, and nothing before them. */
  ghost predicate LevelAtTheTop(loc: Locale, bindings: seq<Binding>, x: Binding, y: Binding, m: Message) {
    Receives(loc, x, m) && Receives(loc, y, m) && !GoesBefore(loc, x, y, m) && !GoesBefore(loc, y, x, m) &&
    forall b :: b in bindings && Receives(loc, b, m) ==> !GoesBefore(loc, b, x, m)
  }

  lemma HeadIsUnbeaten(loc: Locale, bindings: seq<Binding>, m: Message)
    requires Candidates(loc, bindings, m) != []
    ensures var sorted := Sort(Candidates(loc, bindings, m), CompareCandidates(loc));
      sorted != [] && sorted[0].binding in bindings && Matches(loc, sorted[0].binding, m) &&
      sorted[0].score == ScoreOf(loc, sorted[0].binding, m) &&
      forall b :: b in bindings && Matches(loc, b, m) ==> !Beats(ScoreOf(loc, b, m), sorted[0].score)
  {
    var candidates := Candidates(loc, bindings, m);
    ComparatorLaws(loc);
    SortHead(candidates, CompareCandidates(loc));
    CandidatesAreMatches(loc, bindings, m);
    var head := Sort(candidates, CompareCandidates(loc))[0];
    forall b | b in bindings && Matches(loc, b, m)
      ensures !Beats(ScoreOf(loc, b, m), head.score)
    {
      var c := MatchBinding(loc, b, m).value;
      assert c in candidates && CompareCandidates(loc)(head, c) <= 0;
      NotBeaten(loc, head, c);
    }
  }

  lemma NotBeaten(loc: Locale, a: Candidate, b: Candidate)
    requires CompareBy(loc, a, b) <= 0
    ensures !Beats(b.score, a.score)
  {
  }

  lemma UnbeatenEachWay(a: Score, b: Score)
    requires !Beats(a, b) && !Beats(b, a)
    ensures a == b
  {
  }

  /** What the level bindings score: as much as the unbeaten one. */
  lemma LevelScores(loc: Locale, bindings: seq<Binding>, x: Binding, y: Binding, m: Message, best: Binding)
    requires x in bindings && y in bindings && best in bindings && forall b :: b in bindings ==> Loaded(loc, b)
    requires Matches(loc, best, m)
    requires forall b :: b in bindings && Matches(loc, b, m) ==> !Beats(ScoreOf(loc, b, m), ScoreOf(loc, best, m))
    requires LevelAtTheTop(loc, bindings, x, y, m)
    ensures Scores(loc, x, m, ScoreOf(loc, best, m)) && Scores(loc, y, m, ScoreOf(loc, best, m))
  {
    MatchesIffReceives(loc, x, m);
    MatchesIffReceives(loc, y, m);
    MatchesIffReceives(loc, best, m);
    GoesBeforeIff(loc, x, y, m);
    GoesBeforeIff(loc, y, x, m);
    GoesBeforeIff(loc, best, x, m);
    UnbeatenEachWay(ScoreOf(loc, x, m), ScoreOf(loc, y, m));
    UnbeatenEachWay(ScoreOf(loc, x, m), ScoreOf(loc, best, m));
  }

  lemma ScoresLevel(loc: Locale, bindings: seq<Binding>, x: Binding, y: Binding, m: Message, top: Score)
    requires x in bindings && y in bindings && forall b :: b in bindings ==> Loaded(loc, b)
    requires forall b :: b in bindings && Matches(loc, b, m) ==> !Beats(ScoreOf(loc, b, m), top)
    requires Scores(loc, x, m, top) && Scores(loc, y, m, top)
    ensures LevelAtTheTop(loc, bindings, x, y, m)
  {
    MatchesIffReceives(loc, x, m);
    MatchesIffReceives(loc, y, m);
    GoesBeforeIff(loc, x, y, m);
    GoesBeforeIff(loc, y, x, m);
    forall b | b in bindings && Receives(loc, b, m)
      ensures !GoesBefore(loc, b, x, m)
    {
      MatchesIffReceives(loc, b, m);
      GoesBeforeIff(loc, b, x, m);
    }
  }

  lemma ErrIffMarked(loc: Locale, bindings: seq<Binding>, m: Message)
    requires |Defaults(bindings)| == 1 && Candidates(loc, bindings, m) != []
    ensures var sorted := Sort(Candidates(loc, bindings, m), CompareCandidates(loc));
      sorted != [] && (Resolve(loc, bindings, m).Err? <==>
                       Marked(Marks(loc, Dynamic(bindings), m, sorted[0].score)) > 1)
  {
    var candidates, cmp := Candidates(loc, bindings, m), CompareCandidates(loc);
    SameMembers(candidates, Sort(candidates, cmp));
    CandidatesOfDynamic(loc, bindings, m);
    TiedSorted(candidates, cmp, Sort(candidates, cmp)[0]);
    TiedAreMarked(loc, Dynamic(bindings), m, Sort(candidates, cmp)[0]);
  }

  lemma NoCandidateNoError(loc: Locale, bindings: seq<Binding>, m: Message)
    requires |Defaults(bindings)| == 1 && Candidates(loc, bindings, m) == []
    ensures Resolve(loc, bindings, m).Ok?
  {
    SameMembers(Candidates(loc, bindings, m), Sort(Candidates(loc, bindings, m), CompareCandidates(loc)));
  }

  lemma ErrHasLevelPair(loc: Locale, bindings: seq<Binding>, m: Message) returns (i: nat, j: nat)
    requires |Defaults(bindings)| == 1 && forall b :: b in bindings ==> Loaded(loc, b)
    requires Resolve(loc, bindings, m).Err?
    ensures i < j < |Dynamic(bindings)| && LevelAtTheTop(loc, bindings, Dynamic(bindings)[i], Dynamic(bindings)[j], m)
  {
    var dynamic := Dynamic(bindings);
    if Candidates(loc, bindings, m) == [] {
      NoCandidateNoError(loc, bindings, m);
    }
    HeadIsUnbeaten(loc, bindings, m);
    ErrIffMarked(loc, bindings, m);
    var top := Sort(Candidates(loc, bindings, m), CompareCandidates(loc))[0].score;
    i, j := TwoMarked(Marks(loc, dynamic, m, top));
    assert dynamic[i] in dynamic && dynamic[j] in dynamic;
    ScoresLevel(loc, bindings, dynamic[i], dynamic[j], m, top);
  }

  lemma LevelPairIsErr(loc: Locale, bindings: seq<Binding>, m: Message, i: nat, j: nat)
    requires |Defaults(bindings)| == 1 && forall b :: b in bindings ==> Loaded(loc, b)
    requires i < j < |Dynamic(bindings)| && LevelAtTheTop(loc, bindings, Dynamic(bindings)[i], Dynamic(bindings)[j], m)
    ensures Resolve(loc, bindings, m).Err?
  {
    var dynamic := Dynamic(bindings);
    assert dynamic[i] in dynamic && dynamic[j] in dynamic;
    SomebodyReceives(loc, bindings, dynamic[i], m);
    HeadIsUnbeaten(loc, bindings, m);
    var head := Sort(Candidates(loc, bindings, m), CompareCandidates(loc))[0];
    LevelScores(loc, bindings, dynamic[i], dynamic[j], m, head.binding);
    MarkedTwice(Marks(loc, dynamic, m, head.score), i, j);
    ErrIffMarked(loc, bindings, m);
  }

  /** Any list with one default, checked or not: the ambiguity error is raised exactly when two of its
      bindings receive the message level with each other and nothing goes before them. */
  lemma AmbiguousIff(loc: Locale, bindings: seq<Binding>, m: Message)
    requires |Defaults(bindings)| == 1 && forall b :: b in bindings ==> Loaded(loc, b)
    ensures Resolve(loc, bindings, m).Err? <==>
      exists i, j :: 0 <= i < j < |Dynamic(bindings)| &&
        LevelAtTheTop(loc, bindings, Dynamic(bindings)[i], Dynamic(bindings)[j], m)
  {
    if Resolve(loc, bindings, m).Err? {
      var i, j := ErrHasLevelPair(loc, bindings, m);
    }
    forall i, j | 0 <= i < j < |Dynamic(bindings)| &&
        LevelAtTheTop(loc, bindings, Dynamic(bindings)[i], Dynamic(bindings)[j], m)
      ensures Resolve(loc, bindings, m).Err?
    {
      LevelPairIsErr(loc, bindings, m, i, j);
    }
  }

  lemma SomebodyReceives(loc: Locale, bindings: seq<Binding>, b: Binding, m: Message)
    requires b in bindings && Loaded(loc, b) && Receives(loc, b, m)
    ensures Candidates(loc, bindings, m) != []
  {
    MatchesIffReceives(loc, b, m);
    CandidatesAreMatches(loc, bindings, m);
  }

  // ---------------------------------------------------------------- what is accepted

  lemma {:induction false} NoDefaults(group: seq<Binding>)
    ensures Defaults(group) == [] <==> forall b :: b in group ==> !b.route.default
  {
    if group != [] {
      NoDefaults(group[1..]);
      assert group == [group[0]] + group[1..];
    }
  }

  /** The place of the only default. */
  ghost predicate OnlyDefaultAt(group: seq<Binding>, i: nat) {
    i < |group| && group[i].route.default &&
    (forall b :: b in group[..i] ==> !b.route.default) && (forall b :: b in group[i + 1..] ==> !b.route.default)
  }

  lemma {:induction false} OneDefault(group: seq<Binding>, i: nat)
    requires OnlyDefaultAt(group, i)
    ensures Defaults(group) == [group[i]]
  {
    if i == 0 {
      NoDefaults(group[1..]);
    } else {
      assert group[0] in group[..i];
      assert group[1..][..i - 1] == group[1..i] && group[1..][i..] == group[i + 1..];
      assert forall b :: b in group[1..i] ==> b in group[..i];
      OneDefault(group[1..], i - 1);
    }
  }

  lemma {:induction false} DefaultHasPlace(group: seq<Binding>) returns (i: nat)
    requires |Defaults(group)| == 1
    ensures OnlyDefaultAt(group, i)
  {
    if group[0].route.default {
      NoDefaults(group[1..]);
      i := 0;
    } else {
      i := DefaultHasPlace(group[1..]);
      i := i + 1;
      assert group[..i] == [group[0]] + group[1..][..i - 1];
      assert group[i + 1..] == group[1..][i..];
    }
  }

  /** The check of one app accepts exactly the lists with one default, in which no prefix stands at two
      places, all agents that use a `lark-cli` profile use the same one, and no message makes two
      dynamic bindings tie. */
  lemma AppAcceptedIff(loc: Locale, profile: Profiles, group: seq<Binding>)
    requires forall b :: b in group ==> Loaded(loc, b)
    ensures AppAccepted(profile, group) <==>
      (exists i :: OnlyDefaultAt(group, i)) &&
      (forall i, j, x, y, p | 0 <= i < |group| && 0 <= j < |group| && Lists(group[i], x, p) && Lists(group[j], y, p) ::
        i == j && x == y) &&
      (forall a, b :: a in group && b in group && profile(a.agent).Some? && profile(b.agent).Some? ==>
        profile(a.agent) == profile(b.agent)) &&
      (forall m :: NoTies(loc, Dynamic(group), m))
  {
    forall i | OnlyDefaultAt(group, i)
      ensures |Defaults(group)| == 1
    {
      OneDefault(group, i);
    }
    if |Defaults(group)| == 1 {
      var i := DefaultHasPlace(group);
      if PrefixesOwnedOnce(group) {
        AcceptanceIsExact(loc, group);
      }
    }
  }
}
