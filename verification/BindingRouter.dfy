/** One message to one binding inside an app runtime. */
module BindingRouter {
  import opened Wrappers
  import opened Sorting

  /** What JavaScript strings and the host locale contribute: white space, a case mapping that
      keeps the length, and a collation rank per string. */
  datatype Locale = Locale(space: char -> bool, lower: char -> char, rank: string -> int)

  datatype Route = Route(
    default: bool,
    priority: int,
    commandPrefixes: seq<string>,
    chatAllowlist: seq<string>,
    userAllowlist: seq<string>,
    threadAllowlist: seq<string>)

  /** `conversation` and `agent` stand for the serialized policy and agent definition,
      `configFile` for everything that is not part of the runtime signature. */
  datatype Binding = Binding(
    id: string, app: string, route: Route, conversation: string, agent: string, configFile: string)

  datatype Message = Message(
    chatId: string, senderId: string, threadId: Option<string>, rootId: Option<string>, content: string)

  datatype Score = Score(priority: int, length: nat, specificity: nat)

  datatype Candidate = Candidate(binding: Binding, message: Message, commandPrefix: Option<string>, score: Score)

  datatype RouteMatch = RouteMatch(binding: Binding, message: Message, commandPrefix: Option<string>)

  // ---------------------------------------------------------------- strings

  function TrimStart(loc: Locale, s: string): (r: string)
    ensures |r| <= |s| && r == s[|s| - |r|..]
    ensures forall i :: 0 <= i < |s| - |r| ==> loc.space(s[i])
    ensures r != "" ==> !loc.space(r[0])
  {
    if s != "" && loc.space(s[0]) then TrimStart(loc, s[1..]) else s
  }

  function TrimEnd(loc: Locale, s: string): (r: string)
    ensures |r| <= |s| && r == s[..|r|]
    ensures forall i :: |r| <= i < |s| ==> loc.space(s[i])
    ensures r != "" ==> !loc.space(r[|r| - 1])
  {
    if s != "" && loc.space(s[|s| - 1]) then TrimEnd(loc, s[..|s| - 1]) else s
  }

  function Trim(loc: Locale, s: string): string {
    TrimEnd(loc, TrimStart(loc, s))
  }

  function Lower(loc: Locale, s: string): (r: string)
    ensures |r| == |s|
  {
    seq(|s|, i requires 0 <= i < |s| => loc.lower(s[i]))
  }

  predicate StartsWith(s: string, prefix: string) {
    |prefix| <= |s| && s[..|prefix|] == prefix
  }

  // ---------------------------------------------------------------- matching one binding

  predicate PrefixMatches(loc: Locale, normalized: string, prefix: string) {
    normalized == prefix ||
    (StartsWith(normalized, prefix) && |prefix| < |normalized| && loc.space(normalized[|prefix|]))
  }

  function MatchingPrefixes(loc: Locale, normalized: string, prefixes: seq<string>): (r: seq<string>)
    ensures forall p :: p in r <==> p in prefixes && PrefixMatches(loc, normalized, p)
  {
    if prefixes == [] then []
    else (if PrefixMatches(loc, normalized, prefixes[0]) then [prefixes[0]] else []) +
         MatchingPrefixes(loc, normalized, prefixes[1..])
  }

  function Normalized(loc: Locale, content: string): string {
    Lower(loc, TrimStart(loc, content))
  }

  function LongestMatchingPrefix(loc: Locale, content: string, prefixes: seq<string>): Option<string> {
    var sorted := Sort(MatchingPrefixes(loc, Normalized(loc, content), prefixes), (a: string, b: string) => |b| - |a|);
    if sorted == [] then None else Some(sorted[0])
  }

  predicate Selected(allowlist: seq<string>, value: string) {
    allowlist == [] || value in allowlist
  }

  function TopicKey(m: Message): string {
    if m.threadId.Some? then m.threadId.value else if m.rootId.Some? then m.rootId.value else "main"
  }

  function Count(filter: seq<string>): nat {
    if filter == [] then 0 else 1
  }

  function Specificity(r: Route): nat {
    Count(r.chatAllowlist) + Count(r.userAllowlist) + Count(r.threadAllowlist) + Count(r.commandPrefixes)
  }

  const EMPTY_COMMAND_TEXT := "请说明当前 Agent 可以完成的任务。"

  /** The content behind the command prefix, or a fixed request when nothing is left. */
  function WithoutPrefix(loc: Locale, content: string, prefix: string): string {
    var skip := |content| - |TrimStart(loc, content)| + |prefix|;
    var body := Trim(loc, if skip <= |content| then content[skip..] else "");
    if body == "" then EMPTY_COMMAND_TEXT else body
  }

  predicate SelectorsMatch(r: Route, m: Message) {
    Selected(r.chatAllowlist, m.chatId) && Selected(r.userAllowlist, m.senderId) &&
    Selected(r.threadAllowlist, TopicKey(m))
  }

  function MatchBinding(loc: Locale, b: Binding, m: Message): Option<Candidate> {
    if !SelectorsMatch(b.route, m) then None
    else
      var prefix := LongestMatchingPrefix(loc, m.content, b.route.commandPrefixes);
      var usable := prefix.Some? && prefix.value != "";
      if b.route.commandPrefixes != [] && !usable then None
      else
        var message := if usable then m.(content := WithoutPrefix(loc, m.content, prefix.value)) else m;
        Some(Candidate(b, message, if usable then prefix else None,
                       Score(b.route.priority, if prefix.Some? then |prefix.value| else 0, Specificity(b.route))))
  }

  // ---------------------------------------------------------------- choosing among bindings

  function Candidates(loc: Locale, bindings: seq<Binding>, m: Message): seq<Candidate> {
    if bindings == [] then []
    else
      var c := if bindings[0].route.default then None else MatchBinding(loc, bindings[0], m);
      (if c.Some? then [c.value] else []) + Candidates(loc, bindings[1..], m)
  }

  /** Positive when `right` ranks before `left`. */
  function CompareScores(left: Score, right: Score): int {
    if right.priority != left.priority then right.priority - left.priority
    else if right.length != left.length then right.length - left.length
    else right.specificity - left.specificity
  }

  function CompareBy(loc: Locale, left: Candidate, right: Candidate): int {
    if CompareScores(left.score, right.score) != 0 then CompareScores(left.score, right.score)
    else loc.rank(left.binding.id) - loc.rank(right.binding.id)
  }

  function CompareCandidates(loc: Locale): (Candidate, Candidate) -> int {
    (left: Candidate, right: Candidate) => CompareBy(loc, left, right)
  }

  function Tied(candidates: seq<Candidate>, winner: Candidate): (r: seq<Candidate>)
    ensures |r| <= |candidates|
  {
    if candidates == [] then []
    else (if candidates[0].score == winner.score then [candidates[0]] else []) + Tied(candidates[1..], winner)
  }

  function Defaults(bindings: seq<Binding>): seq<Binding> {
    if bindings == [] then []
    else (if bindings[0].route.default then [bindings[0]] else []) + Defaults(bindings[1..])
  }

  function Ids(candidates: seq<Candidate>): seq<string> {
    seq(|candidates|, i requires 0 <= i < |candidates| => candidates[i].binding.id)
  }

  /** Err carries the ids of the tied bindings. */
  function Resolve(loc: Locale, bindings: seq<Binding>, m: Message): Result<RouteMatch, seq<string>>
    requires |Defaults(bindings)| == 1
  {
    var sorted := Sort(Candidates(loc, bindings, m), CompareCandidates(loc));
    if sorted == [] then Ok(RouteMatch(Defaults(bindings)[0], m, None))
    else
      var tied := Tied(sorted, sorted[0]);
      if |tied| > 1 then Err(Ids(tied))
      else Ok(RouteMatch(sorted[0].binding, sorted[0].message, sorted[0].commandPrefix))
  }
}
