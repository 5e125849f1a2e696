/** The failed-login buckets that limit how often a client may try the administrator token.

    A login is one synchronous call that reads the clock twice: when it checks the bucket and when it
    records a failure.  Times are milliseconds.  */
module LoginRate {
  import opened SetFacts

  type Client = string

  datatype Bucket = Bucket(failures: nat, resetAt: int)

  type Buckets = map<Client, Bucket>

  /** `enabled` says that a bootstrap token is configured. */
  datatype Config = Config(window: int, maxAttempts: nat, enabled: bool)

  predicate ValidConfig(c: Config) {
    c.window >= 1000 && c.maxAttempts >= 1
  }

  datatype Op =
    | Login(client: Client, checkedAt: int, correct: bool, recordedAt: int)
    | Purge(at: int)

  datatype Outcome = Limited(retryAfterSeconds: int) | Disabled | Failed | Succeeded

  // ---------------------------------------------------------------- transitions

  predicate Expired(b: Bucket, now: int) {
    b.resetAt <= now
  }

  /** Seconds until the bucket is reset, rounded up, and at least one. */
  function RetryAfter(b: Bucket, now: int): (seconds: int) {
    var up := (b.resetAt - now + 999) / 1000;
    if up < 1 then 1 else up
  }

  predicate IsLimited(c: Config, s: Buckets, client: Client, now: int) {
    client in s && !Expired(s[client], now) && s[client].failures >= c.maxAttempts
  }

  /** What the check leaves: it drops the client's bucket when that has expired. */
  function Checked(s: Buckets, client: Client, now: int): Buckets {
    if client in s && Expired(s[client], now) then s - {client} else s
  }

  function Recorded(c: Config, s: Buckets, client: Client, now: int): Buckets {
    var b := if client !in s || Expired(s[client], now) then Bucket(0, now + c.window) else s[client];
    s[client := b.(failures := b.failures + 1)]
  }

  function LoginOutcome(c: Config, s: Buckets, op: Op): Outcome
    requires op.Login?
  {
    if IsLimited(c, s, op.client, op.checkedAt) then Limited(RetryAfter(s[op.client], op.checkedAt))
    else if !c.enabled then Disabled
    else if op.correct then Succeeded
    else Failed
  }

  function LoginStep(c: Config, s: Buckets, op: Op): Buckets
    requires op.Login?
  {
    match LoginOutcome(c, s, op)
    case Limited(_) => s
    case Disabled => Checked(s, op.client, op.checkedAt)
    case Failed => Recorded(c, Checked(s, op.client, op.checkedAt), op.client, op.recordedAt)
    case Succeeded => Checked(s, op.client, op.checkedAt) - {op.client}
  }

  function PurgeStep(s: Buckets, now: int): Buckets {
    map k | k in s && !Expired(s[k], now) :: s[k]
  }

  function Apply(c: Config, s: Buckets, op: Op): Buckets {
    match op
    case Login(_, _, _, _) => LoginStep(c, s, op)
    case Purge(now) => PurgeStep(s, now)
  }

  function Run(c: Config, s: Buckets, ops: seq<Op>): Buckets
    decreases |ops|
  {
    if ops == [] then s else Run(c, Apply(c, s, ops[0]), ops[1..])
  }

  function Start(op: Op): int { if op.Login? then op.checkedAt else op.at }

  function End(op: Op): int { if op.Login? then op.recordedAt else op.at }

  /** The clock never goes backwards, and all of it happens between `from` and `to`. */
  predicate Within(ops: seq<Op>, from: int, to: int)
    decreases |ops|
  {
    ops == [] || (from <= Start(ops[0]) <= End(ops[0]) <= to && Within(ops[1..], End(ops[0]), to))
  }

  predicate FailsNow(c: Config, s: Buckets, op: Op, client: Client) {
    op.Login? && op.client == client && LoginOutcome(c, s, op).Failed?
  }

  predicate SucceedsNow(c: Config, s: Buckets, op: Op, client: Client) {
    op.Login? && op.client == client && LoginOutcome(c, s, op).Succeeded?
  }

  /** Failed token comparisons of one client along a run. */
  function Failures(c: Config, s: Buckets, ops: seq<Op>, client: Client): nat
    decreases |ops|
  {
    if ops == [] then 0
    else (if FailsNow(c, s, ops[0], client) then 1 else 0) + Failures(c, Apply(c, s, ops[0]), ops[1..], client)
  }

  predicate NoSuccess(c: Config, s: Buckets, ops: seq<Op>, client: Client)
    decreases |ops|
  {
    ops == [] || (!SucceedsNow(c, s, ops[0], client) && NoSuccess(c, Apply(c, s, ops[0]), ops[1..], client))
  }

  // ---------------------------------------------------------------- no bucket passes the limit

  predicate BucketsInv(c: Config, s: Buckets) {
    forall k :: k in s ==> 1 <= s[k].failures <= c.maxAttempts
  }

  lemma {:induction false} RunKeepsInv(c: Config, s: Buckets, ops: seq<Op>)
    requires ValidConfig(c) && BucketsInv(c, s)
    ensures BucketsInv(c, Run(c, s, ops))
    decreases |ops|
  {
    if ops != [] {
      RunKeepsInv(c, Apply(c, s, ops[0]), ops[1..]);
    }
  }

  /** Whatever is tried and purged, no bucket ever counts above the limit. */
  lemma BucketsStayBounded(c: Config, ops: seq<Op>, client: Client)
    requires ValidConfig(c) && client in Run(c, map[], ops)
    ensures 1 <= Run(c, map[], ops)[client].failures <= c.maxAttempts
  {
    RunKeepsInv(c, map[], ops);
  }

  // ---------------------------------------------------------------- failures in a window

  /** `n` failures were counted since time `a`, all into one bucket: into the present one, or into one
      that has expired since. */
  predicate OneBucket(c: Config, s: Buckets, client: Client, a: int, now: int, n: nat) {
    n <= c.maxAttempts &&
    (n > 0 ==> if client in s then s[client].resetAt > a && n <= s[client].failures else now > a)
  }

  /** They went into two buckets, and the present one outlives the window. */
  predicate TwoBuckets(c: Config, s: Buckets, client: Client, a: int, n: nat) {
    client in s && s[client].resetAt > a + c.window && n <= c.maxAttempts + s[client].failures
  }

  lemma StepWithin(c: Config, s: Buckets, op: Op, client: Client, a: int, now: int, n: nat)
    requires ValidConfig(c) && BucketsInv(c, s)
    requires a <= now <= Start(op) <= End(op) <= a + c.window && !SucceedsNow(c, s, op, client)
    requires OneBucket(c, s, client, a, now, n) || TwoBuckets(c, s, client, a, n)
    ensures var m := n + if FailsNow(c, s, op, client) then 1 else 0;
      OneBucket(c, Apply(c, s, op), client, a, End(op), m) || TwoBuckets(c, Apply(c, s, op), client, a, m)
  {
  }

  lemma {:induction false} RunWithin(c: Config, s: Buckets, ops: seq<Op>, client: Client, a: int, now: int, n: nat)
    requires ValidConfig(c) && BucketsInv(c, s) && a <= now
    requires Within(ops, now, a + c.window) && NoSuccess(c, s, ops, client)
    requires OneBucket(c, s, client, a, now, n) || TwoBuckets(c, s, client, a, n)
    ensures n + Failures(c, s, ops, client) <= 2 * c.maxAttempts
    decreases |ops|
  {
    if ops != [] {
      StepWithin(c, s, ops[0], client, a, now, n);
      RunWithin(c, Apply(c, s, ops[0]), ops[1..], client, a, End(ops[0]),
                n + if FailsNow(c, s, ops[0], client) then 1 else 0);
    }
  }

  /** In any stretch of a run that lasts no longer than the window and has no successful login of the
      client, the client's token is compared and found wrong at most twice the limit. */
  lemma FailuresPerWindow(c: Config, before: seq<Op>, ops: seq<Op>, client: Client, a: int)
    requires ValidConfig(c) && Within(ops, a, a + c.window)
    requires NoSuccess(c, Run(c, map[], before), ops, client)
    ensures Failures(c, Run(c, map[], before), ops, client) <= 2 * c.maxAttempts
  {
    RunKeepsInv(c, map[], before);
    RunWithin(c, Run(c, map[], before), ops, client, a, a, 0);
  }

  function Guesses(client: Client, at: int, n: nat): seq<Op> {
    if n == 0 then [] else [Login(client, at, false, at)] + Guesses(client, at, n - 1)
  }

  lemma {:induction false} GuessesFill(c: Config, s: Buckets, client: Client, at: int, n: nat, rest: seq<Op>)
    requires ValidConfig(c) && c.enabled && n <= c.maxAttempts
    requires client in s && !Expired(s[client], at) ==> s[client] == Bucket(c.maxAttempts - n, at + c.window)
    requires client !in s || Expired(s[client], at) ==> n == c.maxAttempts
    ensures Failures(c, s, Guesses(client, at, n) + rest, client) == n +
      Failures(c, Run(c, s, Guesses(client, at, n)), rest, client)
    ensures n > 0 || client in s ==>
      client in Run(c, s, Guesses(client, at, n)) &&
      Run(c, s, Guesses(client, at, n))[client] == Bucket(c.maxAttempts, at + c.window)
    decreases n
  {
    if n == 0 {
      assert Guesses(client, at, n) + rest == rest;
    } else {
      var op := Login(client, at, false, at);
      var all := Guesses(client, at, n) + rest;
      assert all[0] == op && all[1..] == Guesses(client, at, n - 1) + rest;
      assert Guesses(client, at, n)[1..] == Guesses(client, at, n - 1);
      GuessesFill(c, Apply(c, s, op), client, at, n - 1, rest);
    }
  }

  lemma {:induction false} GuessesWithin(client: Client, at: int, n: nat, rest: seq<Op>, to: int)
    requires at <= to && Within(rest, at, to)
    ensures Within(Guesses(client, at, n) + rest, at, to)
    decreases n
  {
    if n == 0 {
      assert Guesses(client, at, n) + rest == rest;
    } else {
      GuessesWithin(client, at, n - 1, rest, to);
      var op, tail := Login(client, at, false, at), Guesses(client, at, n - 1) + rest;
      assert Guesses(client, at, n) + rest == [op] + tail;
      OneMoreWithin(op, tail, at, to);
    }
  }

  lemma OneMoreWithin(op: Op, tail: seq<Op>, from: int, to: int)
    requires from <= Start(op) <= End(op) <= to && Within(tail, End(op), to)
    ensures Within([op] + tail, from, to)
  {
    assert ([op] + tail)[1..] == tail;
  }

  /** The bound cannot be lowered: filling one bucket when the window opens and the next one when it
      closes makes exactly twice the limit. */
  lemma FailuresPerWindowIsTight(c: Config, client: Client, a: int)
    requires ValidConfig(c) && c.enabled
    ensures var ops := Guesses(client, a, c.maxAttempts) + Guesses(client, a + c.window, c.maxAttempts);
      Within(ops, a, a + c.window) && Failures(c, map[], ops, client) == 2 * c.maxAttempts
  {
    var first, second := Guesses(client, a, c.maxAttempts), Guesses(client, a + c.window, c.maxAttempts);
    assert second + [] == second;
    GuessesWithin(client, a + c.window, c.maxAttempts, [], a + c.window);
    assert second[0].client == client;
    GuessesWithin(client, a, c.maxAttempts, second, a + c.window);
    GuessesFill(c, map[], client, a, c.maxAttempts, second);
    GuessesFill(c, Run(c, map[], first), client, a + c.window, c.maxAttempts, []);
  }

  /** A client that waits for as long as it was told to is no longer limited, and not before one
      second less than that. */
  lemma RetryAfterIsEnough(c: Config, s: Buckets, client: Client, now: int)
    requires IsLimited(c, s, client, now)
    ensures var wait := RetryAfter(s[client], now);
      wait >= 1 && !IsLimited(c, s, client, now + 1000 * wait) && IsLimited(c, s, client, now + 1000 * (wait - 1))
  {
  }

  /** What a login comes to, and what it leaves: a client is limited while a live bucket is full; a
      success empties its bucket, a failure counts in the live bucket or in a new one, and no other
      client's bucket changes. */
  lemma LoginGives(c: Config, s: Buckets, op: Op)
    requires op.Login? && op.checkedAt <= op.recordedAt
    ensures var outcome, r, k := LoginOutcome(c, s, op), Apply(c, s, op), op.client;
      var live := k in s && s[k].resetAt > op.checkedAt;
      var full := live && s[k].failures >= c.maxAttempts;
      (outcome.Limited? <==> full) && (outcome == Disabled <==> !full && !c.enabled) &&
      (outcome == Succeeded <==> !full && c.enabled && op.correct) &&
      (full ==> r == s) && (outcome == Succeeded ==> k !in r) &&
      (outcome == Disabled ==> (k in r <==> live) && (live ==> r[k] == s[k])) &&
      (outcome == Failed ==>
        k in r &&
        r[k] == if k in s && s[k].resetAt > op.recordedAt then Bucket(s[k].failures + 1, s[k].resetAt)
                else Bucket(1, op.recordedAt + c.window)) &&
      forall j :: j != k ==> (j in r <==> j in s) && (j in s ==> r[j] == s[j])
  {
  }

  /** The sweep can be left out or done at any time: it removes every expired bucket, and no later
      login can tell, neither by its outcome nor by what it leaves of its client's bucket. */
  lemma PurgeChangesNoOutcome(c: Config, s: Buckets, now: int, op: Op)
    requires op.Login? && now <= op.checkedAt <= op.recordedAt
    ensures forall k :: k in PurgeStep(s, now) ==> !Expired(PurgeStep(s, now)[k], now)
    ensures LoginOutcome(c, PurgeStep(s, now), op) == LoginOutcome(c, s, op)
    ensures var a, b := LoginStep(c, PurgeStep(s, now), op), LoginStep(c, s, op);
      (op.client in a <==> op.client in b) && (op.client in a ==> a[op.client] == b[op.client])
  {
  }

  // ---------------------------------------------------------------- the mutable service

  class AdminAuthService {
    const config: Config
    var failedLogins: Buckets

    ghost predicate Valid()
      reads this
    {
      ValidConfig(config) && BucketsInv(config, failedLogins)
    }

    constructor (config: Config)
      requires ValidConfig(config)
      ensures Valid() && this.config == config && failedLogins == map[]
    {
      this.config := config;
      failedLogins := map[];
    }

    /** Some(seconds) refuses the attempt. */
    method AssertRateLimit(client: Client, now: int) returns (limited: bool, retryAfterSeconds: int)
      modifies this
      ensures limited <==> IsLimited(config, old(failedLogins), client, now)
      ensures limited ==>
        retryAfterSeconds == RetryAfter(old(failedLogins)[client], now) && failedLogins == old(failedLogins)
      ensures !limited ==> failedLogins == Checked(old(failedLogins), client, now)
    {
      if client !in failedLogins || failedLogins[client].resetAt <= now {
        if client in failedLogins {
          failedLogins := failedLogins - {client};
        }
        return false, 0;
      }
      if failedLogins[client].failures >= config.maxAttempts {
        return true, RetryAfter(failedLogins[client], now);
      }
      return false, 0;
    }

    method RecordFailedLogin(client: Client, now: int)
      modifies this
      ensures failedLogins == Recorded(config, old(failedLogins), client, now)
    {
      var bucket: Bucket;
      if client !in failedLogins || failedLogins[client].resetAt <= now {
        bucket := Bucket(0, now + config.window);
      } else {
        bucket := failedLogins[client];
      }
      bucket := bucket.(failures := bucket.failures + 1);
      failedLogins := failedLogins[client := bucket];
    }

    method LoginWithBootstrapToken(client: Client, checkedAt: int, correct: bool, recordedAt: int) returns (r: Outcome)
      requires Valid() && checkedAt <= recordedAt
      modifies this
      ensures Valid()
      ensures r == LoginOutcome(config, old(failedLogins), Login(client, checkedAt, correct, recordedAt))
      ensures failedLogins == LoginStep(config, old(failedLogins), Login(client, checkedAt, correct, recordedAt))
    {
      var limited, retryAfterSeconds := AssertRateLimit(client, checkedAt);
      if limited {
        return Limited(retryAfterSeconds);
      }
      if !config.enabled {
        return Disabled;
      }
      if !correct {
        RecordFailedLogin(client, recordedAt);
        return Failed;
      }
      failedLogins := failedLogins - {client};
      r := Succeeded;
    }

    /** The sweep over the buckets. */
    method PurgeExpired(now: int)
      requires Valid()
      modifies this
      ensures Valid() && failedLogins == PurgeStep(old(failedLogins), now)
    {
      var rest := failedLogins.Keys;
      while rest != {}
        invariant rest <= old(failedLogins).Keys
        invariant failedLogins == map k | k in old(failedLogins) &&
          (k in rest || !Expired(old(failedLogins)[k], now)) :: old(failedLogins)[k]
        decreases |rest|
      {
        var key := Pick(rest);
        if failedLogins[key].resetAt <= now {
          failedLogins := failedLogins - {key};
        }
        rest := rest - {key};
      }
    }
  }
}
