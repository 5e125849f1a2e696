/** The capability table of the model broker: tokens with a sliding time to live and a hard cap on
    their lifetime, dropped lazily, and checked again once a request's body has been read.

    `lives` is what the specification remembers about every token ever issued; the broker itself keeps
    only `capabilities`.  Tokens are random, so each is issued once.  */
module ModelBroker {
  import opened Wrappers
  import opened SetFacts

  type Token = string
  type RequestId = string

  /** What a token is good for. */
  datatype Scope = Scope(
    appKey: string, agentId: string, bindingId: string, storageId: string, model: string, modelApi: string,
      upstreamPath: string)

  /** `normalizePath` answers None for a path that is not a normalized relative one. */
  datatype Config = Config(ttl: int, maxLifetime: int, trim: string -> string, normalizePath: string -> Option<string>)

  predicate ValidConfig(c: Config) {
    c.ttl > 0 && c.maxLifetime > 0
  }

  datatype Capability = Capability(scope: Scope, issuedAt: int, lastUsedAt: int, expiresAt: int, maxExpiresAt: int)

  /** `ended` says that the token was revoked, dropped by a disconnect, or cleared by a stop. */
  datatype Life = Life(scope: Scope, issuedAt: int, lastUse: int, ended: bool)

  datatype Phase = Reading(token: Token) | Forwarded(token: Token) | Over

  datatype State = State(
    now: int,
    started: bool,
    capabilities: map<Token, Capability>,
    lives: map<Token, Life>,
    requests: map<RequestId, Phase>)

  datatype Step =
    | Start
    | Stop
    | Issue(token: Token, scope: Scope, at: int)
    | Revoke(token: Token)
    | Arrive(request: RequestId, token: Token, knownPath: bool, at: int)
    | BodyRead(request: RequestId, valid: bool, at: int)
    | Disconnect(request: RequestId)
    | Finish(request: RequestId)
    | Snapshot(at: int)

  // ---------------------------------------------------------------- capabilities

  function Min(a: int, b: int): int { if a < b then a else b }

  predicate IsExpired(c: Capability, now: int) {
    now >= c.expiresAt || now >= c.maxExpiresAt
  }

  function NewCapability(cfg: Config, scope: Scope, now: int): Capability {
    Capability(scope, now, now, Min(now + cfg.ttl, now + cfg.maxLifetime), now + cfg.maxLifetime)
  }

  function Used(cfg: Config, c: Capability, now: int): Capability {
    c.(lastUsedAt := now, expiresAt := Min(now + cfg.ttl, c.maxExpiresAt))
  }

  datatype IssueError = NotStarted | BadPath | EmptyField(name: string)

  /** The scope that is tabled: fields trimmed and the path normalized, or the first thing wrong. */
  function CleanScope(cfg: Config, s: Scope): Result<Scope, IssueError> {
    var path := cfg.normalizePath(s.upstreamPath);
    if path.None? then Err(BadPath)
    else if cfg.trim(s.appKey) == "" then Err(EmptyField("appKey"))
    else if cfg.trim(s.agentId) == "" then Err(EmptyField("agentId"))
    else if cfg.trim(s.bindingId) == "" then Err(EmptyField("bindingId"))
    else if cfg.trim(s.storageId) == "" then Err(EmptyField("storageId"))
    else if cfg.trim(s.model) == "" then Err(EmptyField("model"))
    else
      Ok(Scope(cfg.trim(s.appKey), cfg.trim(s.agentId), cfg.trim(s.bindingId), cfg.trim(s.storageId), cfg.trim(s.model),
               s.modelApi, path.value))
  }

  /** The lookup that drops what has expired. */
  function Active(capabilities: map<Token, Capability>, t: Token, now: int): Option<Capability> {
    if t in capabilities && !IsExpired(capabilities[t], now) then Some(capabilities[t]) else None
  }

  function AfterLookup(capabilities: map<Token, Capability>, t: Token, now: int): map<Token, Capability> {
    if t in capabilities && IsExpired(capabilities[t], now) then capabilities - {t} else capabilities
  }

  function Pruned(capabilities: map<Token, Capability>, now: int): map<Token, Capability> {
    map t | t in capabilities && !IsExpired(capabilities[t], now) :: capabilities[t]
  }

  // ---------------------------------------------------------------- steps

  function Ended(lives: map<Token, Life>, t: Token): map<Token, Life> {
    if t in lives then lives[t := lives[t].(ended := true)] else lives
  }

  predicate Enabled(cfg: Config, s: State, step: Step) {
    match step
    case Issue(t, scope, now) => s.started && t !in s.lives && s.now <= now && CleanScope(cfg, scope).Ok?
    case Arrive(r, _, _, now) => r !in s.requests && s.now <= now
    case BodyRead(r, _, now) => r in s.requests && s.requests[r].Reading? && s.now <= now
    case Disconnect(r) => r in s.requests && !s.requests[r].Over?
    case Finish(r) => r in s.requests && s.requests[r].Forwarded?
    case Snapshot(now) => s.now <= now
    case _ => true
  }

  function BodyReadStep(cfg: Config, s: State, step: Step): State
    requires step.BodyRead? && Enabled(cfg, s, step)
  {
    var t, now := s.requests[step.request].token, step.at;
    if !step.valid then s.(now := now, requests := s.requests[step.request := Over])
    else
      match Active(s.capabilities, t, now)
      case None => s.(now := now, capabilities := AfterLookup(s.capabilities, t, now),
                      requests := s.requests[step.request := Over])
      case Some(c) =>
        s.(now := now, capabilities := s.capabilities[t := Used(cfg, c, now)],
           lives := if t in s.lives then s.lives[t := s.lives[t].(lastUse := now)] else s.lives,
           requests := s.requests[step.request := Forwarded(t)])
  }

  function Apply(cfg: Config, s: State, step: Step): State
    requires Enabled(cfg, s, step)
  {
    match step
    case Start => s.(started := true)
    case Stop => s.(started := false, capabilities := map[], lives := map t | t in s.lives ::
                    s.lives[t].(ended := true))
    case Issue(t, scope, now) =>
      var clean := CleanScope(cfg, scope).value;
      s.(now := now, capabilities := s.capabilities[t := NewCapability(cfg, clean, now)],
         lives := s.lives[t := Life(clean, now, now, false)])
    case Revoke(t) => s.(capabilities := s.capabilities - {t}, lives := Ended(s.lives, t))
    case Arrive(r, t, knownPath, now) =>
      s.(now := now, capabilities := AfterLookup(s.capabilities, t, now),
         requests := s.requests[r := if Active(s.capabilities, t, now).Some? && knownPath then Reading(t) else Over])
    case BodyRead(_, _, _) => BodyReadStep(cfg, s, step)
    case Disconnect(r) =>
      s.(capabilities := s.capabilities - {s.requests[r].token}, lives := Ended(s.lives, s.requests[r].token),
         requests := s.requests[r := Over])
    case Finish(r) => s.(requests := s.requests[r := Over])
    case Snapshot(now) => s.(now := now, capabilities := Pruned(s.capabilities, now))
  }

  function Run(cfg: Config, s: State, steps: seq<Step>): State
    decreases |steps|
  {
    if steps == [] then s else Run(cfg, if Enabled(cfg, s, steps[0]) then Apply(cfg, s, steps[0]) else s, steps[1..])
  }

  function Init(now: int): State {
    State(now, false, map[], map[], map[])
  }

  // ---------------------------------------------------------------- the closed form

  /** When a token is good: not ended, used less than the time to live ago, and not past its cap. */
  predicate Good(cfg: Config, l: Life, t: int) {
    !l.ended && t < l.lastUse + cfg.ttl && t < l.issuedAt + cfg.maxLifetime
  }

  /** A tabled capability is as its life says, and a live token is missing only once it has expired. */
  predicate TokenInv(cfg: Config, s: State, t: Token) {
    if t !in s.lives then t !in s.capabilities
    else if t in s.capabilities then
      var c, l := s.capabilities[t], s.lives[t];
      !l.ended && c.scope == l.scope && c.issuedAt == l.issuedAt && c.lastUsedAt == l.lastUse &&
      c.maxExpiresAt == l.issuedAt + cfg.maxLifetime &&
      c.expiresAt == Min(l.lastUse + cfg.ttl, c.maxExpiresAt)
    else !Good(cfg, s.lives[t], s.now)
  }

  ghost predicate Inv(cfg: Config, s: State) {
    forall t :: TokenInv(cfg, s, t)
  }

  lemma TokenStep(cfg: Config, s: State, step: Step, t: Token)
    requires ValidConfig(cfg) && Enabled(cfg, s, step) && TokenInv(cfg, s, t)
    ensures TokenInv(cfg, Apply(cfg, s, step), t)
  {
  }

  lemma {:induction false} RunKeepsInv(cfg: Config, s: State, steps: seq<Step>)
    requires ValidConfig(cfg) && Inv(cfg, s)
    ensures Inv(cfg, Run(cfg, s, steps))
    decreases |steps|
  {
    if steps != [] {
      var r := if Enabled(cfg, s, steps[0]) then Apply(cfg, s, steps[0]) else s;
      if Enabled(cfg, s, steps[0]) {
        forall t
          ensures TokenInv(cfg, r, t)
        {
          TokenStep(cfg, s, steps[0], t);
        }
      }
      RunKeepsInv(cfg, r, steps[1..]);
    }
  }

  /** The lazily pruned table answers like the closed form: after any run, a token is found active at
      any later moment exactly when it was issued, has not ended, was last used less than the time to
      live ago, and is not past its hard cap; and then with the scope it was issued for. */
  lemma TableRefinesClosedForm(cfg: Config, start: int, steps: seq<Step>, t: Token, at: int)
    requires ValidConfig(cfg) && Run(cfg, Init(start), steps).now <= at
    ensures var s := Run(cfg, Init(start), steps);
      (Active(s.capabilities, t, at).Some? <==> t in s.lives && Good(cfg, s.lives[t], at)) &&
      (Active(s.capabilities, t, at).Some? ==> Active(s.capabilities, t, at).value.scope == s.lives[t].scope)
  {
    RunKeepsInv(cfg, Init(start), steps);
    assert TokenInv(cfg, Run(cfg, Init(start), steps), t);
  }

  /** A request is forwarded exactly when its body is valid and its token is good again at the moment
      the body has been read; that use then counts, so the token stays good for a full time to live
      from there, up to its cap. */
  lemma ForwardedIffGoodAgain(cfg: Config, start: int, steps: seq<Step>, step: Step)
    requires ValidConfig(cfg) && step.BodyRead? && Enabled(cfg, Run(cfg, Init(start), steps), step)
    ensures var s := Run(cfg, Init(start), steps);
      var t, r := s.requests[step.request].token, BodyReadStep(cfg, s, step);
      (r.requests[step.request].Forwarded? <==> step.valid && t in s.lives && Good(cfg, s.lives[t], step.at)) &&
      (r.requests[step.request].Forwarded? ==> r.lives[t] == s.lives[t].(lastUse := step.at)) &&
      (!r.requests[step.request].Forwarded? ==> r.lives == s.lives)
  {
    RunKeepsInv(cfg, Init(start), steps);
    var s := Run(cfg, Init(start), steps);
    assert TokenInv(cfg, s, s.requests[step.request].token);
  }

  /** A capability is issued exactly to a scope with a proper path and five names that are not blank,
      and for just that scope: each name trimmed, the path normalized, the interface as it was. */
  lemma IssuedForItsScope(cfg: Config, s: Scope)
    ensures var r, path := CleanScope(cfg, s), cfg.normalizePath(s.upstreamPath);
      (r.Ok? <==>
        path.Some? && cfg.trim(s.appKey) != "" && cfg.trim(s.agentId) != "" && cfg.trim(s.bindingId) != "" &&
        cfg.trim(s.storageId) != "" && cfg.trim(s.model) != "") &&
      (r.Ok? ==>
        r.value.appKey == cfg.trim(s.appKey) && r.value.agentId == cfg.trim(s.agentId) &&
        r.value.bindingId == cfg.trim(s.bindingId) && r.value.storageId == cfg.trim(s.storageId) &&
        r.value.model == cfg.trim(s.model) && r.value.modelApi == s.modelApi && Some(r.value.upstreamPath) == path) &&
      (r == Err(BadPath) <==> path == None)
  {
  }

  /** A request is let in exactly when its token was issued, has not ended, was last used less than the
      time to live ago, is younger than its greatest age, and the path is one the broker serves. */
  lemma LetInIff(cfg: Config, start: int, steps: seq<Step>, step: Step)
    requires ValidConfig(cfg) && step.Arrive? && Enabled(cfg, Run(cfg, Init(start), steps), step)
    ensures var s := Run(cfg, Init(start), steps);
      var r, t := Apply(cfg, s, step), step.token;
      r.requests == s.requests[step.request :=
        if step.knownPath && t in s.lives && !s.lives[t].ended && step.at < s.lives[t].lastUse + cfg.ttl &&
           step.at < s.lives[t].issuedAt + cfg.maxLifetime
        then Reading(t) else Over] &&
      r.lives == s.lives && r.started == s.started
  {
    RunKeepsInv(cfg, Init(start), steps);
    assert TokenInv(cfg, Run(cfg, Init(start), steps), step.token);
  }

  /** When the body has been read: the request goes on exactly when the body is valid and the token
      meets the same conditions still; otherwise the request is over. */
  lemma GoesOnIff(cfg: Config, start: int, steps: seq<Step>, step: Step)
    requires ValidConfig(cfg) && step.BodyRead? && Enabled(cfg, Run(cfg, Init(start), steps), step)
    ensures var s := Run(cfg, Init(start), steps);
      var r, t := Apply(cfg, s, step), s.requests[step.request].token;
      r.requests == s.requests[step.request :=
        if step.valid && t in s.lives && !s.lives[t].ended && step.at < s.lives[t].lastUse + cfg.ttl &&
           step.at < s.lives[t].issuedAt + cfg.maxLifetime
        then Forwarded(t) else Over]
  {
    RunKeepsInv(cfg, Init(start), steps);
    var s := Run(cfg, Init(start), steps);
    assert TokenInv(cfg, s, s.requests[step.request].token);
  }

  /** An issued token begins a life of its own, used last when it was issued. */
  lemma IssueBeginsALife(cfg: Config, s: State, t: Token, scope: Scope, at: int)
    requires Enabled(cfg, s, Issue(t, scope, at))
    ensures var r := Apply(cfg, s, Issue(t, scope, at));
      s.started && t !in s.lives && t in r.lives && r.lives[t].issuedAt == at && r.lives[t].lastUse == at &&
      !r.lives[t].ended && CleanScope(cfg, scope) == Ok(r.lives[t].scope) && r.requests == s.requests &&
      forall u :: u != t ==> (u in r.lives <==> u in s.lives) && (u in s.lives ==> r.lives[u] == s.lives[u])
  {
  }

  /** Exactly these end a token: a stop, its revocation, and the disconnect of a request that has it. */
  lemma EndsExactlyBy(cfg: Config, s: State, step: Step, t: Token)
    requires Enabled(cfg, s, step) && t in s.lives
    ensures var r := Apply(cfg, s, step);
      t in r.lives &&
      (r.lives[t].ended <==>
        s.lives[t].ended || step == Stop || step == Revoke(t) ||
        (step.Disconnect? && s.requests[step.request].token == t))
    ensures step.Disconnect? || step.Finish? ==>
      var r := Apply(cfg, s, step); step.request in r.requests && r.requests[step.request] == Over
    ensures Apply(cfg, s, step).started == (if step == Start then true else if step == Stop then false else s.started)
  {
  }

  // ---------------------------------------------------------------- what ends a token

  /** A token's issue date never changes, its end is final, and only accepted requests move its last
      use. */
  lemma LivesMoveForward(cfg: Config, s: State, step: Step, t: Token)
    requires Enabled(cfg, s, step) && t in s.lives
    ensures var r := Apply(cfg, s, step);
      t in r.lives && r.lives[t].issuedAt == s.lives[t].issuedAt && r.lives[t].scope == s.lives[t].scope &&
      (s.lives[t].ended ==> r.lives[t].ended) &&
      (r.lives[t].lastUse != s.lives[t].lastUse ==> step.BodyRead? && step.valid && r.lives[t].lastUse == step.at) &&
      (r.lives[t].ended && !s.lives[t].ended ==>
        step.Stop? || step == Revoke(t) || (step.Disconnect? && s.requests[step.request].token == t))
  {
  }

  lemma {:induction false} EndIsFinal(cfg: Config, s: State, steps: seq<Step>, t: Token)
    requires t in s.lives
    ensures t in Run(cfg, s, steps).lives && Run(cfg, s, steps).lives[t].issuedAt == s.lives[t].issuedAt
    ensures s.lives[t].ended ==> Run(cfg, s, steps).lives[t].ended
    decreases |steps|
  {
    if steps != [] {
      if Enabled(cfg, s, steps[0]) {
        LivesMoveForward(cfg, s, steps[0], t);
      }
      EndIsFinal(cfg, if Enabled(cfg, s, steps[0]) then Apply(cfg, s, steps[0]) else s, steps[1..], t);
    }
  }

  /** No use and no renewal takes a token past its cap, and nothing brings an ended one back: from
      then on it is never found active, in whatever run. */
  lemma CapIsHardAndEndIsFinal(cfg: Config, start: int, before: seq<Step>, after: seq<Step>, t: Token, at: int)
    requires ValidConfig(cfg) && t in Run(cfg, Init(start), before).lives
    requires Run(cfg, Run(cfg, Init(start), before), after).now <= at
    requires Run(cfg, Init(start), before).lives[t].ended ||
      at >= Run(cfg, Init(start), before).lives[t].issuedAt + cfg.maxLifetime
    ensures Active(Run(cfg, Run(cfg, Init(start), before), after).capabilities, t, at) == None
  {
    var s := Run(cfg, Init(start), before);
    RunKeepsInv(cfg, Init(start), before);
    RunKeepsInv(cfg, s, after);
    EndIsFinal(cfg, s, after, t);
    assert TokenInv(cfg, Run(cfg, s, after), t);
  }

  // ---------------------------------------------------------------- the mutable broker

  class HostModelBroker {
    const cfg: Config
    var started: bool
    var capabilities: map<Token, Capability>
    var requests: map<RequestId, Phase>
    ghost var now: int
    ghost var lives: map<Token, Life>

    ghost function Contents(): State
      reads this
    {
      State(now, started, capabilities, lives, requests)
    }

    ghost predicate Valid()
      reads this
    {
      ValidConfig(cfg) && Inv(cfg, Contents())
    }

    constructor (cfg: Config, ghost start: int)
      requires ValidConfig(cfg)
      ensures Valid() && Contents() == Init(start) && this.cfg == cfg
    {
      this.cfg := cfg;
      started, capabilities, requests, now, lives := false, map[], map[], start, map[];
    }

    lemma NextValid(s: State, step: Step)
      requires ValidConfig(cfg) && Inv(cfg, s) && Enabled(cfg, s, step)
      ensures Inv(cfg, Apply(cfg, s, step))
    {
      forall t
        ensures TokenInv(cfg, Apply(cfg, s, step), t)
      {
        TokenStep(cfg, s, step, t);
      }
    }

    /** Starting a started broker changes nothing; a disabled one starts only if nobody needs it, and
        then not at all; an incomplete upstream or a failing listener is an error. */
    method StartBroker(required: bool, enabled: bool, upstreamComplete: bool, listens: bool) returns (ok: bool)
      requires Valid()
      modifies this
      ensures Valid()
      ensures ok <==> old(started) || (if enabled then upstreamComplete && listens else !required)
      ensures Contents() == if !old(started) && enabled && upstreamComplete && listens
                            then Apply(cfg, old(Contents()), Start) else old(Contents())
    {
      NextValid(Contents(), Start);
      if started {
        return true;
      }
      if !enabled {
        return !required;
      }
      if !upstreamComplete || !listens {
        return false;
      }
      started := true;
      ok := true;
    }

    /** The response of a forwarded request has ended. */
    method OnFinish(request: RequestId)
      requires Valid() && request in requests && requests[request].Forwarded?
      modifies this
      ensures Valid() && Contents() == Apply(cfg, old(Contents()), Finish(request))
    {
      NextValid(Contents(), Finish(request));
      requests := requests[request := Over];
    }

    /** Tables a token under its cleaned scope, or refuses and changes nothing. */
    method IssueCapability(token: Token, scope: Scope, at: int) returns (error: Option<IssueError>)
      requires Valid() && token !in lives && now <= at
      modifies this
      ensures Valid() && (error.None? <==> Enabled(cfg, old(Contents()), Issue(token, scope, at)))
      ensures error == Some(NotStarted) <==> !old(started)
      ensures old(started) ==> error == match CleanScope(cfg, scope) case Ok(_) => None case Err(e) => Some(e)
      ensures Contents() == if error.None? then Apply(cfg, old(Contents()), Issue(token, scope, at))
        else old(Contents())
    {
      if !started {
        return Some(NotStarted);
      }
      var clean := CleanScope(cfg, scope);
      if clean.Err? {
        return Some(clean.error);
      }
      NextValid(Contents(), Issue(token, scope, at));
      var maxExpiresAt := at + cfg.maxLifetime;
      capabilities := capabilities[token := Capability(clean.value, at, at, Min(at + cfg.ttl, maxExpiresAt),
                                                       maxExpiresAt)];
      lives := lives[token := Life(clean.value, at, at, false)];
      now := at;
      error := None;
    }

    method RevokeCapability(token: Token)
      requires Valid()
      modifies this
      ensures Valid() && Contents() == Apply(cfg, old(Contents()), Revoke(token))
    {
      NextValid(Contents(), Revoke(token));
      capabilities := capabilities - {token};
      lives := Ended(lives, token);
    }

    method StopBroker()
      requires Valid()
      modifies this
      ensures Valid() && Contents() == Apply(cfg, old(Contents()), Stop)
    {
      NextValid(Contents(), Stop);
      capabilities := map[];
      started := false;
      lives := map t | t in lives :: lives[t].(ended := true);
    }

    method ActiveCapability(token: Token, at: int) returns (c: Option<Capability>)
      modifies this`capabilities
      ensures c == Active(old(capabilities), token, at) && capabilities == AfterLookup(old(capabilities), token, at)
    {
      if token !in capabilities {
        return None;
      }
      var found := capabilities[token];
      if at >= found.expiresAt || at >= found.maxExpiresAt {
        capabilities := capabilities - {token};
        return None;
      }
      c := Some(found);
    }

    /** Slides the expiry of an active capability; it then always outlives the present moment. */
    method RenewCapability(token: Token, at: int) returns (renewed: bool)
      requires ValidConfig(cfg)
      modifies this`capabilities
      ensures renewed == Active(old(capabilities), token, at).Some?
      ensures capabilities == if renewed then old(capabilities)[token := Used(cfg, old(capabilities)[token], at)]
                              else AfterLookup(old(capabilities), token, at)
    {
      var c := ActiveCapability(token, at);
      if c.None? {
        return false;
      }
      var next := c.value.(lastUsedAt := at, expiresAt := Min(at + cfg.ttl, c.value.maxExpiresAt));
      capabilities := capabilities[token := next];
      renewed := next.expiresAt > at;
    }

    /** The stretch of a request before its body is read. */
    method OnArrive(request: RequestId, token: Token, knownPath: bool, at: int) returns (reading: bool)
      requires Valid() && request !in requests && now <= at
      modifies this
      ensures Valid() && Contents() == Apply(cfg, old(Contents()), Arrive(request, token, knownPath, at))
      ensures reading <==> knownPath && token in old(lives) && Good(cfg, old(lives)[token], at)
    {
      NextValid(Contents(), Arrive(request, token, knownPath, at));
      assert TokenInv(cfg, Contents(), token);
      var c := ActiveCapability(token, at);
      now := at;
      reading := c.Some? && knownPath;
      requests := requests[request := if reading then Reading(token) else Over];
    }

    /** The stretch once the body has been read: the capability is checked again and renewed. */
    method OnBodyRead(request: RequestId, valid: bool, at: int) returns (forwarded: bool)
      requires Valid() && request in requests && requests[request].Reading? && now <= at
      modifies this
      ensures Valid() && Contents() == BodyReadStep(cfg, old(Contents()), BodyRead(request, valid, at))
      ensures forwarded <==>
        valid && old(requests)[request].token in old(lives) && Good(cfg, old(lives)[old(requests)[request].token], at)
    {
      NextValid(Contents(), BodyRead(request, valid, at));
      var token := requests[request].token;
      assert TokenInv(cfg, Contents(), token);
      now := at;
      if !valid {
        requests := requests[request := Over];
        return false;
      }
      forwarded := RenewCapability(token, at);
      if forwarded {
        lives := if token in lives then lives[token := lives[token].(lastUse := at)] else lives;
        requests := requests[request := Forwarded(token)];
      } else {
        requests := requests[request := Over];
      }
    }

    /** The client went away before its response ended. */
    method OnDisconnect(request: RequestId)
      requires Valid() && request in requests && !requests[request].Over?
      modifies this
      ensures Valid() && Contents() == Apply(cfg, old(Contents()), Disconnect(request))
    {
      NextValid(Contents(), Disconnect(request));
      var token := requests[request].token;
      capabilities := capabilities - {token};
      lives := Ended(lives, token);
      requests := requests[request := Over];
    }

    method PruneExpiredCapabilities(at: int)
      modifies this`capabilities
      ensures capabilities == Pruned(old(capabilities), at)
    {
      var rest := capabilities.Keys;
      while rest != {}
        invariant rest <= old(capabilities).Keys
        invariant capabilities == map t | t in old(capabilities) &&
          (t in rest || !IsExpired(old(capabilities)[t], at)) :: old(capabilities)[t]
        decreases |rest|
      {
        var t := Pick(rest);
        if IsExpired(capabilities[t], at) {
          capabilities := capabilities - {t};
        }
        rest := rest - {t};
      }
    }

    /** The number of active capabilities. */
    method ActiveCapabilities(at: int) returns (n: nat)
      requires Valid() && now <= at
      modifies this
      ensures Valid() && Contents() == Apply(cfg, old(Contents()), Snapshot(at))
      ensures n == |set t | t in lives && Good(cfg, lives[t], at)|
    {
      NextValid(Contents(), Snapshot(at));
      PruneExpiredCapabilities(at);
      now := at;
      forall t
        ensures t in capabilities <==> t in lives && Good(cfg, lives[t], at)
      {
        assert TokenInv(cfg, Contents(), t);
      }
      assert capabilities.Keys == set t | t in lives && Good(cfg, lives[t], at);
      n := |capabilities.Keys|;
    }
  }
}
