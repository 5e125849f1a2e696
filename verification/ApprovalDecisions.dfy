/** Who decides, when, and what becomes of the call and its row, said of the request and the
    configuration alone. */
module ApprovalDecisions {
  import opened Wrappers
  import opened Approvals

  /** Whose approval was it?  In every run: a decision by card on an administrators' request is one of an
      administrator, a decision on a requester's request is the requester's own and was made by card,
      and the console decides administrators' requests only. */
  lemma OperatorsWereEntitled(cfg: Config, steps: seq<Step>, id: Id)
    requires id in Run(cfg, map[], steps) && Run(cfg, map[], steps)[id].settled.Some?
    requires Run(cfg, map[], steps)[id].settled.value.Granted?
    ensures var c := Run(cfg, map[], steps)[id];
      var how := c.settled.value;
      (c.input.approval == Admin && how.via == Card ==> how.operator in cfg.admins) &&
      (c.input.approval == Requester ==> how.via == Card && how.operator == c.input.requester) &&
      (how.via == Console ==> c.input.approval == Admin) &&
      c.input.approval != Never && c.input.effect != Read
  {
    RunKeepsInv(cfg, map[], steps);
  }

  /** The case as a decision leaves it that is made in time with a working store. */
  predicate DecidedAs(cfg: Config, c: Case, r: Case, approve: bool, operator: OpenId, via: Channel, now: int) {
    !r.inMemory && r.input == c.input && r.expiresAt == c.expiresAt && r.phase == c.phase &&
    r.settled == Some(if approve then Granted(operator, via, now) else Refused) &&
    (if cfg.durable
     then r.row == Some(Row(if approve then Approved else Denied, Some(operator), c.expiresAt, Some(now)))
     else r.row == None)
  }

  /** The case as a decision leaves it that comes too late. */
  predicate RefusedAsLate(c: Case, r: Case) {
    !r.inMemory && r.input == c.input && r.phase == c.phase && r.settled == Some(Refused) &&
    r.row.Some? && r.row.value.state == Expired
  }

  /** The row still waits for a decision; without a store there is nothing to be late for. */
  predicate InTime(cfg: Config, c: Case, now: int) {
    cfg.durable ==> c.row.Some? && c.row.value.state == Pending && now < c.expiresAt
  }

  /** A store that throws has changed nothing, or has swept. */
  predicate RowAfterThrow(before: Option<Row>, after: Option<Row>, now: int, fault: Fault) {
    if fault == AfterSweep && before.Some? && before.value.state == Pending && before.value.expiresAt <= now
    then after == Some(before.value.(state := Expired, resolvedAt := Some(now)))
    else after == before
  }

  /** What becomes of a decision by somebody entitled. */
  predicate Handled(
      cfg: Config, c: Case, r: Case, answer: Answer, approve: bool, operator: OpenId, via: Channel, now: int,
      fault: Fault) {
    if cfg.durable && fault != NoFault then
      answer == StoreThrew && r == c.(row := r.row) && RowAfterThrow(c.row, r.row, now, fault)
    else if InTime(cfg, c, now) then answer == Decided(true) && DecidedAs(cfg, c, r, approve, operator, via, now)
    else answer == Decided(false) && RefusedAsLate(c, r)
  }

  /** A card action: nothing happens to a case that is no longer pending, or from another chat, or by
      somebody who is neither an administrator, where one is asked for, nor otherwise the requester;
      anybody else decides. */
  lemma CardActionOutcome(cfg: Config, steps: seq<Step>, s: State, step: Step)
    requires s == Run(cfg, map[], steps) && step.CardAction? && Enabled(s, step)
    ensures var c, r := s[step.id], Apply(cfg, s, step);
      step.id in r &&
      var answer := ByCard(cfg.admins, c, step.chatId, step.approve, step.operator, step.now, step.fault).1;
      var entitled := if c.input.approval == Admin then step.operator in cfg.admins
          else step.operator == c.input.requester;
      if !c.inMemory then answer == AlreadyHandled && r[step.id] == c
      else if step.chatId != c.input.chatId then answer == WrongChat && r[step.id] == c
      else if !entitled then answer == NotAllowed && r[step.id] == c
      else Handled(cfg, c, r[step.id], answer, step.approve, step.operator, Card, step.now, step.fault)
  {
    RunKeepsInv(cfg, map[], steps);
    assert CaseInv(cfg, s[step.id]);
  }

  /** The console: it decides pending administrators' requests and nothing else. */
  lemma ConsoleOutcome(cfg: Config, steps: seq<Step>, s: State, step: Step)
    requires s == Run(cfg, map[], steps) && step.AdminAction? && Enabled(s, step)
    ensures var c, r := s[step.id], Apply(cfg, s, step);
      step.id in r &&
      var answer := ByConsole(c, step.approve, step.operator, step.now, step.fault).1;
      if !c.inMemory || c.input.approval != Admin then answer == AlreadyHandled && r[step.id] == c
      else Handled(cfg, c, r[step.id], answer, step.approve, step.operator, Console, step.now, step.fault)
  {
    RunKeepsInv(cfg, map[], steps);
    assert CaseInv(cfg, s[step.id]);
  }

  /** A request is filed exactly when its policy asks for approval, its effect is no read, an
      administrator exists if one is asked for, the signal has not fired and the store takes it; then the
      case is pending until its time is up.  Nothing else is filed, and no other case is touched. */
  lemma RequestIsFiledIff(cfg: Config, s: State, step: Step)
    requires step.Request? && Enabled(s, step)
    ensures var r, asked := Apply(cfg, s, step), step.input;
      (step.id in r <==>
        asked.approval != Never && asked.effect != Read && (asked.approval == Admin ==> cfg.admins != {}) &&
        !step.aborted && !(cfg.durable && step.storeThrows)) &&
      (step.id in r ==>
        var expiry := step.now + cfg.ttl;
        r[step.id].input == asked && r[step.id].inMemory && r[step.id].settled == None &&
        r[step.id].phase == Sending && r[step.id].expiresAt == expiry &&
        r[step.id].row == if cfg.durable then Some(Row(Pending, None, expiry, None)) else None) &&
      forall k :: k != step.id ==> (k in r <==> k in s) && (k in s ==> r[k] == s[k])
  {
  }

  /** The error of a request that is not filed, and the silence of one that need not be. */
  lemma RequestAnswers(cfg: Config, input: Input, aborted: bool, storeThrows: bool)
    ensures var outcome := RequestOutcome(cfg, input, aborted, storeThrows);
      var asks := input.approval != Never && input.effect != Read;
      var orphan := input.approval == Admin && cfg.admins == {};
      (outcome == Exempt <==> !asks) &&
      (outcome == NoAdministrator <==> asks && orphan) &&
      (outcome == AbortedEarly <==> asks && !orphan && aborted) &&
      (outcome == StoreFailed <==> asks && !orphan && !aborted && cfg.durable && storeThrows)
  {
  }

  /** The timer, an abort and a failed send refuse a pending case whatever the store does; a settled case
      stays as it is.  With a working store the row tells which it was: overdue rows are expired, and a
      pending one is otherwise aborted, except by the timer. */
  lemma RefusalOutcome(cfg: Config, steps: seq<Step>, s: State, step: Step)
    requires s == Run(cfg, map[], steps) && (step.Timer? || step.Abort? || step.SendFailed?) && Enabled(s, step)
    ensures var c, r := s[step.id], Apply(cfg, s, step);
      step.id in r && r[step.id].input == c.input && r[step.id].expiresAt == c.expiresAt && !r[step.id].inMemory &&
      r[step.id].phase == (if step.SendFailed? then Threw else c.phase) &&
      (if !c.inMemory then r[step.id].settled == c.settled && r[step.id].row == c.row
       else
         r[step.id].settled == Some(Refused) &&
         (step.fault != NoFault ==>
           if step.Timer? then r[step.id].row == c.row
           else RowAfterThrow(c.row, r[step.id].row, step.now, step.fault)) &&
         (cfg.durable && step.fault == NoFault && c.row.Some? && c.row.value.state == Pending ==>
           r[step.id].row.Some? &&
           r[step.id].row.value.state ==
             if step.now >= c.expiresAt then Expired else if step.Timer? then Pending else Aborted))
  {
    RunKeepsInv(cfg, map[], steps);
    assert CaseInv(cfg, s[step.id]);
  }

  /** The call goes on: a delivered card makes it wait, and once its promise has settled it returns
      exactly when that was granted. */
  lemma CallOutcome(cfg: Config, s: State, step: Step)
    requires (step.Sent? || step.Continue?) && Enabled(s, step)
    ensures var c, r := s[step.id], Apply(cfg, s, step);
      step.id in r && r[step.id] == c.(phase := r[step.id].phase) &&
      (step.Sent? ==> r[step.id].phase == Waiting) &&
      (step.Continue? ==> r[step.id].phase == if c.settled.value.Granted? then Returned else Threw)
  {
  }

  /** The steps that get as far as the store's sweep over all rows: its own call, a decision that is let
      in, and an abort or failed send of a pending case, unless the first statement throws. */
  predicate Sweeps(cfg: Config, s: State, step: Step)
    requires Enabled(s, step)
  {
    match step
    case ExpirePending(_) => true
    case CardAction(id, chatId, _, operator, _, fault) =>
      s[id].inMemory && chatId == s[id].input.chatId && fault != AtFirst &&
      (if s[id].input.approval == Admin then operator in cfg.admins else operator == s[id].input.requester)
    case AdminAction(id, _, _, _, fault) => s[id].inMemory && s[id].input.approval == Admin && fault != AtFirst
    case Abort(id, _, fault) => s[id].inMemory && fault != AtFirst
    case SendFailed(id, _, fault) => s[id].inMemory && fault != AtFirst
    case _ => false
  }

  /** What a step does to the cases it is not about: a sweep expires their overdue pending rows, and
      nothing else happens to any of them. */
  lemma OthersAreOnlySwept(cfg: Config, s: State, step: Step, k: Id)
    requires Enabled(s, step) && k in s && (step.ExpirePending? || k != step.id)
    ensures var c, r := s[k], Apply(cfg, s, step);
      k in r &&
      r[k] ==
        if Sweeps(cfg, s, step) && c.row.Some? && c.row.value.state == Pending && c.row.value.expiresAt <= step.now
        then c.(row := Some(c.row.value.(state := Expired, resolvedAt := Some(step.now))))
        else c
  {
  }
}
