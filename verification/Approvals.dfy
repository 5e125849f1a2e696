/** Tool approvals: a one-time decision in memory that has to agree with a durable row.

    A `Case` is everything about one approval id: whether the coordinator still holds it as pending,
    its stored row, how its promise was settled, and how far the requesting call has come.  Each step
    is one synchronous stretch.  The store may throw at any statement.  */
module Approvals {
  import opened Wrappers

  type Id = string
  type OpenId = string

  datatype Effect = Read | Write | HighRiskWrite
  datatype Approval = Never | Requester | Admin

  datatype Input = Input(effect: Effect, approval: Approval, requester: OpenId, chatId: string)

  datatype RowState = Pending | Approved | Denied | Expired | Aborted

  datatype Row = Row(state: RowState, approver: Option<OpenId>, expiresAt: int, resolvedAt: Option<int>)

  datatype Channel = Card | Console

  datatype Settlement = Granted(operator: OpenId, via: Channel, at: int) | Refused

  /** The requesting call: sending the card, waiting for the decision, or over. */
  datatype Phase = Sending | Waiting | Returned | Threw

  datatype Case = Case(input: Input, expiresAt: int, inMemory: bool, row: Option<Row>, settled: Option<Settlement>,
                       phase: Phase)

  /** Where the store throws: not at all, at its first statement, or at the one after the sweep. */
  datatype Fault = NoFault | AtFirst | AfterSweep

  datatype Config = Config(admins: set<OpenId>, ttl: int, durable: bool)

  // ---------------------------------------------------------------- the store's statements

  /** The sweep that precedes other statements: an overdue pending row is expired. */
  function Sweep(r: Row, now: int): Row {
    if r.state.Pending? && r.expiresAt <= now then r.(state := Expired, resolvedAt := Some(now)) else r
  }

  function ExpireRow(r: Row, now: int): Row {
    if r.state.Pending? && r.expiresAt <= now then Row(Expired, None, r.expiresAt, Some(now)) else r
  }

  /** The conditional update hits its row. */
  predicate Resolves(r: Row, now: int) {
    r.state.Pending? && r.expiresAt > now
  }

  function ResolveRow(r: Row, state: RowState, approver: Option<OpenId>, now: int): Row {
    if Resolves(r, now) then Row(state, approver, r.expiresAt, Some(now)) else Sweep(r, now)
  }

  function ResolveOrThrow(r: Option<Row>, state: RowState, approver: Option<OpenId>, now: int,
                          fault: Fault): Option<Row> {
    match r
    case None => None
    case Some(row) =>
      match fault
      case NoFault => Some(ResolveRow(row, state, approver, now))
      case AtFirst => r
      case AfterSweep => Some(Sweep(row, now))
  }

  // ---------------------------------------------------------------- steps of one case

  function Settle(c: Case, how: Settlement): Case {
    c.(inMemory := false, settled := Some(how))
  }

  /** The timer: the row is expired if it is overdue, and a failure to store that is swallowed. */
  function TimerFires(c: Case, now: int, fault: Fault): Case {
    if !c.inMemory then c
    else
      var row := if c.row.Some? && fault.NoFault? then Some(ExpireRow(c.row.value, now)) else c.row;
      Settle(c.(row := row), Refused)
  }

  /** The abort signal, a failed send, or the coordinator stopping. */
  function AbortCase(c: Case, now: int, fault: Fault): Case {
    if !c.inMemory then c else Settle(c.(row := ResolveOrThrow(c.row, Aborted, None, now, fault)), Refused)
  }

  function SendFails(c: Case, now: int, fault: Fault): Case {
    AbortCase(c, now, fault).(phase := Threw)
  }

  function Resume(c: Case): Case
    requires c.settled.Some?
  {
    c.(phase := if c.settled.value.Granted? then Returned else Threw)
  }

  datatype Answer = AlreadyHandled | WrongChat | NotAllowed | StoreThrew | Decided(bool)

  /** A decision by somebody who may decide. */
  function Decide(c: Case, approve: bool, operator: OpenId, via: Channel, now: int, fault: Fault): (Case, Answer) {
    var how := if approve then Granted(operator, via, now) else Refused;
    if c.row.None? then (Settle(c, how), Decided(true))
    else
      var row := ResolveOrThrow(c.row, if approve then Approved else Denied, Some(operator), now, fault);
      if !fault.NoFault? then (c.(row := row), StoreThrew)
      else if Resolves(c.row.value, now) then (Settle(c.(row := row), how), Decided(true))
      else (Settle(c.(row := row), Refused), Decided(false))
  }

  predicate MayDecide(admins: set<OpenId>, input: Input, operator: OpenId) {
    if input.approval.Admin? then operator in admins else operator == input.requester
  }

  function ByCard(admins: set<OpenId>, c: Case, chatId: string, approve: bool, operator: OpenId, now: int,
                  fault: Fault): (Case, Answer) {
    if !c.inMemory then (c, AlreadyHandled)
    else if c.input.chatId != chatId then (c, WrongChat)
    else if !MayDecide(admins, c.input, operator) then (c, NotAllowed)
    else Decide(c, approve, operator, Card, now, fault)
  }

  function ByConsole(c: Case, approve: bool, operator: OpenId, now: int, fault: Fault): (Case, Answer) {
    if !c.inMemory || !c.input.approval.Admin? then (c, AlreadyHandled)
    else Decide(c, approve, operator, Console, now, fault)
  }

  // ---------------------------------------------------------------- requests

  datatype Filing = Exempt | NoAdministrator | AbortedEarly | StoreFailed | Filed

  function RequestOutcome(cfg: Config, input: Input, aborted: bool, storeThrows: bool): Filing {
    if input.approval.Never? || input.effect.Read? then Exempt
    else if input.approval.Admin? && cfg.admins == {} then NoAdministrator
    else if aborted then AbortedEarly
    else if cfg.durable && storeThrows then StoreFailed
    else Filed
  }

  function NewCase(cfg: Config, input: Input, now: int): Case {
    Case(input, now + cfg.ttl, true, if cfg.durable then Some(Row(Pending, None, now + cfg.ttl, None)) else None,
         None, Sending)
  }

  // ---------------------------------------------------------------- all cases

  type State = map<Id, Case>

  datatype Step =
    | Request(id: Id, input: Input, now: int, aborted: bool, storeThrows: bool)
    | CardAction(id: Id, chatId: string, approve: bool, operator: OpenId, now: int, fault: Fault)
    | AdminAction(id: Id, approve: bool, operator: OpenId, now: int, fault: Fault)
    | Timer(id: Id, now: int, fault: Fault)
    | Abort(id: Id, now: int, fault: Fault)
    | SendFailed(id: Id, now: int, fault: Fault)
    | Sent(id: Id)
    | Continue(id: Id)
    | ExpirePending(now: int)

  predicate Enabled(s: State, step: Step) {
    match step
    case Request(id, _, _, _, _) => id !in s
    case ExpirePending(_) => true
    case Sent(_) | SendFailed(_, _, _) => step.id in s && s[step.id].phase.Sending?
    case Continue(id) => id in s && s[id].phase.Waiting? && s[id].settled.Some?
    case _ => step.id in s
  }

  /** The case that the step is about, afterwards. */
  function Own(cfg: Config, c: Case, step: Step): Case
    requires !step.Request? && !step.ExpirePending? && (step.Continue? ==> c.settled.Some?)
  {
    match step
    case CardAction(_, chatId, approve, operator, now, fault) =>
        ByCard(cfg.admins, c, chatId, approve, operator, now, fault).0
    case AdminAction(_, approve, operator, now, fault) => ByConsole(c, approve, operator, now, fault).0
    case Timer(_, now, fault) => TimerFires(c, now, fault)
    case Abort(_, now, fault) => AbortCase(c, now, fault)
    case SendFailed(_, now, fault) => SendFails(c, now, fault)
    case Sent(_) => c.(phase := Waiting)
    case Continue(_) => Resume(c)
  }

  /** The moment of the sweep over all rows that the step performs, if it gets to it. */
  function SweepTime(cfg: Config, s: State, step: Step): Option<int>
    requires Enabled(s, step)
  {
    match step
    case ExpirePending(now) => Some(now)
    case CardAction(id, chatId, _, operator, now, fault) =>
      if s[id].inMemory && s[id].input.chatId == chatId &&
         MayDecide(cfg.admins, s[id].input, operator) && !fault.AtFirst?
      then Some(now) else None
    case AdminAction(id, _, _, now, fault) =>
        if s[id].inMemory && s[id].input.approval.Admin? && !fault.AtFirst? then Some(now) else None
    case Abort(id, now, fault) => if s[id].inMemory && !fault.AtFirst? then Some(now) else None
    case SendFailed(id, now, fault) => if s[id].inMemory && !fault.AtFirst? then Some(now) else None
    case _ => None
  }

  function Swept(c: Case, time: Option<int>): Case {
    if time.Some? && c.row.Some? then c.(row := Some(Sweep(c.row.value, time.value))) else c
  }

  /** One case changes; the sweep, if there is one, touches the others. */
  function Advance(s: State, id: Id, c: Case, time: Option<int>): State {
    map k | k in s :: if k == id then c else Swept(s[k], time)
  }

  function Apply(cfg: Config, s: State, step: Step): State
    requires Enabled(s, step)
  {
    match step
    case Request(id, input, now, aborted, storeThrows) =>
      if RequestOutcome(cfg, input, aborted, storeThrows).Filed? then s[id := NewCase(cfg, input, now)] else s
    case ExpirePending(now) => map id | id in s :: Swept(s[id], Some(now))
    case _ => Advance(s, step.id, Own(cfg, s[step.id], step), SweepTime(cfg, s, step))
  }

  function Run(cfg: Config, s: State, steps: seq<Step>): State
    decreases |steps|
  {
    if steps == [] then s else Run(cfg, if Enabled(s, steps[0]) then Apply(cfg, s, steps[0]) else s, steps[1..])
  }

  // ---------------------------------------------------------------- the invariant

  /** Who decided was entitled to. */
  predicate Permitted(cfg: Config, input: Input, how: Settlement)
    requires how.Granted?
  {
    match how.via
    case Card => MayDecide(cfg.admins, input, how.operator)
    case Console => input.approval.Admin?
  }

  predicate IsGranted(c: Case) {
    c.settled.Some? && c.settled.value.Granted?
  }

  /** Pending means unsettled; the row says approved exactly when the promise was granted, by the same
      operator at the same time, in time. */
  predicate CaseInv(cfg: Config, c: Case) {
    (c.inMemory <==> c.settled.None?) && (cfg.durable <==> c.row.Some?) &&
    (c.phase.Returned? ==> IsGranted(c)) && (c.phase.Threw? ==> c.settled.Some?) &&
    !c.input.approval.Never? && !c.input.effect.Read? &&
    (IsGranted(c) ==> Permitted(cfg, c.input, c.settled.value)) &&
    (c.row.Some? ==>
      c.row.value.expiresAt == c.expiresAt &&
      (c.inMemory ==> c.row.value.state.Pending? || c.row.value.state.Expired?) &&
      (c.row.value.state.Approved? <==> IsGranted(c)) &&
      (IsGranted(c) ==>
        c.row.value.approver == Some(c.settled.value.operator) && c.row.value.resolvedAt == Some(c.settled.value.at) &&
        c.settled.value.at < c.expiresAt))
  }

  ghost predicate Inv(cfg: Config, s: State) {
    forall id :: id in s ==> CaseInv(cfg, s[id])
  }

  /** What no step undoes: a settlement, and a row that is no longer pending. */
  predicate Follows(before: Case, after: Case) {
    after.input == before.input && after.expiresAt == before.expiresAt &&
    (before.settled.Some? ==> after.settled == before.settled) &&
    (before.row.Some? ==> after.row.Some? && (before.row.value.state.Pending? || after.row == before.row)) &&
    (!before.inMemory ==> !after.inMemory) &&
    (before.inMemory && !after.inMemory ==> after.settled.Some?)
  }

  lemma OwnStep(cfg: Config, c: Case, step: Step)
    requires CaseInv(cfg, c) && !step.Request? && !step.ExpirePending? && (step.Continue? ==> c.settled.Some?)
    requires step.SendFailed? || step.Sent? ==> c.phase.Sending?
    ensures CaseInv(cfg, Own(cfg, c, step)) && Follows(c, Own(cfg, c, step))
  {
  }

  lemma SweptStep(cfg: Config, c: Case, time: Option<int>)
    requires CaseInv(cfg, c)
    ensures CaseInv(cfg, Swept(c, time)) && Follows(c, Swept(c, time))
  {
  }

  lemma StepKeepsInv(cfg: Config, s: State, step: Step)
    requires Inv(cfg, s) && Enabled(s, step)
    ensures Inv(cfg, Apply(cfg, s, step))
    ensures forall id :: id in s ==> id in Apply(cfg, s, step) && Follows(s[id], Apply(cfg, s, step)[id])
  {
    forall id | id in s
      ensures id in Apply(cfg, s, step) && CaseInv(cfg, Apply(cfg, s, step)[id]) &&
        Follows(s[id], Apply(cfg, s, step)[id])
    {
      if step.ExpirePending? {
        SweptStep(cfg, s[id], Some(step.now));
      } else if !step.Request? {
        if id == step.id {
          OwnStep(cfg, s[id], step);
        } else {
          SweptStep(cfg, s[id], SweepTime(cfg, s, step));
        }
      }
    }
  }

  lemma {:induction false} RunKeepsInv(cfg: Config, s: State, steps: seq<Step>)
    requires Inv(cfg, s)
    ensures Inv(cfg, Run(cfg, s, steps))
    ensures forall id :: id in s ==> id in Run(cfg, s, steps) && Follows(s[id], Run(cfg, s, steps)[id])
    decreases |steps|
  {
    if steps != [] {
      var r := if Enabled(s, steps[0]) then Apply(cfg, s, steps[0]) else s;
      if Enabled(s, steps[0]) {
        StepKeepsInv(cfg, s, steps[0]);
      }
      RunKeepsInv(cfg, r, steps[1..]);
      forall id | id in s
        ensures id in Run(cfg, s, steps) && Follows(s[id], Run(cfg, s, steps)[id])
      {
        assert Follows(s[id], r[id]) && Follows(r[id], Run(cfg, s, steps)[id]);
      }
    }
  }

  // ---------------------------------------------------------------- main results

  /** A call that returns normally after asking for approval was approved: with a store, the row says
      so, names the operator who decided, and was resolved before it expired; the operator was
      entitled to decide. */
  lemma NormalReturnMeansApproved(cfg: Config, steps: seq<Step>, id: Id)
    requires cfg.durable && id in Run(cfg, map[], steps) && Run(cfg, map[], steps)[id].phase.Returned?
    ensures var c := Run(cfg, map[], steps)[id];
      IsGranted(c) && Permitted(cfg, c.input, c.settled.value) &&
      c.row.Some? && c.row.value.state.Approved? && c.row.value.approver == Some(c.settled.value.operator) &&
      c.row.value.resolvedAt.Some? && c.row.value.resolvedAt.value < c.row.value.expiresAt == c.expiresAt
  {
    RunKeepsInv(cfg, map[], steps);
  }

  /** The row and the promise agree, always: the row is approved exactly when the promise was granted,
      so a call that was refused in memory is never recorded as approved, then or later. */
  lemma MemoryAndRowAgree(cfg: Config, steps: seq<Step>, id: Id)
    requires cfg.durable && id in Run(cfg, map[], steps)
    ensures var c := Run(cfg, map[], steps)[id];
      c.row.Some? && (c.row.value.state.Approved? <==> IsGranted(c)) && (c.inMemory <==> c.settled.None?)
  {
    RunKeepsInv(cfg, map[], steps);
  }

  /** One-time: in whatever follows, a case that was settled keeps its settlement and never becomes
      pending again, a row that reached a final state never changes, and a case that leaves the
      pending ones is settled. */
  lemma DecisionsAreFinal(cfg: Config, before: seq<Step>, after: seq<Step>, id: Id)
    requires id in Run(cfg, map[], before)
    ensures var s := Run(cfg, map[], before);
      id in Run(cfg, s, after) && Follows(s[id], Run(cfg, s, after)[id])
  {
    RunKeepsInv(cfg, map[], before);
    RunKeepsInv(cfg, Run(cfg, map[], before), after);
  }

  /** A store that throws leaves the decision open: nothing was decided, and the same decision made
      again with a working store, in time, is carried out. */
  lemma ThrowingStoreLeavesDecisionOpen(
      cfg: Config, steps: seq<Step>, id: Id, c: Case, approve: bool, operator: OpenId, via: Channel, now: int,
        fault: Fault, later: int)
    requires cfg.durable && id in Run(cfg, map[], steps) && c == Run(cfg, map[], steps)[id]
    requires c.inMemory && c.row.Some? && c.row.value.state.Pending? && !fault.NoFault?
    requires now <= later < c.expiresAt
    ensures var (failed, answer) := Decide(c, approve, operator, via, now, fault);
      answer == StoreThrew && failed == c &&
      var (done, second) := Decide(failed, approve, operator, via, later, NoFault);
      second == Decided(true) && done.settled == Some(if approve then Granted(operator, via, later) else Refused) &&
      done.row.value.state == if approve then Approved else Denied
  {
    RunKeepsInv(cfg, map[], steps);
  }

  /** A decision that comes too late is refused and recorded as expired. */
  lemma LateDecisionsAreRefused(cfg: Config, steps: seq<Step>, id: Id, c: Case, approve: bool, operator: OpenId,
                                via: Channel, now: int)
    requires cfg.durable && id in Run(cfg, map[], steps) && c == Run(cfg, map[], steps)[id] && c.inMemory &&
      now >= c.expiresAt
    ensures var (done, answer) := Decide(c, approve, operator, via, now, NoFault);
      answer == Decided(false) && done.settled == Some(Refused) && done.row.Some? && done.row.value.state.Expired?
  {
    RunKeepsInv(cfg, map[], steps);
  }

  /** What ends a pending case otherwise is told from its row: an abort in time is recorded as one, and
      a timer that fires when the case is due leaves it expired. */
  lemma RefusalsAreRecorded(cfg: Config, steps: seq<Step>, id: Id, c: Case, now: int)
    requires cfg.durable && id in Run(cfg, map[], steps) && c == Run(cfg, map[], steps)[id] && c.inMemory
    ensures var aborted := AbortCase(c, now, NoFault);
      aborted.settled == Some(Refused) && aborted.row.Some? &&
      aborted.row.value.state == if c.row.value.state.Pending? && now < c.expiresAt then Aborted else Expired
    ensures now >= c.expiresAt ==>
      TimerFires(c, now, NoFault).settled == Some(Refused) && TimerFires(c, now, NoFault).row.Some? &&
      TimerFires(c, now, NoFault).row.value.state.Expired?
  {
    RunKeepsInv(cfg, map[], steps);
  }

  /** Which requests reach the approver at all: a read, and also a write whose policy is never, returns
      at once, whatever the signal and the store do, and leaves no record. */
  lemma ExemptRequestsLeaveNoRecord(cfg: Config, s: State, id: Id, input: Input, now: int, aborted: bool,
                                    storeThrows: bool)
    requires id !in s
    ensures RequestOutcome(cfg, input, aborted, storeThrows).Exempt? <==> input.approval.Never? || input.effect.Read?
    ensures RequestOutcome(cfg, input, aborted, storeThrows).Exempt? ==>
      Apply(cfg, s, Request(id, input, now, aborted, storeThrows)) == s
    ensures RequestOutcome(cfg, Input(Write, Never, input.requester, input.chatId), aborted, storeThrows).Exempt?
  {
  }

  // ---------------------------------------------------------------- what a normal return is worth

  /** One call: where it was made, what it asked for, and everything that happened afterwards. */
  datatype Inquiry = Inquiry(before: seq<Step>, id: Id, input: Input, now: int, aborted: bool, storeThrows: bool,
                             after: seq<Step>)

  function StateBefore(cfg: Config, call: Inquiry): State {
    Run(cfg, map[], call.before)
  }

  function StateAfter(cfg: Config, call: Inquiry): State
    requires call.id !in StateBefore(cfg, call)
  {
    Run(cfg, Apply(cfg, StateBefore(cfg, call),
                   Request(call.id, call.input, call.now, call.aborted, call.storeThrows)), call.after)
  }

  /** The call has returned without an error: at once, or after its case was filed and decided. */
  predicate ReturnsNormally(cfg: Config, call: Inquiry)
    requires call.id !in StateBefore(cfg, call)
  {
    match RequestOutcome(cfg, call.input, call.aborted, call.storeThrows)
    case Exempt => true
    case Filed => call.id in StateAfter(cfg, call) && StateAfter(cfg, call)[call.id].phase.Returned?
    case _ => false
  }

  /** The row of the call is approved, in time, by somebody entitled to decide on it. */
  predicate ApprovedInTime(cfg: Config, s: State, id: Id, input: Input) {
    id in s && s[id].input == input && IsGranted(s[id]) && Permitted(cfg, input, s[id].settled.value) &&
    s[id].row.Some? && s[id].row.value.state.Approved? &&
    s[id].row.value.approver == Some(s[id].settled.value.operator) &&
    s[id].row.value.resolvedAt.Some? && s[id].row.value.resolvedAt.value < s[id].row.value.expiresAt
  }

  /** A normal return of this call implies its approval. */
  predicate ReturnImpliesApproval(cfg: Config, call: Inquiry) {
    call.id !in StateBefore(cfg, call) && ReturnsNormally(cfg, call) ==>
      ApprovedInTime(cfg, StateAfter(cfg, call), call.id, call.input)
  }

  lemma AskedCallsAreApproved(cfg: Config, call: Inquiry)
    requires cfg.durable && !call.input.effect.Read? && !call.input.approval.Never?
    ensures ReturnImpliesApproval(cfg, call)
  {
    RunKeepsInv(cfg, map[], call.before);
    var s := StateBefore(cfg, call);
    if call.id !in s && ReturnsNormally(cfg, call) {
      var asked := Request(call.id, call.input, call.now, call.aborted, call.storeThrows);
      StepKeepsInv(cfg, s, asked);
      RunKeepsInv(cfg, Apply(cfg, s, asked), call.after);
      assert Follows(Apply(cfg, s, asked)[call.id], StateAfter(cfg, call)[call.id]);
      assert CaseInv(cfg, StateAfter(cfg, call)[call.id]);
    }
  }

  lemma ExemptCallIsNotApproved(cfg: Config, id: Id, input: Input)
    requires input.approval.Never?
    ensures !ReturnImpliesApproval(cfg, Inquiry([], id, input, 0, false, false, []))
  {
  }

  /** Exactly what a normal return is worth.  Of the requests that are no reads, those for which every
      normal return, in every run, means an approved row, in time and by a permitted operator, are
      those whose policy is not never. */
  lemma NormalReturnIsApprovalIff(cfg: Config, input: Input)
    requires cfg.durable && !input.effect.Read?
    ensures (forall call: Inquiry :: call.input == input ==> ReturnImpliesApproval(cfg, call)) <==>
      !input.approval.Never?
  {
    if input.approval.Never? {
      var call := Inquiry([], "id", input, 0, false, false, []);
      ExemptCallIsNotApproved(cfg, "id", input);
      assert call.input == input && !ReturnImpliesApproval(cfg, call);
    } else {
      forall call: Inquiry | call.input == input
        ensures ReturnImpliesApproval(cfg, call)
      {
        AskedCallsAreApproved(cfg, call);
      }
    }
  }
}
