/** The mutable coordinator and its store: the steps of the approval cases carried out on the pending
    map and on the stored rows. */
module ApprovalCoordinator {
  import opened Wrappers
  import opened SetFacts
  import opened Approvals

  function SweptRows(rows: map<Id, Row>, now: int): map<Id, Row> {
    map id | id in rows :: Sweep(rows[id], now)
  }

  class ToolApprovalStore {
    var rows: map<Id, Row>

    constructor ()
      ensures rows == map[]
    {
      rows := map[];
    }

    method ExpirePending(now: int)
      modifies this
      ensures rows == SweptRows(old(rows), now)
    {
      rows := map id | id in rows :: Sweep(rows[id], now);
    }

    method Create(id: Id, expiresAt: int)
      requires id !in rows
      modifies this
      ensures rows == old(rows)[id := Row(Pending, None, expiresAt, None)]
    {
      rows := rows[id := Row(Pending, None, expiresAt, None)];
    }

    /** None when a statement throws; otherwise whether the conditional update hit its row. */
    method Resolve(id: Id, state: RowState, approver: Option<OpenId>, now: int, fault: Fault) returns (r: Option<bool>)
      requires id in rows && !state.Pending? && !state.Expired?
      modifies this
      ensures r == if fault.NoFault? then Some(Resolves(old(rows)[id], now)) else None
      ensures fault.AtFirst? ==> rows == old(rows)
      ensures !fault.AtFirst? ==>
        rows == SweptRows(old(rows), now)[id := ResolveOrThrow(Some(old(rows)[id]), state, approver, now, fault).value]
    {
      if fault.AtFirst? {
        return None;
      }
      ExpirePending(now);
      if fault.AfterSweep? {
        assert rows == rows[id := rows[id]];
        return None;
      }
      if rows[id].state.Pending? && rows[id].expiresAt > now {
        rows := rows[id := Row(state, approver, rows[id].expiresAt, Some(now))];
        return Some(true);
      }
      assert rows == rows[id := rows[id]];
      r := Some(false);
    }

    /** The expiry of one row, a single statement. */
    method ResolveExpired(id: Id, now: int)
      requires id in rows
      modifies this
      ensures rows == old(rows)[id := ExpireRow(old(rows)[id], now)]
    {
      if rows[id].state.Pending? && rows[id].expiresAt <= now {
        rows := rows[id := Row(Expired, None, rows[id].expiresAt, Some(now))];
      } else {
        assert rows == rows[id := rows[id]];
      }
    }
  }

  /** The requesting call as its continuation knows it. */
  datatype Call = Call(input: Input, expiresAt: int, phase: Phase)

  /** The coordinator's three maps and the stored rows. */
  datatype Fields = Fields(durable: bool, calls: map<Id, Call>, pending: map<Id, Input>, settled: map<Id, Settlement>,
                           rows: map<Id, Row>)

  function CaseIn(f: Fields, id: Id): Case
    requires id in f.calls
  {
    Case(f.calls[id].input, f.calls[id].expiresAt, id in f.pending, if f.durable && id in f.rows then Some(f.rows[id])
         else None,
         if id in f.settled then Some(f.settled[id]) else None, f.calls[id].phase)
  }

  function CasesIn(f: Fields): State {
    map id | id in f.calls :: CaseIn(f, id)
  }

  /** How a row table looks after a step on one id. */
  predicate RowsAdvance(before: map<Id, Row>, after: map<Id, Row>, id: Id, time: Option<int>) {
    after.Keys == before.Keys &&
    forall k :: k in before && k != id ==> after[k] == if time.Some? then Sweep(before[k], time.value) else before[k]
  }

  /** When only `id` changes in the maps, and the rows are at most swept besides, one case advances. */
  lemma FieldsAdvance(f: Fields, g: Fields, id: Id, time: Option<int>)
    requires id in f.calls && g.durable == f.durable && g.calls.Keys == f.calls.Keys
    requires forall k :: k != id && k in f.calls ==> g.calls[k] == f.calls[k] && (k in g.pending <==> k in f.pending)
    requires forall k :: k != id ==>
      (k in g.settled <==> k in f.settled) && (k in f.settled ==> g.settled[k] == f.settled[k])
    requires f.durable ==> RowsAdvance(f.rows, g.rows, id, time)
    ensures CasesIn(g) == Advance(CasesIn(f), id, CaseIn(g, id), time)
  {
    forall k | k in f.calls
      ensures CasesIn(g)[k] == Advance(CasesIn(f), id, CaseIn(g, id), time)[k]
    {
    }
  }

  /** The maps speak of the same calls. */
  predicate Bookkeeping(f: Fields) {
    f.pending.Keys <= f.calls.Keys && f.settled.Keys <= f.calls.Keys &&
    (forall id :: id in f.pending ==> f.pending[id] == f.calls[id].input) &&
    (f.durable ==> f.rows.Keys == f.calls.Keys)
  }

  // ---------------------------------------------------------------- what each stretch does to the maps

  function FiledFields(f: Fields, id: Id, input: Input, expiresAt: int): Fields {
    f.(calls := f.calls[id := Call(input, expiresAt, Sending)], pending := f.pending[id := input],
       rows := if f.durable then f.rows[id := Row(Pending, None, expiresAt, None)] else f.rows)
  }

  /** The promise of `id` is settled. */
  function Settled(f: Fields, id: Id, how: Settlement): Fields {
    f.(pending := f.pending - {id}, settled := f.settled[id := how])
  }

  /** The store was asked to resolve the row of `id`. */
  function Recorded(f: Fields, id: Id, state: RowState, approver: Option<OpenId>, now: int, fault: Fault): Fields
    requires f.durable ==> id in f.rows
  {
    if !f.durable || fault.AtFirst? then f
    else f.(rows := SweptRows(f.rows, now)[id := ResolveOrThrow(Some(f.rows[id]), state, approver, now, fault).value])
  }

  function RecordedExpiry(f: Fields, id: Id, now: int, fault: Fault): Fields
    requires f.durable ==> id in f.rows
  {
    if !f.durable || !fault.NoFault? then f else f.(rows := f.rows[id := ExpireRow(f.rows[id], now)])
  }

  function PhaseSet(f: Fields, id: Id, phase: Phase): Fields
    requires id in f.calls
  {
    f.(calls := f.calls[id := f.calls[id].(phase := phase)])
  }

  function DecidedFields(f: Fields, id: Id, approve: bool, operator: OpenId, via: Channel, now: int,
                         fault: Fault): (Fields, Answer)
    requires f.durable ==> id in f.rows
  {
    var r := Recorded(f, id, if approve then Approved else Denied, Some(operator), now, fault);
    if f.durable && !fault.NoFault? then (r, StoreThrew)
    else if f.durable && !Resolves(f.rows[id], now) then (Settled(r, id, Refused), Decided(false))
    else (Settled(r, id, if approve then Granted(operator, via, now) else Refused), Decided(true))
  }

  function SweepOf(fault: Fault, now: int): Option<int> {
    if fault.AtFirst? then None else Some(now)
  }

  lemma FilingSparesOthers(f: Fields, id: Id, input: Input, expiresAt: int, k: Id)
    requires id !in f.calls && k in f.calls
    ensures k in FiledFields(f, id, input, expiresAt).calls &&
      CaseIn(FiledFields(f, id, input, expiresAt), k) == CaseIn(f, k)
  {
  }

  lemma FilingOfOne(cfg: Config, f: Fields, id: Id, input: Input, now: int)
    requires Bookkeeping(f) && id !in f.calls && f.durable == cfg.durable
    ensures var g := FiledFields(f, id, input, now + cfg.ttl);
      Bookkeeping(g) && id in g.calls && CaseIn(g, id) == NewCase(cfg, input, now)
  {
  }

  lemma FilingAdvances(cfg: Config, f: Fields, id: Id, input: Input, now: int)
    requires Bookkeeping(f) && id !in f.calls && f.durable == cfg.durable
    ensures var g := FiledFields(f, id, input, now + cfg.ttl);
      Bookkeeping(g) && CasesIn(g) == CasesIn(f)[id := NewCase(cfg, input, now)]
  {
    var g := FiledFields(f, id, input, now + cfg.ttl);
    FilingOfOne(cfg, f, id, input, now);
    var left, right := CasesIn(g), CasesIn(f)[id := NewCase(cfg, input, now)];
    forall k | k in left
      ensures k in right && left[k] == right[k]
    {
      if k != id {
        FilingSparesOthers(f, id, input, now + cfg.ttl, k);
      }
    }
    assert left.Keys == right.Keys;
  }

  lemma DecisionOfOne(f: Fields, id: Id, approve: bool, operator: OpenId, via: Channel, now: int, fault: Fault)
    requires id in f.calls && (f.durable ==> id in f.rows)
    ensures var (g, answer) := DecidedFields(f, id, approve, operator, via, now, fault);
      id in g.calls && (CaseIn(g, id), answer) == Decide(CaseIn(f, id), approve, operator, via, now, fault)
  {
  }

  lemma RecordingRows(f: Fields, id: Id, state: RowState, approver: Option<OpenId>, now: int, fault: Fault)
    requires f.durable ==> id in f.rows
    ensures f.durable ==>
      RowsAdvance(f.rows, Recorded(f, id, state, approver, now, fault).rows, id, SweepOf(fault, now))
    ensures Recorded(f, id, state, approver, now, fault) ==
      f.(rows := Recorded(f, id, state, approver, now, fault).rows)
  {
  }

  /** Nothing but the promise of `id` and the rows changes. */
  predicate Touches(f: Fields, g: Fields, id: Id) {
    g.durable == f.durable && g.calls == f.calls &&
    (g.pending == f.pending || g.pending == f.pending - {id}) &&
    (g.settled == f.settled || (id in g.settled && g.settled == f.settled[id := g.settled[id]]))
  }

  lemma TouchesAdvances(f: Fields, g: Fields, id: Id, time: Option<int>)
    requires Bookkeeping(f) && id in f.calls && Touches(f, g, id) &&
      (f.durable ==> RowsAdvance(f.rows, g.rows, id, time))
    ensures Bookkeeping(g) && CasesIn(g) == Advance(CasesIn(f), id, CaseIn(g, id), time)
  {
    FieldsAdvance(f, g, id, time);
  }

  lemma DecisionSparesOthers(f: Fields, id: Id, approve: bool, operator: OpenId, via: Channel, now: int, fault: Fault)
    requires Bookkeeping(f) && id in f.calls
    ensures var g := DecidedFields(f, id, approve, operator, via, now, fault).0;
      Bookkeeping(g) && g.calls == f.calls && CasesIn(g) == Advance(CasesIn(f), id, CaseIn(g, id), SweepOf(fault, now))
  {
    RecordingRows(f, id, if approve then Approved else Denied, Some(operator), now, fault);
    TouchesAdvances(f, DecidedFields(f, id, approve, operator, via, now, fault).0, id, SweepOf(fault, now));
  }

  lemma DecisionAdvances(f: Fields, id: Id, approve: bool, operator: OpenId, via: Channel, now: int, fault: Fault)
    requires Bookkeeping(f) && id in f.calls
    ensures var (g, answer) := DecidedFields(f, id, approve, operator, via, now, fault);
      var (c, expected) := Decide(CaseIn(f, id), approve, operator, via, now, fault);
      Bookkeeping(g) && answer == expected && CasesIn(g) == Advance(CasesIn(f), id, c, SweepOf(fault, now))
  {
    DecisionOfOne(f, id, approve, operator, via, now, fault);
    DecisionSparesOthers(f, id, approve, operator, via, now, fault);
  }

  lemma RefusalAdvances(f: Fields, id: Id, now: int, fault: Fault)
    requires Bookkeeping(f) && id in f.pending
    ensures var g := Settled(Recorded(f, id, Aborted, None, now, fault), id, Refused);
      Bookkeeping(g) && CasesIn(g) == Advance(CasesIn(f), id, AbortCase(CaseIn(f, id), now, fault), SweepOf(fault, now))
  {
    FieldsAdvance(f, Settled(Recorded(f, id, Aborted, None, now, fault), id, Refused), id, SweepOf(fault, now));
  }

  lemma TimerAdvances(f: Fields, id: Id, now: int, fault: Fault)
    requires Bookkeeping(f) && id in f.pending
    ensures var g := Settled(RecordedExpiry(f, id, now, fault), id, Refused);
      Bookkeeping(g) && CasesIn(g) == Advance(CasesIn(f), id, TimerFires(CaseIn(f, id), now, fault), None)
  {
    FieldsAdvance(f, Settled(RecordedExpiry(f, id, now, fault), id, Refused), id, None);
  }

  lemma PhaseAdvances(f: Fields, id: Id, phase: Phase)
    requires Bookkeeping(f) && id in f.calls
    ensures var g := PhaseSet(f, id, phase);
      Bookkeeping(g) && CasesIn(g) == Advance(CasesIn(f), id, CaseIn(f, id).(phase := phase), None)
  {
    FieldsAdvance(f, PhaseSet(f, id, phase), id, None);
  }

  /** What a failed send leaves of the maps. */
  function FailedSend(f: Fields, id: Id, now: int, fault: Fault): Fields
    requires Bookkeeping(f) && id in f.calls
  {
    PhaseSet(if id in f.pending then Settled(Recorded(f, id, Aborted, None, now, fault), id, Refused) else f, id, Threw)
  }

  lemma FailedSendAdvances(f: Fields, id: Id, now: int, fault: Fault)
    requires Bookkeeping(f) && id in f.calls
    ensures var g := FailedSend(f, id, now, fault);
      Bookkeeping(g) &&
      CasesIn(g) == Advance(CasesIn(f), id, SendFails(CaseIn(f, id), now, fault),
                            if id in f.pending then SweepOf(fault, now) else None)
  {
    if id in f.pending {
      var g := Settled(Recorded(f, id, Aborted, None, now, fault), id, Refused);
      RefusalAdvances(f, id, now, fault);
      PhaseAdvances(g, id, Threw);
      AdvanceTwice(CasesIn(f), id, AbortCase(CaseIn(f, id), now, fault), SendFails(CaseIn(f, id), now, fault),
                   SweepOf(fault, now));
    } else {
      PhaseAdvances(f, id, Threw);
    }
  }

  lemma AdvanceTwice(s: State, id: Id, c: Case, d: Case, time: Option<int>)
    ensures Advance(Advance(s, id, c, time), id, d, None) == Advance(s, id, d, time)
  {
  }

  lemma NothingAdvances(f: Fields, id: Id)
    requires id in f.calls
    ensures CasesIn(f) == Advance(CasesIn(f), id, CaseIn(f, id), None)
  {
  }

  // ---------------------------------------------------------------- the mutable coordinator

  class ApprovalCoordinator {
    const cfg: Config
    const store: ToolApprovalStore
    var pending: map<Id, Input>
    var settled: map<Id, Settlement>
    var calls: map<Id, Call>

    ghost function Values(): Fields
      reads this, store
    {
      Fields(cfg.durable, calls, pending, settled, store.rows)
    }

    ghost function Snapshot(): State
      reads this, store
    {
      CasesIn(Values())
    }

    ghost predicate Valid()
      reads this, store
    {
      Inv(cfg, Snapshot()) && Bookkeeping(Values())
    }

    constructor (cfg: Config)
      ensures Valid() && Snapshot() == map[] && this.cfg == cfg
    {
      this.cfg := cfg;
      store := new ToolApprovalStore();
      pending, settled, calls := map[], map[], map[];
    }

    method File(id: Id, input: Input, expiresAt: int)
      requires id !in calls && (cfg.durable ==> id !in store.rows)
      modifies this, store
      ensures Values() == FiledFields(old(Values()), id, input, expiresAt)
    {
      if cfg.durable {
        store.Create(id, expiresAt);
      }
      pending := pending[id := input];
      calls := calls[id := Call(input, expiresAt, Sending)];
    }

    method Request(id: Id, input: Input, now: int, aborted: bool, storeThrows: bool) returns (r: Filing)
      requires Valid() && id !in calls
      modifies this, store
      ensures Valid() && r == RequestOutcome(cfg, input, aborted, storeThrows)
      ensures Snapshot() == Apply(cfg, old(Snapshot()), Step.Request(id, input, now, aborted, storeThrows))
    {
      StepKeepsInv(cfg, Snapshot(), Step.Request(id, input, now, aborted, storeThrows));
      if input.approval.Never? || input.effect.Read? {
        return Exempt;
      }
      if input.approval.Admin? && cfg.admins == {} {
        return NoAdministrator;
      }
      if aborted {
        return AbortedEarly;
      }
      if cfg.durable && storeThrows {
        return StoreFailed;
      }
      FilingAdvances(cfg, Values(), id, input, now);
      File(id, input, now + cfg.ttl);
      r := Filed;
    }

    method Settle(id: Id, how: Settlement)
      modifies this
      ensures Values() == Settled(old(Values()), id, how)
    {
      pending := pending - {id};
      settled := settled[id := how];
    }

    /** The decision of somebody entitled to it. */
    method ResolvePending(id: Id, approve: bool, operator: OpenId, via: Channel, now: int, fault: Fault)
      returns (r: Answer)
      requires cfg.durable ==> id in store.rows
      modifies this, store
      ensures (Values(), r) == DecidedFields(old(Values()), id, approve, operator, via, now, fault)
    {
      if cfg.durable {
        var resolved := store.Resolve(id, if approve then Approved else Denied, Some(operator), now, fault);
        if resolved.None? {
          return StoreThrew;
        }
        if !resolved.value {
          Settle(id, Refused);
          return Decided(false);
        }
      }
      Settle(id, if approve then Granted(operator, via, now) else Refused);
      r := Decided(true);
    }

    method HandleCardAction(id: Id, chatId: string, approve: bool, operator: OpenId, now: int, fault: Fault)
      returns (r: Answer)
      requires Valid() && id in calls
      modifies this, store
      ensures Valid() && r == ByCard(cfg.admins, old(Snapshot())[id], chatId, approve, operator, now, fault).1
      ensures Snapshot() == Apply(cfg, old(Snapshot()), CardAction(id, chatId, approve, operator, now, fault))
    {
      StepKeepsInv(cfg, Snapshot(), CardAction(id, chatId, approve, operator, now, fault));
      NothingAdvances(Values(), id);
      if id !in pending {
        return AlreadyHandled;
      }
      if pending[id].chatId != chatId {
        return WrongChat;
      }
      var allowed := if pending[id].approval.Admin? then operator in cfg.admins else operator == pending[id].requester;
      if !allowed {
        return NotAllowed;
      }
      DecisionAdvances(Values(), id, approve, operator, Card, now, fault);
      r := ResolvePending(id, approve, operator, Card, now, fault);
    }

    /** True when the decision was carried out. */
    method ResolveFromTrustedAdmin(id: Id, approve: bool, operator: OpenId, now: int, fault: Fault) returns (r: Answer)
      requires Valid() && id in calls
      modifies this, store
      ensures Valid() && r == ByConsole(old(Snapshot())[id], approve, operator, now, fault).1
      ensures Snapshot() == Apply(cfg, old(Snapshot()), AdminAction(id, approve, operator, now, fault))
    {
      StepKeepsInv(cfg, Snapshot(), AdminAction(id, approve, operator, now, fault));
      NothingAdvances(Values(), id);
      if id !in pending || !pending[id].approval.Admin? {
        return AlreadyHandled;
      }
      DecisionAdvances(Values(), id, approve, operator, Console, now, fault);
      r := ResolvePending(id, approve, operator, Console, now, fault);
    }

    method OnTimer(id: Id, now: int, fault: Fault)
      requires Valid() && id in calls
      modifies this, store
      ensures Valid() && Snapshot() == Apply(cfg, old(Snapshot()), Timer(id, now, fault))
    {
      StepKeepsInv(cfg, Snapshot(), Timer(id, now, fault));
      NothingAdvances(Values(), id);
      if id in pending {
        TimerAdvances(Values(), id, now, fault);
        if cfg.durable && fault.NoFault? {
          store.ResolveExpired(id, now);
        }
        Settle(id, Refused);
      }
    }

    /** Records the abort as far as the store lets it and refuses the promise in any case. */
    method Refuse(id: Id, now: int, fault: Fault)
      requires cfg.durable ==> id in store.rows
      modifies this, store
      ensures Values() == Settled(Recorded(old(Values()), id, Aborted, None, now, fault), id, Refused)
    {
      if cfg.durable {
        var _ := store.Resolve(id, Aborted, None, now, fault);
      }
      Settle(id, Refused);
    }

    method OnAbort(id: Id, now: int, fault: Fault)
      requires Valid() && id in calls
      modifies this, store
      ensures Valid() && Snapshot() == Apply(cfg, old(Snapshot()), Abort(id, now, fault))
    {
      StepKeepsInv(cfg, Snapshot(), Abort(id, now, fault));
      NothingAdvances(Values(), id);
      if id in pending {
        RefusalAdvances(Values(), id, now, fault);
        Refuse(id, now, fault);
      }
    }

    /** The card could not be delivered: what is still pending is refused, and the call throws. */
    method OnSendFailed(id: Id, now: int, fault: Fault)
      requires Valid() && id in calls && calls[id].phase.Sending?
      modifies this, store
      ensures Valid() && Snapshot() == Apply(cfg, old(Snapshot()), SendFailed(id, now, fault))
    {
      StepKeepsInv(cfg, Snapshot(), SendFailed(id, now, fault));
      FailedSendAdvances(Values(), id, now, fault);
      if id in pending {
        Refuse(id, now, fault);
      }
      calls := calls[id := calls[id].(phase := Threw)];
    }

    /** The card was delivered; the call waits for its promise. */
    method OnSent(id: Id)
      requires Valid() && id in calls && calls[id].phase.Sending?
      modifies this
      ensures Valid() && Snapshot() == Apply(cfg, old(Snapshot()), Sent(id))
    {
      StepKeepsInv(cfg, Snapshot(), Sent(id));
      PhaseAdvances(Values(), id, Waiting);
      calls := calls[id := calls[id].(phase := Waiting)];
    }

    /** The call goes on once its promise is settled: it returns, or throws. */
    method OnSettled(id: Id) returns (returned: bool)
      requires Valid() && id in calls && calls[id].phase.Waiting? && id in settled
      modifies this
      ensures Valid() && Snapshot() == Apply(cfg, old(Snapshot()), Continue(id))
      ensures returned <==> IsGranted(old(Snapshot())[id])
      ensures returned && cfg.durable ==>
        id in store.rows && store.rows[id].state.Approved? && store.rows[id].approver == Some(settled[id].operator) &&
        settled[id].at < store.rows[id].expiresAt
    {
      ghost var c := Snapshot()[id];
      assert CaseInv(cfg, c);
      StepKeepsInv(cfg, Snapshot(), Continue(id));
      returned := settled[id].Granted?;
      PhaseAdvances(Values(), id, if returned then Returned else Threw);
      calls := calls[id := calls[id].(phase := if returned then Returned else Threw)];
    }

    /** Nothing final in `before` has been undone. */
    ghost predicate Keeps(before: State)
      reads this, store
    {
      forall id :: id in before ==> id in Snapshot() && Follows(before[id], Snapshot()[id])
    }

    /** Shutdown leaves no promise open, whatever the store does. */
    method Stop(now: int, faults: Id -> Fault)
      requires Valid()
      modifies this, store
      ensures Valid() && pending == map[] && Keeps(old(Snapshot())) && calls == old(calls)
      ensures forall id :: id in old(pending) ==> id in settled && settled[id] == Refused
      ensures forall id :: id in calls ==> id in settled
    {
      ghost var before := Snapshot();
      KeepsItself(before);
      var rest := pending.Keys;
      while rest != {}
        invariant Valid() && rest == pending.Keys && rest <= old(pending).Keys && calls == old(calls) && Keeps(before)
        invariant forall id :: id in old(pending) && id !in rest ==> id in settled && settled[id] == Refused
        decreases |rest|
      {
        var id := Pick(rest);
        StopOne(id, now, faults(id), before);
        rest := rest - {id};
      }
      AllSettled();
    }

    lemma KeepsItself(before: State)
      requires before == Snapshot()
      ensures Keeps(before)
    {
    }

    lemma AllSettled()
      requires Valid() && pending.Keys == {}
      ensures pending == map[] && forall id :: id in calls ==> id in settled
    {
      forall id | id in calls
        ensures id in settled
      {
        assert CaseInv(cfg, Snapshot()[id]);
      }
    }

    method StopOne(id: Id, now: int, fault: Fault, ghost before: State)
      requires Valid() && id in pending && Keeps(before)
      modifies this, store
      ensures Valid() && pending.Keys == old(pending).Keys - {id} && settled == old(settled)[id := Refused] &&
        calls == old(calls)
      ensures Keeps(before)
    {
      ghost var s := Snapshot();
      StepKeepsInv(cfg, s, Abort(id, now, fault));
      RefusalAdvances(Values(), id, now, fault);
      Refuse(id, now, fault);
      forall k | k in before
        ensures k in Snapshot() && Follows(before[k], Snapshot()[k])
      {
        assert Follows(before[k], s[k]) && Follows(s[k], Snapshot()[k]);
      }
    }
  }
}
