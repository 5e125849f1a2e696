/** Admission of turns through two semaphores: the Host-wide one first, the binding's own second.

    One `Step` is one synchronous stretch.  Promise continuations drain before timers, so a turn
    that was granted a slot has gone on before its timer can fire: only parked turns expire.  */
module TurnAdmission {
  import opened Wrappers
  import opened SetFacts
  import opened Semaphore

  type TurnId = string
  type BindingId = string

  datatype Phase =
    | WaitGlobal(ticket: Ticket)                      // parked at the Host-wide semaphore
    | GotGlobal(global: Handle)                       // granted; about to ask the binding
    | WaitBinding(global: Handle, ticket: Ticket)     // parked at the binding's semaphore
    | Running(global: Handle, own: Handle)            // holds both
    | Refunding(global: Handle)                       // about to give the Host-wide slot back

  datatype Turn = Turn(binding: BindingId, phase: Phase)

  /** A semaphore, for each ticket the turn its waiter resolves, and for each release function the
      turn it was handed to. */
  datatype Station = Station(sem: Sem, callers: map<Ticket, TurnId>, owners: map<Handle, TurnId>)

  datatype State = State(global: Station, bindings: map<BindingId, Station>, turns: map<TurnId, Turn>)

  datatype Step =
    | Begin(turn: TurnId, binding: BindingId)
    | Continue(turn: TurnId)
    | Expire(turn: TurnId)
    | Refund(turn: TurnId)
    | Finish(turn: TurnId)

  // ---------------------------------------------------------------- transitions

  function Ask(st: Station, t: TurnId): Station {
    match AcquireResult(st.sem, false)
    case Granted(h) => Station(AcquireStep(st.sem, false), st.callers, st.owners[h := t])
    case Queued(k) => Station(AcquireStep(st.sem, false), st.callers[k := t], st.owners)
    case Rejected => st
  }

  /** The turn that a release of `h` grants. */
  function Granted(st: Station, h: Handle): Option<TurnId>
    requires h in st.sem.released
  {
    var k := ReleaseGrants(st.sem, h);
    if k.Some? && k.value in st.callers then Some(st.callers[k.value]) else None
  }

  function GiveBack(st: Station, h: Handle): Station
    requires h in st.sem.released
  {
    var u := Granted(st, h);
    Station(ReleaseStep(st.sem, h), st.callers, if u.Some? then st.owners[st.sem.nextHandle := u.value] else st.owners)
  }

  function BeginStep(s: State, t: TurnId, b: BindingId): State {
    var phase := match AcquireResult(s.global.sem, false)
      case Granted(h) => GotGlobal(h)
      case Queued(k) => WaitGlobal(k)
      case Rejected => WaitGlobal(s.global.sem.nextTicket);
    State(Ask(s.global, t), s.bindings, s.turns[t := Turn(b, phase)])
  }

  function ContinueStep(s: State, t: TurnId): State
    requires Enabled(s, Continue(t))
  {
    var b, g := s.turns[t].binding, s.turns[t].phase.global;
    var st := s.bindings[b];
    var phase := match AcquireResult(st.sem, false)
      case Granted(h) => Running(g, h)
      case Queued(k) => WaitBinding(g, k)
      case Rejected => WaitBinding(g, st.sem.nextTicket);
    State(s.global, s.bindings[b := Ask(st, t)], s.turns[t := Turn(b, phase)])
  }

  function ExpireStep(s: State, t: TurnId): State
    requires Enabled(s, Expire(t))
  {
    var turn := s.turns[t];
    if turn.phase.WaitGlobal? then
      State(s.global.(sem := AbortStep(s.global.sem, turn.phase.ticket)), s.bindings, s.turns - {t})
    else
      var st := s.bindings[turn.binding];
      State(s.global, s.bindings[turn.binding := st.(sem := AbortStep(st.sem, turn.phase.ticket))],
            s.turns[t := turn.(phase := Refunding(turn.phase.global))])
  }

  /** Giving the Host-wide slot back ends the turn and may grant another. */
  function RefundStep(s: State, t: TurnId): State
    requires Enabled(s, Refund(t))
  {
    var g := s.turns[t].phase.global;
    var u := Granted(s.global, g);
    var turns := s.turns - {t};
    State(GiveBack(s.global, g), s.bindings,
          if u.Some? && u.value in turns
          then turns[u.value := turns[u.value].(phase := GotGlobal(s.global.sem.nextHandle))] else turns)
  }

  /** Giving the binding's slot back may let another turn of the binding run. */
  function LeaveStep(s: State, t: TurnId): State
    requires Enabled(s, Finish(t))
  {
    var turn := s.turns[t];
    var st := s.bindings[turn.binding];
    var u := Granted(st, turn.phase.own);
    var turns := s.turns[t := turn.(phase := Refunding(turn.phase.global))];
    State(s.global, s.bindings[turn.binding := GiveBack(st, turn.phase.own)],
          if u.Some? && u.value in turns && turns[u.value].phase.WaitBinding?
          then turns[u.value := turns[u.value].(phase := Running(turns[u.value].phase.global, st.sem.nextHandle))]
            else turns)
  }

  /** The release function of a turn: first the binding's slot, then the Host-wide one. */
  function FinishStep(s: State, t: TurnId): State
    requires Enabled(s, Finish(t))
  {
    var r := LeaveStep(s, t);
    if Enabled(r, Refund(t)) then RefundStep(r, t) else r
  }

  predicate Enabled(s: State, step: Step) {
    match step
    case Begin(t, b) => t !in s.turns && b in s.bindings
    case Continue(t) => t in s.turns && s.turns[t].phase.GotGlobal? && s.turns[t].binding in s.bindings
    case Expire(t) =>
      t in s.turns && (s.turns[t].phase.WaitGlobal? || s.turns[t].phase.WaitBinding?) &&
      s.turns[t].binding in s.bindings
    case Refund(t) => t in s.turns && s.turns[t].phase.Refunding? && s.turns[t].phase.global in s.global.sem.released
    case Finish(t) =>
      t in s.turns && s.turns[t].phase.Running? && s.turns[t].binding in s.bindings &&
      s.turns[t].phase.own in s.bindings[s.turns[t].binding].sem.released
  }

  function Apply(s: State, step: Step): State
    requires Enabled(s, step)
  {
    match step
    case Begin(t, b) => BeginStep(s, t, b)
    case Continue(t) => ContinueStep(s, t)
    case Expire(t) => ExpireStep(s, t)
    case Refund(t) => RefundStep(s, t)
    case Finish(t) => FinishStep(s, t)
  }

  // ---------------------------------------------------------------- the invariant

  predicate Open(sem: Sem, h: Handle) {
    h in sem.released && !sem.released[h]
  }

  /** The unreleased handles are exactly those the turns hold, one each, and the queued tickets are
      exactly those the turns wait under. */
  ghost predicate GlobalInv(st: Station, turns: map<TurnId, Turn>) {
    SemInv(st.sem) &&
    (forall t :: t in turns && !turns[t].phase.WaitGlobal? ==>
      Open(st.sem, turns[t].phase.global) && turns[t].phase.global in st.owners &&
      st.owners[turns[t].phase.global] == t) &&
    (forall h :: Open(st.sem, h) ==>
      h in st.owners && st.owners[h] in turns && !turns[st.owners[h]].phase.WaitGlobal? &&
      turns[st.owners[h]].phase.global == h) &&
    (forall t :: t in turns && turns[t].phase.WaitGlobal? ==>
      turns[t].phase.ticket in st.sem.waiters && turns[t].phase.ticket in st.callers &&
      st.callers[turns[t].phase.ticket] == t) &&
    (forall k :: k in st.sem.waiters ==>
     k in st.callers && st.callers[k] in turns && turns[st.callers[k]].phase == WaitGlobal(k))
  }

  /** The same at one binding, for the turns that run or wait there. */
  ghost predicate BindingInv(st: Station, turns: map<TurnId, Turn>, b: BindingId) {
    SemInv(st.sem) &&
    (forall t :: t in turns && turns[t].binding == b && turns[t].phase.Running? ==>
      Open(st.sem, turns[t].phase.own) && turns[t].phase.own in st.owners && st.owners[turns[t].phase.own] == t) &&
    (forall h :: Open(st.sem, h) ==>
      h in st.owners && st.owners[h] in turns && turns[st.owners[h]].binding == b &&
      turns[st.owners[h]].phase.Running? &&
      turns[st.owners[h]].phase.own == h) &&
    (forall t :: t in turns && turns[t].binding == b && turns[t].phase.WaitBinding? ==>
      turns[t].phase.ticket in st.sem.waiters && turns[t].phase.ticket in st.callers &&
      st.callers[turns[t].phase.ticket] == t) &&
    (forall k :: k in st.sem.waiters ==>
      k in st.callers && st.callers[k] in turns && turns[st.callers[k]].binding == b &&
      turns[st.callers[k]].phase.WaitBinding? && turns[st.callers[k]].phase.ticket == k)
  }

  ghost predicate Inv(s: State) {
    GlobalInv(s.global, s.turns) &&
    (forall b :: b in s.bindings ==> BindingInv(s.bindings[b], s.turns, b))
  }

  lemma TicketsAreOld(sem: Sem)
    requires SemInv(sem)
    ensures forall k :: k in sem.waiters ==> k.number < sem.nextTicket.number
    ensures forall i, j :: 0 <= i < j < |sem.waiters| ==> sem.waiters[i] != sem.waiters[j]
  {
    var all := sem.served + sem.waiters + [sem.nextTicket];
    assert all[|all| - 1] == sem.nextTicket;
    assert forall i :: 0 <= i < |sem.waiters| ==> sem.waiters[i] == all[|sem.served| + i];
  }

  /** What asking does to the semaphore's handles and queue. */
  lemma AskFacts(sem: Sem)
    requires SemInv(sem)
    ensures SemInv(AcquireStep(sem, false)) && !AcquireResult(sem, false).Rejected?
    ensures AcquireResult(sem, false).Granted? ==>
      AcquireStep(sem, false).waiters == sem.waiters && !Open(sem, sem.nextHandle) &&
      forall h :: Open(AcquireStep(sem, false), h) <==> Open(sem, h) || h == sem.nextHandle
    ensures AcquireResult(sem, false).Queued? ==>
      AcquireStep(sem, false).released == sem.released &&
      AcquireStep(sem, false).waiters == sem.waiters + [sem.nextTicket] && sem.nextTicket !in sem.waiters
  {
    AcquireKeepsInv(sem, false);
    TicketsAreOld(sem);
  }

  /** What giving an open handle back does. */
  lemma GiveBackFacts(sem: Sem, h: Handle)
    requires SemInv(sem) && Open(sem, h)
    ensures SemInv(ReleaseStep(sem, h)) && !Open(sem, sem.nextHandle)
    ensures sem.waiters == [] ==>
      ReleaseGrants(sem, h).None? && ReleaseStep(sem, h).waiters == [] &&
      forall g :: Open(ReleaseStep(sem, h), g) <==> Open(sem, g) && g != h
    ensures sem.waiters != [] ==>
      ReleaseGrants(sem, h) == Some(sem.waiters[0]) &&
      (forall g :: Open(ReleaseStep(sem, h), g) <==> (Open(sem, g) && g != h) || g == sem.nextHandle) &&
      (forall k :: k in ReleaseStep(sem, h).waiters <==> k in sem.waiters && k != sem.waiters[0])
  {
    ReleaseKeepsInv(sem, h);
    TicketsAreOld(sem);
    if sem.waiters != [] {
      assert sem.waiters == [sem.waiters[0]] + sem.waiters[1..];
    }
  }

  lemma AbortFacts(sem: Sem, t: Ticket)
    requires SemInv(sem)
    ensures SemInv(AbortStep(sem, t)) && forall k :: k in AbortStep(sem, t).waiters <==> k in sem.waiters && k != t
  {
    AbortKeepsInv(sem, t);
    TicketsAreOld(sem);
    WithoutIsOthers(sem.waiters, t);
  }

  // ---------------------------------------------------------------- one level at a time

  /** A turn of another binding, or a turn that neither runs nor waits here, may change freely. */
  lemma BindingFrame(st: Station, before: map<TurnId, Turn>, after: map<TurnId, Turn>, b: BindingId)
    requires BindingInv(st, before, b)
    requires forall t ::
      (t in before && before[t].binding == b && (before[t].phase.Running? || before[t].phase.WaitBinding?)) ==>
      (t in after && after[t] == before[t])
    requires forall t ::
      (t in after && after[t].binding == b && (after[t].phase.Running? || after[t].phase.WaitBinding?)) ==>
      (t in before && after[t] == before[t])
    ensures BindingInv(st, after, b)
  {
  }

  /** A turn that keeps its Host-wide slot may change freely. */
  lemma GlobalFrame(st: Station, before: map<TurnId, Turn>, after: map<TurnId, Turn>)
    requires GlobalInv(st, before) && after.Keys == before.Keys
    requires forall t :: t in before ==>
      if before[t].phase.WaitGlobal? then after[t] == before[t]
      else !after[t].phase.WaitGlobal? && after[t].phase.global == before[t].phase.global
    ensures GlobalInv(st, after)
  {
  }

  lemma BeginGlobal(st: Station, turns: map<TurnId, Turn>, t: TurnId, turn: Turn)
    requires GlobalInv(st, turns) && t !in turns
    requires turn.phase ==
      (if AcquireResult(st.sem, false).Granted? then GotGlobal(st.sem.nextHandle) else WaitGlobal(st.sem.nextTicket))
    ensures GlobalInv(Ask(st, t), turns[t := turn])
  {
    AskFacts(st.sem);
  }

  lemma ContinueBinding(st: Station, turns: map<TurnId, Turn>, b: BindingId, t: TurnId, turn: Turn)
    requires BindingInv(st, turns, b) && t in turns && turns[t].phase.GotGlobal? && turn.binding == b
    requires if AcquireResult(st.sem, false).Granted?
      then turn.phase == Running(turns[t].phase.global, st.sem.nextHandle)
             else turn.phase == WaitBinding(turns[t].phase.global, st.sem.nextTicket)
    ensures BindingInv(Ask(st, t), turns[t := turn], b)
  {
    AskFacts(st.sem);
  }

  lemma ExpireGlobal(st: Station, turns: map<TurnId, Turn>, t: TurnId)
    requires GlobalInv(st, turns) && t in turns && turns[t].phase.WaitGlobal?
    ensures GlobalInv(st.(sem := AbortStep(st.sem, turns[t].phase.ticket)), turns - {t})
  {
    AbortFacts(st.sem, turns[t].phase.ticket);
  }

  lemma ExpireBinding(st: Station, turns: map<TurnId, Turn>, b: BindingId, t: TurnId, turn: Turn)
    requires BindingInv(st, turns, b) && t in turns && turns[t].phase.WaitBinding? && turns[t].binding == b
    requires turn.phase.Refunding?
    ensures BindingInv(st.(sem := AbortStep(st.sem, turns[t].phase.ticket)), turns[t := turn], b)
  {
    AbortFacts(st.sem, turns[t].phase.ticket);
  }

  lemma RefundGlobal(st: Station, turns: map<TurnId, Turn>, t: TurnId)
    requires GlobalInv(st, turns) && t in turns && !turns[t].phase.WaitGlobal?
    ensures Open(st.sem, turns[t].phase.global)
    ensures var u, r := Granted(st, turns[t].phase.global), GiveBack(st, turns[t].phase.global);
      (u.None? ==> GlobalInv(r, turns - {t})) &&
      (u.Some? ==>
        u.value in turns - {t} && turns[u.value].phase.WaitGlobal? &&
        GlobalInv(r, (turns - {t})[u.value := turns[u.value].(phase := GotGlobal(st.sem.nextHandle))]))
  {
    var h := turns[t].phase.global;
    GiveBackFacts(st.sem, h);
    if st.sem.waiters == [] {
    } else {
      var k: Ticket := st.sem.waiters[0];
      assert k in st.sem.waiters;
      var u := st.callers[k];
      var after := (turns - {t})[u := turns[u].(phase := GotGlobal(st.sem.nextHandle))];
    }
  }

  lemma LeaveAlone(st: Station, turns: map<TurnId, Turn>, b: BindingId, t: TurnId, turn: Turn)
    requires BindingInv(st, turns, b) && t in turns && turns[t].binding == b && turns[t].phase.Running? &&
      turn.phase.Refunding? && st.sem.waiters == []
    ensures Open(st.sem, turns[t].phase.own) && Granted(st, turns[t].phase.own).None?
    ensures BindingInv(GiveBack(st, turns[t].phase.own), turns[t := turn], b)
  {
    GiveBackFacts(st.sem, turns[t].phase.own);
  }

  lemma LeaveGrants(st: Station, turns: map<TurnId, Turn>, b: BindingId, t: TurnId, turn: Turn, u: TurnId)
    requires BindingInv(st, turns, b) && t in turns && turns[t].binding == b && turns[t].phase.Running? &&
      turn.phase.Refunding? && st.sem.waiters != []
    requires st.sem.waiters[0] in st.callers && u == st.callers[st.sem.waiters[0]]
    ensures Open(st.sem, turns[t].phase.own) && Granted(st, turns[t].phase.own) == Some(u)
    ensures u != t && u in turns && turns[u].phase.WaitBinding? && turns[u].binding == b
    ensures BindingInv(GiveBack(st, turns[t].phase.own),
              turns[t := turn][u := turns[u].(phase := Running(turns[u].phase.global, st.sem.nextHandle))], b)
  {
    GiveBackFacts(st.sem, turns[t].phase.own);
    var k: Ticket := st.sem.waiters[0];
    assert k in st.sem.waiters;
  }

  // ---------------------------------------------------------------- every step, every run

  predicate AtBinding(turn: Turn) {
    turn.phase.Running? || turn.phase.WaitBinding?
  }

  /** Turns that run or wait at a binding other than `b` are untouched. */
  predicate SameElsewhere(before: map<TurnId, Turn>, after: map<TurnId, Turn>, b: Option<BindingId>) {
    (forall t :: t in before && AtBinding(before[t]) && Some(before[t].binding) != b ==>
     t in after && after[t] == before[t]) &&
    (forall t :: t in after && AtBinding(after[t]) && Some(after[t].binding) != b ==>
     t in before && after[t] == before[t])
  }

  lemma Elsewhere(bindings: map<BindingId, Station>, before: map<TurnId, Turn>, after: map<TurnId, Turn>,
                  b: Option<BindingId>, c: BindingId)
    requires c in bindings && Some(c) != b && BindingInv(bindings[c], before, c)
    requires SameElsewhere(before, after, b)
    ensures BindingInv(bindings[c], after, c)
  {
    BindingFrame(bindings[c], before, after, c);
  }

  lemma ElsewhereAll(s: State, after: State, b: Option<BindingId>)
    requires forall c :: c in s.bindings ==> BindingInv(s.bindings[c], s.turns, c)
    requires SameElsewhere(s.turns, after.turns, b) && after.bindings.Keys == s.bindings.Keys
    requires forall c :: c in s.bindings && Some(c) != b ==> after.bindings[c] == s.bindings[c]
    requires b.Some? && b.value in s.bindings ==> BindingInv(after.bindings[b.value], after.turns, b.value)
    ensures forall c :: c in after.bindings ==> BindingInv(after.bindings[c], after.turns, c)
  {
    forall c | c in after.bindings
      ensures BindingInv(after.bindings[c], after.turns, c)
    {
      if Some(c) != b {
        Elsewhere(s.bindings, s.turns, after.turns, b, c);
      }
    }
  }

  lemma BeginTurns(s: State, t: TurnId, b: BindingId)
    requires GlobalInv(s.global, s.turns) && Enabled(s, Begin(t, b))
    ensures GlobalInv(BeginStep(s, t, b).global, BeginStep(s, t, b).turns)
    ensures SameElsewhere(s.turns, BeginStep(s, t, b).turns, None)
  {
    AskFacts(s.global.sem);
    BeginGlobal(s.global, s.turns, t, BeginStep(s, t, b).turns[t]);
  }

  lemma BeginKeepsInv(s: State, t: TurnId, b: BindingId)
    requires Inv(s) && Enabled(s, Begin(t, b))
    ensures Inv(BeginStep(s, t, b))
  {
    BeginTurns(s, t, b);
    ElsewhereAll(s, BeginStep(s, t, b), None);
  }

  lemma ContinueTurns(s: State, t: TurnId, b: BindingId)
    requires Enabled(s, Continue(t)) && b == s.turns[t].binding && BindingInv(s.bindings[b], s.turns, b)
    ensures BindingInv(ContinueStep(s, t).bindings[b], ContinueStep(s, t).turns, b)
    ensures SameElsewhere(s.turns, ContinueStep(s, t).turns, Some(b))
  {
    AskFacts(s.bindings[b].sem);
    ContinueBinding(s.bindings[b], s.turns, b, t, ContinueStep(s, t).turns[t]);
  }

  lemma ContinueHere(s: State, t: TurnId, b: BindingId)
    requires Enabled(s, Continue(t)) && b == s.turns[t].binding
    requires forall c :: c in s.bindings ==> BindingInv(s.bindings[c], s.turns, c)
    ensures forall c :: c in s.bindings ==> BindingInv(ContinueStep(s, t).bindings[c], ContinueStep(s, t).turns, c)
  {
    ContinueTurns(s, t, b);
    ElsewhereAll(s, ContinueStep(s, t), Some(b));
  }

  lemma ContinueGlobal(s: State, t: TurnId)
    requires GlobalInv(s.global, s.turns) && Enabled(s, Continue(t))
    ensures GlobalInv(ContinueStep(s, t).global, ContinueStep(s, t).turns)
  {
    GlobalFrame(s.global, s.turns, ContinueStep(s, t).turns);
  }

  lemma ContinueKeepsInv(s: State, t: TurnId)
    requires Inv(s) && Enabled(s, Continue(t))
    ensures Inv(ContinueStep(s, t))
  {
    ContinueHere(s, t, s.turns[t].binding);
    ContinueGlobal(s, t);
  }

  lemma ExpireTurnsGlobal(s: State, t: TurnId)
    requires GlobalInv(s.global, s.turns) && Enabled(s, Expire(t)) && s.turns[t].phase.WaitGlobal?
    ensures GlobalInv(ExpireStep(s, t).global, ExpireStep(s, t).turns)
    ensures SameElsewhere(s.turns, ExpireStep(s, t).turns, None)
  {
    ExpireGlobal(s.global, s.turns, t);
  }

  lemma ExpireTurnsBinding(s: State, t: TurnId, b: BindingId)
    requires Enabled(s, Expire(t)) && s.turns[t].phase.WaitBinding? && b == s.turns[t].binding
    requires BindingInv(s.bindings[b], s.turns, b)
    ensures BindingInv(ExpireStep(s, t).bindings[b], ExpireStep(s, t).turns, b)
    ensures SameElsewhere(s.turns, ExpireStep(s, t).turns, Some(b))
  {
    ExpireBinding(s.bindings[b], s.turns, b, t, ExpireStep(s, t).turns[t]);
  }

  lemma ExpireHere(s: State, t: TurnId, b: BindingId)
    requires Enabled(s, Expire(t)) && s.turns[t].phase.WaitBinding? && b == s.turns[t].binding
    requires forall c :: c in s.bindings ==> BindingInv(s.bindings[c], s.turns, c)
    ensures forall c :: c in s.bindings ==> BindingInv(ExpireStep(s, t).bindings[c], ExpireStep(s, t).turns, c)
  {
    ExpireTurnsBinding(s, t, b);
    ElsewhereAll(s, ExpireStep(s, t), Some(b));
  }

  lemma ExpireHolding(s: State, t: TurnId)
    requires GlobalInv(s.global, s.turns) && Enabled(s, Expire(t)) && s.turns[t].phase.WaitBinding?
    ensures GlobalInv(ExpireStep(s, t).global, ExpireStep(s, t).turns)
  {
    GlobalFrame(s.global, s.turns, ExpireStep(s, t).turns);
  }

  lemma ExpireKeepsInv(s: State, t: TurnId)
    requires Inv(s) && Enabled(s, Expire(t))
    ensures Inv(ExpireStep(s, t))
  {
    if s.turns[t].phase.WaitGlobal? {
      ExpireTurnsGlobal(s, t);
      ElsewhereAll(s, ExpireStep(s, t), None);
    } else {
      ExpireHere(s, t, s.turns[t].binding);
      ExpireHolding(s, t);
    }
  }

  /** The turn that a refund lets in was waiting for the Host-wide slot. */
  lemma RefundGrants(st: Station, turns: map<TurnId, Turn>, h: Handle)
    requires GlobalInv(st, turns) && Open(st.sem, h) && Granted(st, h).Some?
    ensures Granted(st, h).value in turns && turns[Granted(st, h).value].phase.WaitGlobal?
  {
    GiveBackFacts(st.sem, h);
  }

  lemma RefundSame(s: State, t: TurnId)
    requires GlobalInv(s.global, s.turns) && Enabled(s, Refund(t))
    ensures SameElsewhere(s.turns, RefundStep(s, t).turns, None)
  {
    var h := s.turns[t].phase.global;
    if Granted(s.global, h).Some? {
      RefundGrants(s.global, s.turns, h);
    }
  }

  lemma RefundTurns(s: State, t: TurnId)
    requires GlobalInv(s.global, s.turns) && Enabled(s, Refund(t))
    ensures GlobalInv(RefundStep(s, t).global, RefundStep(s, t).turns)
  {
    RefundGlobal(s.global, s.turns, t);
  }

  lemma RefundKeepsInv(s: State, t: TurnId)
    requires Inv(s) && Enabled(s, Refund(t))
    ensures Inv(RefundStep(s, t))
  {
    RefundTurns(s, t);
    RefundSame(s, t);
    ElsewhereAll(s, RefundStep(s, t), None);
  }

  /** Where the leaving step puts the turns of the binding. */
  lemma LeaveTurns(s: State, t: TurnId)
    requires Enabled(s, Finish(t)) && BindingInv(s.bindings[s.turns[t].binding], s.turns, s.turns[t].binding)
    ensures BindingInv(LeaveStep(s, t).bindings[s.turns[t].binding], LeaveStep(s, t).turns, s.turns[t].binding)
    ensures SameElsewhere(s.turns, LeaveStep(s, t).turns, Some(s.turns[t].binding))
    ensures LeaveStep(s, t).turns.Keys == s.turns.Keys &&
      LeaveStep(s, t).turns[t].phase == Refunding(s.turns[t].phase.global)
    ensures forall u :: u in s.turns && u != t ==>
      LeaveStep(s, t).turns[u] == s.turns[u] ||
      (s.turns[u].phase.WaitBinding? && LeaveStep(s, t).turns[u].phase.Running? &&
       LeaveStep(s, t).turns[u].binding == s.turns[u].binding &&
       LeaveStep(s, t).turns[u].phase.global == s.turns[u].phase.global)
  {
    var turn := s.turns[t];
    var b := turn.binding;
    var next := turn.(phase := Refunding(turn.phase.global));
    if s.bindings[b].sem.waiters == [] {
      LeaveAlone(s.bindings[b], s.turns, b, t, next);
    } else {
      var k: Ticket := s.bindings[b].sem.waiters[0];
      assert k in s.bindings[b].sem.waiters;
      LeaveGrants(s.bindings[b], s.turns, b, t, next, s.bindings[b].callers[k]);
    }
  }

  lemma LeaveHere(s: State, t: TurnId)
    requires Enabled(s, Finish(t)) && forall c :: c in s.bindings ==> BindingInv(s.bindings[c], s.turns, c)
    ensures forall c :: c in s.bindings ==> BindingInv(LeaveStep(s, t).bindings[c], LeaveStep(s, t).turns, c)
  {
    LeaveTurns(s, t);
    ElsewhereAll(s, LeaveStep(s, t), Some(s.turns[t].binding));
  }

  lemma LeaveHolding(s: State, t: TurnId)
    requires GlobalInv(s.global, s.turns) && Enabled(s, Finish(t))
    requires BindingInv(s.bindings[s.turns[t].binding], s.turns, s.turns[t].binding)
    ensures GlobalInv(LeaveStep(s, t).global, LeaveStep(s, t).turns) && Enabled(LeaveStep(s, t), Refund(t))
  {
    LeaveTurns(s, t);
    GlobalFrame(s.global, s.turns, LeaveStep(s, t).turns);
  }

  lemma LeaveKeepsInv(s: State, t: TurnId)
    requires Inv(s) && Enabled(s, Finish(t))
    ensures Inv(LeaveStep(s, t)) && Enabled(LeaveStep(s, t), Refund(t))
  {
    LeaveHere(s, t);
    LeaveHolding(s, t);
  }

  lemma StepKeepsInv(s: State, step: Step)
    requires Inv(s) && Enabled(s, step)
    ensures Inv(Apply(s, step))
  {
    match step
    case Begin(t, b) => BeginKeepsInv(s, t, b);
    case Continue(t) => ContinueKeepsInv(s, t);
    case Expire(t) => ExpireKeepsInv(s, t);
    case Refund(t) => RefundKeepsInv(s, t);
    case Finish(t) =>
      LeaveKeepsInv(s, t);
      RefundKeepsInv(LeaveStep(s, t), t);
  }

  /** No turns yet; every semaphore is as its constructor leaves it. */
  predicate Init(s: State) {
    s.turns == map[] && s.global == Idle(s.global.sem.capacity) &&
    (forall b :: b in s.bindings ==> s.bindings[b] == Idle(s.bindings[b].sem.capacity))
  }

  function Idle(capacity: nat): Station {
    Station(Fresh(capacity), map[], map[])
  }

  lemma InitInv(s: State)
    requires Init(s)
    ensures Inv(s)
  {
    assert GlobalHolders(s.turns) == {};
    assert forall b :: RunningIn(s.turns, b) == {};
  }

  /** A run skips the steps that are not possible when their turn comes. */
  function Run(s: State, steps: seq<Step>): State
    decreases |steps|
  {
    if steps == [] then s
    else Run(if Enabled(s, steps[0]) then Apply(s, steps[0]) else s, steps[1..])
  }

  lemma {:induction false} RunKeepsInv(s: State, steps: seq<Step>)
    requires Inv(s)
    ensures Inv(Run(s, steps))
    decreases |steps|
  {
    if steps != [] {
      if Enabled(s, steps[0]) {
        StepKeepsInv(s, steps[0]);
      }
      RunKeepsInv(if Enabled(s, steps[0]) then Apply(s, steps[0]) else s, steps[1..]);
    }
  }

  // ---------------------------------------------------------------- what holds after any run

  function GlobalHolders(turns: map<TurnId, Turn>): set<TurnId> {
    set t | t in turns && !turns[t].phase.WaitGlobal?
  }

  function RunningIn(turns: map<TurnId, Turn>, b: BindingId): set<TurnId> {
    set t | t in turns && turns[t].binding == b && turns[t].phase.Running?
  }

  lemma GlobalCount(st: Station, turns: map<TurnId, Turn>)
    requires GlobalInv(st, turns)
    ensures |GlobalHolders(turns)| == st.sem.active <= st.sem.capacity
  {
    assert forall h :: h in Unreleased(st.sem) ==> Open(st.sem, h);
    MatchedSize(GlobalHolders(turns), map t | t in turns &&
                !turns[t].phase.WaitGlobal? :: turns[t].phase.global, Unreleased(st.sem), st.owners);
  }

  lemma BindingCount(st: Station, turns: map<TurnId, Turn>, b: BindingId)
    requires BindingInv(st, turns, b)
    ensures |RunningIn(turns, b)| == st.sem.active <= st.sem.capacity
  {
    assert forall h :: h in Unreleased(st.sem) ==> Open(st.sem, h);
    MatchedSize(RunningIn(turns, b), map t | t in turns && turns[t].binding == b &&
                turns[t].phase.Running? :: turns[t].phase.own,
                Unreleased(st.sem), st.owners);
  }

  /** Slots in use summed over a list of bindings. */
  function InUse(bindings: map<BindingId, Station>, order: seq<BindingId>): nat
    requires forall b :: b in order ==> b in bindings
  {
    if order == [] then 0 else bindings[order[0]].sem.active + InUse(bindings, order[1..])
  }

  function RunningAmong(turns: map<TurnId, Turn>, order: seq<BindingId>): set<TurnId> {
    set t | t in turns && turns[t].binding in order && turns[t].phase.Running?
  }

  lemma {:induction false} InUseIsRunning(bindings: map<BindingId, Station>, turns: map<TurnId, Turn>,
                                          order: seq<BindingId>)
    requires forall b :: b in order ==> b in bindings && bindings[b].sem.active == |RunningIn(turns, b)|
    requires forall i, j :: 0 <= i < j < |order| ==> order[i] != order[j]
    ensures InUse(bindings, order) == |RunningAmong(turns, order)|
  {
    if order == [] {
      assert RunningAmong(turns, order) == {};
    } else {
      InUseIsRunning(bindings, turns, order[1..]);
      var first, rest := RunningIn(turns, order[0]), RunningAmong(turns, order[1..]);
      assert order == [order[0]] + order[1..];
      assert RunningAmong(turns, order) == first + rest;
      assert first !! rest;
    }
  }

  lemma AllBindingCounts(s: State)
    requires Inv(s)
    ensures forall b :: b in s.bindings ==>
      s.bindings[b].sem.active == |RunningIn(s.turns, b)| <= s.bindings[b].sem.capacity
  {
    forall b | b in s.bindings
      ensures s.bindings[b].sem.active == |RunningIn(s.turns, b)| <= s.bindings[b].sem.capacity
    {
      BindingCount(s.bindings[b], s.turns, b);
    }
  }

  /** After any run, the slots in use at distinct bindings sum to the turns that run there, which is
      at most the Host-wide slots in use, which is at most the Host-wide capacity. */
  lemma SlotsAreConserved(s: State, steps: seq<Step>, order: seq<BindingId>)
    requires Init(s)
    requires forall b :: b in order ==> b in Run(s, steps).bindings
    requires forall i, j :: 0 <= i < j < |order| ==> order[i] != order[j]
    ensures var r := Run(s, steps);
      InUse(r.bindings, order) == |RunningAmong(r.turns, order)| <= r.global.sem.active <= r.global.sem.capacity
    ensures var r := Run(s, steps);
      forall b :: b in r.bindings ==> r.bindings[b].sem.active == |RunningIn(r.turns, b)| <= r.bindings[b].sem.capacity
  {
    InitInv(s);
    RunKeepsInv(s, steps);
    var r := Run(s, steps);
    AllBindingCounts(r);
    InUseIsRunning(r.bindings, r.turns, order);
    GlobalCount(r.global, r.turns);
    SubsetSize(RunningAmong(r.turns, order), GlobalHolders(r.turns));
  }

  lemma NobodyWaits(st: Station, turns: map<TurnId, Turn>)
    requires turns == map[]
    requires forall k :: k in st.sem.waiters ==> k in st.callers && st.callers[k] in turns
    ensures st.sem.waiters == []
  {
    EmptyOrMember(st.sem.waiters);
  }

  /** Once every turn has finished, expired or failed, nothing is in use and nobody waits, at any
      level: whatever was taken has been given back. */
  lemma NothingLeaks(s: State, steps: seq<Step>)
    requires Init(s) && Run(s, steps).turns == map[]
    ensures var r := Run(s, steps);
      r.global.sem.active == 0 && r.global.sem.waiters == [] &&
      forall b :: b in r.bindings ==> r.bindings[b].sem.active == 0 && r.bindings[b].sem.waiters == []
  {
    InitInv(s);
    RunKeepsInv(s, steps);
    var r := Run(s, steps);
    NobodyWaits(r.global, r.turns);
    GlobalCount(r.global, r.turns);
    assert GlobalHolders(r.turns) == {};
    forall b | b in r.bindings
      ensures r.bindings[b].sem.active == 0 && r.bindings[b].sem.waiters == []
    {
      assert BindingInv(r.bindings[b], r.turns, b);
      NobodyWaits(r.bindings[b], r.turns);
      BindingCount(r.bindings[b], r.turns, b);
      assert RunningIn(r.turns, b) == {};
    }
  }

  /** A turn that expires while it waits for its binding gives the Host-wide slot back: the slot goes
      to the longest waiting turn, or else one slot fewer is in use; the binding's slots are those
      that were in use before. */
  lemma FailedTurnsReturnEverything(first: State, steps: seq<Step>, s: State, t: TurnId)
    requires Init(first) && s == Run(first, steps) && Enabled(s, Expire(t)) && s.turns[t].phase.WaitBinding?
    ensures Enabled(ExpireStep(s, t), Refund(t)) && t !in RefundStep(ExpireStep(s, t), t).turns
    ensures var r := RefundStep(ExpireStep(s, t), t);
      r.bindings[s.turns[t].binding].sem.active == s.bindings[s.turns[t].binding].sem.active &&
      if s.global.sem.waiters == [] then r.global.sem.active == s.global.sem.active - 1
      else r.global.sem.active == s.global.sem.active && r.global.sem.waiters == s.global.sem.waiters[1..]
  {
    InitInv(first);
    RunKeepsInv(first, steps);
    var h := s.turns[t].phase.global;
    assert Open(s.global.sem, h);
    assert h in Unreleased(s.global.sem);
    assert s.global.sem.active > 0;
    var e := ExpireStep(s, t);
    RefundGlobal(e.global, e.turns, t) by {
      GlobalFrame(s.global, s.turns, e.turns);
    }
  }

  // ---------------------------------------------------------------- the mutable runtime

  /** The slot handling of one binding's runtime. */
  class BindingRuntime {
    const globalSemaphore: Semaphore
    const semaphore: Semaphore

    ghost predicate Valid()
      reads globalSemaphore, semaphore
    {
      globalSemaphore != semaphore && globalSemaphore.Valid() && semaphore.Valid()
    }

    constructor (globalSemaphore: Semaphore, capacity: nat)
      requires capacity >= 1 && globalSemaphore.Valid()
      ensures Valid() && this.globalSemaphore == globalSemaphore && fresh(semaphore) &&
        semaphore.Snapshot() == Fresh(capacity)
    {
      this.globalSemaphore := globalSemaphore;
      semaphore := new Semaphore(capacity);
    }

    /** Asks the binding once the Host-wide slot is held; a rejection gives that slot back. */
    method EnterBinding(releaseGlobal: Handle, aborted: bool) returns (r: Acquired)
      requires Valid() && releaseGlobal in globalSemaphore.released
      modifies globalSemaphore, semaphore
      ensures Valid() && r == AcquireResult(old(semaphore.Snapshot()), aborted)
      ensures semaphore.Snapshot() == AcquireStep(old(semaphore.Snapshot()), aborted)
      ensures r.Rejected? ==> globalSemaphore.Snapshot() == ReleaseStep(old(globalSemaphore.Snapshot()), releaseGlobal)
      ensures !r.Rejected? ==> globalSemaphore.Snapshot() == old(globalSemaphore.Snapshot())
    {
      r := semaphore.Acquire(aborted);
      if r.Rejected? {
        var _ := globalSemaphore.Release(releaseGlobal);
      }
    }

    /** The turn expired while it waited for the binding: its waiter goes, then the Host-wide slot. */
    method Expire(ticket: Ticket, releaseGlobal: Handle) returns (granted: Option<(Ticket, Handle)>)
      requires Valid() && releaseGlobal in globalSemaphore.released
      modifies globalSemaphore, semaphore
      ensures Valid() && semaphore.Snapshot() == AbortStep(old(semaphore.Snapshot()), ticket)
      ensures globalSemaphore.Snapshot() == ReleaseStep(old(globalSemaphore.Snapshot()), releaseGlobal)
      ensures granted.Some? <==> ReleaseGrants(old(globalSemaphore.Snapshot()), releaseGlobal).Some?
    {
      semaphore.AbortWaiter(ticket);
      granted := globalSemaphore.Release(releaseGlobal);
    }

    /** The release function of a running turn.  Calling it again changes nothing. */
    method ReleaseSlots(releaseBinding: Handle, releaseGlobal: Handle)
      returns (ownNext: Option<(Ticket, Handle)>, globalNext: Option<(Ticket, Handle)>)
      requires Valid() && releaseBinding in semaphore.released && releaseGlobal in globalSemaphore.released
      modifies globalSemaphore, semaphore
      ensures Valid() && semaphore.Snapshot() == ReleaseStep(old(semaphore.Snapshot()), releaseBinding)
      ensures globalSemaphore.Snapshot() == ReleaseStep(old(globalSemaphore.Snapshot()), releaseGlobal)
      ensures semaphore.released[releaseBinding] && globalSemaphore.released[releaseGlobal]
      ensures old(semaphore.released[releaseBinding]) ==>
        semaphore.Snapshot() == old(semaphore.Snapshot()) && ownNext == None
      ensures old(globalSemaphore.released[releaseGlobal]) ==>
        globalSemaphore.Snapshot() == old(globalSemaphore.Snapshot()) && globalNext == None
    {
      ownNext := semaphore.Release(releaseBinding);
      globalNext := globalSemaphore.Release(releaseGlobal);
    }
  }
}
