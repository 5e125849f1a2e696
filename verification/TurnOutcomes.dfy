/** What each step of admission comes to, said of the turns: who goes on, who waits, who is let in. */
module TurnOutcomes {
  import opened Wrappers
  import opened Semaphore
  import opened TurnAdmission

  // ---------------------------------------------------------------- nobody is stuck

  predicate BindingsKnown(s: State) {
    forall t :: t in s.turns ==> s.turns[t].binding in s.bindings
  }

  lemma StepKeepsBindings(s: State, step: TurnAdmission.Step)
    requires BindingsKnown(s) && Enabled(s, step)
    ensures BindingsKnown(Apply(s, step)) && Apply(s, step).bindings.Keys == s.bindings.Keys
  {
  }

  lemma {:induction false} RunKeepsBindings(s: State, steps: seq<TurnAdmission.Step>)
    requires BindingsKnown(s)
    ensures BindingsKnown(TurnAdmission.Run(s, steps))
    decreases |steps|
  {
    if steps != [] {
      if Enabled(s, steps[0]) {
        StepKeepsBindings(s, steps[0]);
      }
      RunKeepsBindings(if Enabled(s, steps[0]) then Apply(s, steps[0]) else s, steps[1..]);
    }
  }

  /** In every reachable state each turn can take exactly the step of its phase: a granted one asks its
      binding, a parked one can expire, a running one finishes, and a failed one gives its slot back. */
  lemma EveryTurnCanGoOn(first: State, steps: seq<TurnAdmission.Step>, s: State, t: TurnId)
    requires Init(first) && s == TurnAdmission.Run(first, steps) && t in s.turns
    ensures Enabled(s, Continue(t)) <==> s.turns[t].phase.GotGlobal?
    ensures Enabled(s, Expire(t)) <==> s.turns[t].phase.WaitGlobal? || s.turns[t].phase.WaitBinding?
    ensures Enabled(s, Refund(t)) <==> s.turns[t].phase.Refunding?
    ensures Enabled(s, Finish(t)) <==> s.turns[t].phase.Running?
  {
    InitInv(first);
    TurnAdmission.RunKeepsInv(first, steps);
    RunKeepsBindings(first, steps);
    CanGoOnAt(s, t);
  }

  lemma CanGoOnAt(s: State, t: TurnId)
    requires GlobalInv(s.global, s.turns) && t in s.turns && s.turns[t].binding in s.bindings
    requires BindingInv(s.bindings[s.turns[t].binding], s.turns, s.turns[t].binding)
    ensures Enabled(s, Continue(t)) <==> s.turns[t].phase.GotGlobal?
    ensures Enabled(s, Expire(t)) <==> s.turns[t].phase.WaitGlobal? || s.turns[t].phase.WaitBinding?
    ensures Enabled(s, Refund(t)) <==> s.turns[t].phase.Refunding?
    ensures Enabled(s, Finish(t)) <==> s.turns[t].phase.Running?
  {
    if !s.turns[t].phase.WaitGlobal? {
      assert Open(s.global.sem, s.turns[t].phase.global);
    }
    if s.turns[t].phase.Running? {
      assert Open(s.bindings[s.turns[t].binding].sem, s.turns[t].phase.own);
    }
  }

  // ---------------------------------------------------------------- each step

  /** A new turn has a Host-wide slot at once exactly when fewer turns than slots hold one; otherwise it
      waits behind everybody else. */
  lemma BeginOutcome(first: State, steps: seq<TurnAdmission.Step>, s: State, t: TurnId, b: BindingId)
    requires Init(first) && s == TurnAdmission.Run(first, steps) && Enabled(s, Begin(t, b))
    ensures var r := Apply(s, Begin(t, b));
      t in r.turns && r.turns == s.turns[t := Turn(b, r.turns[t].phase)] && r.bindings == s.bindings &&
      if |GlobalHolders(s.turns)| < s.global.sem.capacity then r.turns[t].phase.GotGlobal?
      else r.turns[t].phase.WaitGlobal? && r.global.sem.waiters == s.global.sem.waiters + [r.turns[t].phase.ticket]
  {
    InitInv(first);
    TurnAdmission.RunKeepsInv(first, steps);
    GlobalCount(s.global, s.turns);
  }

  /** A turn with a Host-wide slot runs exactly when fewer turns than its binding allows run there;
      otherwise it waits there last, and keeps its slot. */
  lemma ContinueOutcome(first: State, steps: seq<TurnAdmission.Step>, s: State, t: TurnId)
    requires Init(first) && s == TurnAdmission.Run(first, steps) && Enabled(s, Continue(t))
    ensures var r, b := Apply(s, Continue(t)), s.turns[t].binding;
      t in r.turns && r.turns == s.turns[t := Turn(b, r.turns[t].phase)] && r.global == s.global && b in r.bindings &&
      (r.turns[t].phase.Running? <==> |RunningIn(s.turns, b)| < s.bindings[b].sem.capacity) &&
      (r.turns[t].phase.Running? ==> r.turns[t].phase.global == s.turns[t].phase.global) &&
      (!r.turns[t].phase.Running? ==>
        r.turns[t].phase.WaitBinding? && r.turns[t].phase.global == s.turns[t].phase.global &&
        r.bindings[b].sem.waiters == s.bindings[b].sem.waiters + [r.turns[t].phase.ticket])
  {
    InitInv(first);
    TurnAdmission.RunKeepsInv(first, steps);
    BindingCount(s.bindings[s.turns[t].binding], s.turns, s.turns[t].binding);
  }

  /** A turn that expires before it has a Host-wide slot is gone; one that has it must give it back. */
  lemma ExpireOutcome(s: State, t: TurnId)
    requires Enabled(s, Expire(t))
    ensures var r := Apply(s, Expire(t));
      r.turns ==
        if s.turns[t].phase.WaitGlobal? then s.turns - {t}
        else s.turns[t := Turn(s.turns[t].binding, Refunding(s.turns[t].phase.global))]
  {
  }

  /** Whoever waits longest for the Host, or for the binding. */
  function First(st: Station): Option<TurnId> {
    if st.sem.waiters != [] && st.sem.waiters[0] in st.callers then Some(st.callers[st.sem.waiters[0]]) else None
  }

  /** A turn that gives its Host-wide slot back is gone, and the longest waiting turn has it. */
  lemma RefundOutcome(first: State, steps: seq<TurnAdmission.Step>, s: State, t: TurnId)
    requires Init(first) && s == TurnAdmission.Run(first, steps) && Enabled(s, Refund(t))
    ensures First(s.global).Some? <==> s.global.sem.waiters != []
    ensures var r, u := Apply(s, Refund(t)), First(s.global);
      r.bindings == s.bindings &&
      (u == None ==> r.turns == s.turns - {t}) &&
      (u.Some? ==>
        u.value in s.turns && u.value != t && s.turns[u.value].phase == WaitGlobal(s.global.sem.waiters[0]) &&
        r.turns == (s.turns - {t})[u.value := Turn(s.turns[u.value].binding, GotGlobal(s.global.sem.nextHandle))])
  {
    InitInv(first);
    TurnAdmission.RunKeepsInv(first, steps);
    RefundAt(s, t);
  }

  lemma RefundAt(s: State, t: TurnId)
    requires GlobalInv(s.global, s.turns) && Enabled(s, Refund(t))
    ensures First(s.global).Some? <==> s.global.sem.waiters != []
    ensures var r, u := RefundStep(s, t), First(s.global);
      r.bindings == s.bindings &&
      (u == None ==> r.turns == s.turns - {t}) &&
      (u.Some? ==>
        u.value in s.turns && u.value != t && s.turns[u.value].phase == WaitGlobal(s.global.sem.waiters[0]) &&
        r.turns == (s.turns - {t})[u.value := Turn(s.turns[u.value].binding, GotGlobal(s.global.sem.nextHandle))])
  {
    var g := s.turns[t].phase.global;
    assert Open(s.global.sem, g);
    GiveBackFacts(s.global.sem, g);
    if s.global.sem.waiters != [] {
      var k: Ticket := s.global.sem.waiters[0];
      assert k in s.global.sem.waiters;
    }
  }

  lemma LeaveAt(s: State, t: TurnId)
    requires Enabled(s, Finish(t)) && BindingInv(s.bindings[s.turns[t].binding], s.turns, s.turns[t].binding)
    ensures var r, st := LeaveStep(s, t), s.bindings[s.turns[t].binding];
      var u, turns := First(st), s.turns[t := Turn(s.turns[t].binding, Refunding(s.turns[t].phase.global))];
      r.global == s.global && (u.Some? <==> st.sem.waiters != []) &&
      (u == None ==> r.turns == turns) &&
      (u.Some? ==>
        u.value in s.turns && u.value != t && s.turns[u.value].phase.WaitBinding? &&
        s.turns[u.value].binding == s.turns[t].binding &&
        r.turns == turns[u.value := Turn(s.turns[u.value].binding,
                                         Running(s.turns[u.value].phase.global, st.sem.nextHandle))])
  {
    var st, own := s.bindings[s.turns[t].binding], s.turns[t].phase.own;
    assert Open(st.sem, own);
    GiveBackFacts(st.sem, own);
    if st.sem.waiters != [] {
      var k: Ticket := st.sem.waiters[0];
      assert k in st.sem.waiters;
    }
  }

  /** A turn that finishes is gone; the longest waiting turn of its binding runs, the longest waiting
      turn of the Host goes on to its binding, and every other turn stays as it is. */
  lemma FinishOutcome(first: State, steps: seq<TurnAdmission.Step>, s: State, t: TurnId, v: TurnId)
    requires Init(first) && s == TurnAdmission.Run(first, steps) && Enabled(s, Finish(t))
    ensures var r := Apply(s, Finish(t));
      var here, host := First(s.bindings[s.turns[t].binding]), First(s.global);
      (v in r.turns <==> v in s.turns && v != t) &&
      (v in r.turns ==>
        r.turns[v].binding == s.turns[v].binding &&
        if here == Some(v) then r.turns[v].phase.Running? && s.turns[v].phase.WaitBinding?
        else if host == Some(v) then r.turns[v].phase.GotGlobal? && s.turns[v].phase.WaitGlobal?
        else r.turns[v] == s.turns[v])
  {
    InitInv(first);
    TurnAdmission.RunKeepsInv(first, steps);
    FinishAt(s, t, v);
  }

  lemma FinishAt(s: State, t: TurnId, v: TurnId)
    requires GlobalInv(s.global, s.turns) && Enabled(s, Finish(t))
    requires BindingInv(s.bindings[s.turns[t].binding], s.turns, s.turns[t].binding)
    ensures var r := FinishStep(s, t);
      var here, host := First(s.bindings[s.turns[t].binding]), First(s.global);
      (v in r.turns <==> v in s.turns && v != t) &&
      (v in r.turns ==>
        r.turns[v].binding == s.turns[v].binding &&
        if here == Some(v) then r.turns[v].phase.Running? && s.turns[v].phase.WaitBinding?
        else if host == Some(v) then r.turns[v].phase.GotGlobal? && s.turns[v].phase.WaitGlobal?
        else r.turns[v] == s.turns[v])
  {
    var e := LeaveStep(s, t);
    LeaveAt(s, t);
    LeaveHolding(s, t);
    RefundAt(e, t);
    MapsAgree(s.turns, e.turns, RefundStep(e, t).turns, t, v, First(s.bindings[s.turns[t].binding]), First(s.global),
              s.bindings[s.turns[t].binding].sem.nextHandle, s.global.sem.nextHandle);
  }

  lemma MapsAgree(before: map<TurnId, Turn>, left: map<TurnId, Turn>, after: map<TurnId, Turn>, t: TurnId, v: TurnId,
                  here: Option<TurnId>, host: Option<TurnId>, own: Handle, global: Handle)
    requires t in before && before[t].phase.Running?
    requires var turns := before[t := Turn(before[t].binding, Refunding(before[t].phase.global))];
      (here == None ==> left == turns) &&
      (here.Some? ==>
        here.value in before && here.value != t && before[here.value].phase.WaitBinding? &&
        left == turns[here.value := Turn(before[here.value].binding, Running(before[here.value].phase.global, own))])
    requires host == None ==> after == left - {t}
    requires host.Some? ==>
      host.value in left && host.value != t && left[host.value].phase.WaitGlobal? &&
      after == (left - {t})[host.value := Turn(left[host.value].binding, GotGlobal(global))]
    ensures v in after <==> v in before && v != t
    ensures v in after ==>
      after[v].binding == before[v].binding &&
      if here == Some(v) then after[v].phase.Running? && before[v].phase.WaitBinding?
      else if host == Some(v) then after[v].phase.GotGlobal? && before[v].phase.WaitGlobal?
      else after[v] == before[v]
  {
  }
}
