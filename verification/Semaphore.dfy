/** The counting semaphore with one-shot release functions and abortable waiters. */
module Semaphore {
  import opened Wrappers

  /** A waiter's place in the order of arrival. */
  datatype Ticket = Ticket(number: int)
  /** A release function that was handed out. */
  datatype Handle = Handle(serial: int)

  /** `released` has the flag inside each release function; `served` is the log of the waiters
      that were granted, for stating the order. */
  datatype Sem = Sem(
    capacity: nat,
    active: nat,
    waiters: seq<Ticket>,
    released: map<Handle, bool>,
    nextHandle: Handle,
    nextTicket: Ticket,
    served: seq<Ticket>)

  datatype Acquired = Rejected | Granted(handle: Handle) | Queued(ticket: Ticket)

  function Fresh(capacity: nat): Sem {
    Sem(capacity, 0, [], map[], Handle(0), Ticket(0), [])
  }

  function Unreleased(s: Sem): set<Handle> {
    set h | h in s.released && !s.released[h]
  }

  function AcquireResult(s: Sem, aborted: bool): Acquired {
    if aborted then Rejected
    else if s.active < s.capacity then Granted(s.nextHandle)
    else Queued(s.nextTicket)
  }

  function HandOut(s: Sem): Sem {
    s.(released := s.released[s.nextHandle := false], nextHandle := Handle(s.nextHandle.serial + 1))
  }

  function AcquireStep(s: Sem, aborted: bool): Sem {
    match AcquireResult(s, aborted)
    case Rejected => s
    case Granted(_) => HandOut(s.(active := s.active + 1))
    case Queued(t) => s.(waiters := s.waiters + [t], nextTicket := Ticket(t.number + 1))
  }

  function Without(waiters: seq<Ticket>, t: Ticket): (r: seq<Ticket>)
    ensures |r| <= |waiters|
    ensures forall x :: x in r ==> x in waiters
  {
    if waiters == [] then []
    else if waiters[0] == t then waiters[1..]
    else [waiters[0]] + Without(waiters[1..], t)
  }

  /** Where the waiter is found, it is spliced out. */
  lemma {:induction false} WithoutSplices(waiters: seq<Ticket>, t: Ticket, i: nat)
    requires i <= |waiters| && forall j :: 0 <= j < i ==> waiters[j] != t
    requires i < |waiters| ==> waiters[i] == t
    ensures Without(waiters, t) == if i < |waiters| then waiters[..i] + waiters[i + 1..] else waiters
  {
    if i > 0 {
      WithoutSplices(waiters[1..], t, i - 1);
    }
  }

  function AbortStep(s: Sem, t: Ticket): Sem {
    s.(waiters := Without(s.waiters, t))
  }

  /** The waiter, if any, that this release grants. */
  function ReleaseGrants(s: Sem, h: Handle): Option<Ticket>
    requires h in s.released
  {
    if !s.released[h] && s.waiters != [] then Some(s.waiters[0]) else None
  }

  function ReleaseStep(s: Sem, h: Handle): Sem
    requires h in s.released
  {
    if s.released[h] then s
    else
      var r := s.(released := s.released[h := true]);
      if s.waiters != [] then HandOut(r.(waiters := s.waiters[1..], served := s.served + [s.waiters[0]]))
      else r.(active := if s.active == 0 then 0 else s.active - 1)
  }

  ghost predicate Increasing(s: seq<Ticket>) {
    forall i, j :: 0 <= i < j < |s| ==> s[i].number < s[j].number
  }

  /** Slots in use are exactly the unreleased handles, somebody waits only when all slots are in
      use, and arrival order is kept: served before waiting before still to come. */
  ghost predicate SemInv(s: Sem) {
    s.active == |Unreleased(s)| <= s.capacity &&
    (s.waiters != [] ==> s.active == s.capacity) &&
    (forall h :: h in s.released ==> h.serial < s.nextHandle.serial) &&
    Increasing(s.served + s.waiters + [s.nextTicket])
  }

  lemma AcquireKeepsInv(s: Sem, aborted: bool)
    requires SemInv(s)
    ensures SemInv(AcquireStep(s, aborted))
  {
    var r := AcquireStep(s, aborted);
    if AcquireResult(s, aborted).Granted? {
      assert Unreleased(r) == Unreleased(s) + {s.nextHandle};
    } else {
      assert Unreleased(r) == Unreleased(s);
    }
    if AcquireResult(s, aborted).Queued? {
      var all := s.served + s.waiters + [s.nextTicket];
      assert r.served + r.waiters + [r.nextTicket] == all + [r.nextTicket];
      assert forall i :: 0 <= i < |all| ==> all[i].number <= all[|all| - 1].number;
    }
  }

  lemma {:induction false} WithoutKeepsOrder(before: seq<Ticket>, waiters: seq<Ticket>, t: Ticket, next: Ticket)
    requires Increasing(before + waiters + [next])
    ensures Increasing(before + Without(waiters, t) + [next])
    decreases |waiters|
  {
    var all := before + waiters + [next];
    if waiters != [] {
      if waiters[0] == t {
        var r := before + waiters[1..] + [next];
        assert forall i :: 0 <= i < |r| ==> r[i] == all[if i < |before| then i else i + 1];
      } else {
        assert before + [waiters[0]] + waiters[1..] + [next] == all;
        WithoutKeepsOrder(before + [waiters[0]], waiters[1..], t, next);
        assert before + Without(waiters, t) + [next] == before + [waiters[0]] + Without(waiters[1..], t) + [next];
      }
    }
  }

  lemma AbortKeepsInv(s: Sem, t: Ticket)
    requires SemInv(s)
    ensures SemInv(AbortStep(s, t))
  {
    WithoutKeepsOrder(s.served, s.waiters, t, s.nextTicket);
    assert Unreleased(AbortStep(s, t)) == Unreleased(s);
  }

  lemma ReleaseKeepsInv(s: Sem, h: Handle)
    requires SemInv(s) && h in s.released
    ensures SemInv(ReleaseStep(s, h))
  {
    var r := ReleaseStep(s, h);
    if !s.released[h] {
      assert h in Unreleased(s);
      if s.waiters != [] {
        assert Unreleased(r) == Unreleased(s) - {h} + {s.nextHandle};
        assert r.served + r.waiters == s.served + s.waiters;
      } else {
        assert Unreleased(r) == Unreleased(s) - {h};
      }
    }
  }

  /** Calling a release function again changes nothing and grants nobody. */
  lemma ReleaseIsIdempotent(s: Sem, h: Handle)
    requires SemInv(s) && h in s.released
    ensures h in ReleaseStep(s, h).released && ReleaseStep(ReleaseStep(s, h), h) == ReleaseStep(s, h)
    ensures ReleaseGrants(ReleaseStep(s, h), h) == None
  {
  }

  // ---------------------------------------------------------------- runs

  datatype Op = Acquire(aborted: bool) | Abort(ticket: Ticket) | Release(handle: Handle)

  function Step(s: Sem, op: Op): Sem {
    match op
    case Acquire(aborted) => AcquireStep(s, aborted)
    case Abort(t) => AbortStep(s, t)
    case Release(h) => if h in s.released then ReleaseStep(s, h) else s
  }

  function Run(s: Sem, ops: seq<Op>): Sem
    decreases |ops|
  {
    if ops == [] then s else Run(Step(s, ops[0]), ops[1..])
  }

  lemma {:induction false} RunKeepsInv(s: Sem, ops: seq<Op>)
    requires SemInv(s)
    ensures SemInv(Run(s, ops))
    decreases |ops|
  {
    if ops != [] {
      match ops[0] {
        case Acquire(aborted) => AcquireKeepsInv(s, aborted);
        case Abort(t) => AbortKeepsInv(s, t);
        case Release(h) =>
          if h in s.released {
            ReleaseKeepsInv(s, h);
          }
      }
      RunKeepsInv(Step(s, ops[0]), ops[1..]);
    }
  }

  /** Whatever is acquired, aborted and released: handles are conserved within the capacity, a
      waiter exists only at full capacity, and waiters are served in order of arrival. */
  lemma SemaphoreIsFair(capacity: nat, ops: seq<Op>)
    ensures var s := Run(Fresh(capacity), ops);
      s.active == |Unreleased(s)| && s.active <= s.capacity && (s.waiters != [] ==> s.active == s.capacity) &&
      Increasing(s.served + s.waiters)
  {
    RunKeepsInv(Fresh(capacity), ops);
    var s := Run(Fresh(capacity), ops);
    var all, queue := s.served + s.waiters + [s.nextTicket], s.served + s.waiters;
    assert forall i :: 0 <= i < |queue| ==> queue[i] == all[i];
  }

  /** Asking: an aborted caller is turned away; with a slot to spare the caller has a fresh release
      function at once; otherwise it is queued last. */
  lemma AcquireGives(capacity: nat, ops: seq<Op>, aborted: bool)
    ensures var s := Run(Fresh(capacity), ops);
      var r, answer := AcquireStep(s, aborted), AcquireResult(s, aborted);
      if aborted then answer == Rejected && r == s
      else if |Unreleased(s)| < capacity then
        answer.Granted? && answer.handle !in s.released && Unreleased(r) == Unreleased(s) + {answer.handle} &&
        r.waiters == s.waiters
      else
        answer.Queued? && answer.ticket !in s.waiters && r.waiters == s.waiters + [answer.ticket] &&
        Unreleased(r) == Unreleased(s)
  {
    RunKeepsInv(Fresh(capacity), ops);
    CapacityStays(Fresh(capacity), ops);
    var s := Run(Fresh(capacity), ops);
    AcquireKeepsInv(s, aborted);
    if !aborted && s.active >= s.capacity {
      TicketIsNew(s);
    }
  }

  lemma TicketIsNew(s: Sem)
    requires Increasing(s.served + s.waiters + [s.nextTicket])
    ensures s.nextTicket !in s.waiters
  {
    var all := s.served + s.waiters + [s.nextTicket];
    forall i | 0 <= i < |s.waiters|
      ensures s.waiters[i] != s.nextTicket
    {
      assert all[|s.served| + i] == s.waiters[i] && all[|all| - 1] == s.nextTicket;
    }
  }

  lemma {:induction false} CapacityStays(s: Sem, ops: seq<Op>)
    ensures Run(s, ops).capacity == s.capacity
    decreases |ops|
  {
    if ops != [] {
      CapacityStays(Step(s, ops[0]), ops[1..]);
    }
  }

  /** Giving back: the longest waiting caller has a fresh release function, or a slot is free; what was
      given back before changes nothing. */
  lemma ReleaseGives(capacity: nat, ops: seq<Op>, h: Handle)
    requires h in Run(Fresh(capacity), ops).released
    ensures var s := Run(Fresh(capacity), ops);
      var r, next := ReleaseStep(s, h), s.nextHandle;
      if h !in Unreleased(s) then r == s && ReleaseGrants(s, h) == None
      else if s.waiters == [] then
        ReleaseGrants(s, h) == None && Unreleased(r) == Unreleased(s) - {h} && r.waiters == []
      else
        ReleaseGrants(s, h) == Some(s.waiters[0]) && r.waiters == s.waiters[1..] && next !in s.released &&
        Unreleased(r) == Unreleased(s) - {h} + {next}
  {
    RunKeepsInv(Fresh(capacity), ops);
    var s := Run(Fresh(capacity), ops);
    ReleaseKeepsInv(s, h);
  }

  lemma {:induction false} WithoutIsOthers(waiters: seq<Ticket>, t: Ticket)
    requires forall i, j :: 0 <= i < j < |waiters| ==> waiters[i] != waiters[j]
    ensures forall k :: k in Without(waiters, t) <==> k in waiters && k != t
  {
    if waiters != [] {
      WithoutIsOthers(waiters[1..], t);
      assert waiters == [waiters[0]] + waiters[1..];
    }
  }

  /** Giving up: exactly that waiter leaves the queue. */
  lemma AbortGives(capacity: nat, ops: seq<Op>, t: Ticket)
    ensures var s := Run(Fresh(capacity), ops);
      var r := AbortStep(s, t);
      (forall k :: k in r.waiters <==> k in s.waiters && k != t) && Unreleased(r) == Unreleased(s) &&
      r.active == s.active
  {
    RunKeepsInv(Fresh(capacity), ops);
    var s := Run(Fresh(capacity), ops);
    var all := s.served + s.waiters + [s.nextTicket];
    assert forall i :: 0 <= i < |s.waiters| ==> s.waiters[i] == all[|s.served| + i];
    WithoutIsOthers(s.waiters, t);
  }

  // ---------------------------------------------------------------- the mutable semaphore

  class Semaphore {
    const capacity: nat
    var active: nat
    var waiters: seq<Ticket>
    var released: map<Handle, bool>
    var nextHandle: Handle
    var nextTicket: Ticket
    ghost var served: seq<Ticket>

    ghost function Snapshot(): Sem
      reads this
    {
      Sem(capacity, active, waiters, released, nextHandle, nextTicket, served)
    }

    ghost predicate Valid()
      reads this
    {
      SemInv(Snapshot())
    }

    constructor (capacity: nat)
      requires capacity >= 1
      ensures Valid() && Snapshot() == Fresh(capacity)
    {
      this.capacity := capacity;
      active, waiters, released, nextHandle, nextTicket, served := 0, [], map[], Handle(0), Ticket(0), [];
    }

    method ReleaseFactory() returns (h: Handle)
      modifies this
      ensures Snapshot() == HandOut(old(Snapshot())) && h == old(nextHandle)
    {
      h := nextHandle;
      released := released[h := false];
      nextHandle := Handle(h.serial + 1);
    }

    method Acquire(aborted: bool) returns (r: Acquired)
      requires Valid()
      modifies this
      ensures Valid()
      ensures Snapshot() == AcquireStep(old(Snapshot()), aborted) && r == AcquireResult(old(Snapshot()), aborted)
    {
      AcquireKeepsInv(Snapshot(), aborted);
      if aborted {
        return Rejected;
      }
      if active < capacity {
        active := active + 1;
        var h := ReleaseFactory();
        return Granted(h);
      }
      r := Queued(nextTicket);
      waiters := waiters + [nextTicket];
      nextTicket := Ticket(nextTicket.number + 1);
    }

    /** The abort listener of one waiter: finds it and splices it out. */
    method AbortWaiter(t: Ticket)
      requires Valid()
      modifies this
      ensures Valid() && Snapshot() == AbortStep(old(Snapshot()), t)
    {
      AbortKeepsInv(Snapshot(), t);
      var i := 0;
      while i < |waiters| && waiters[i] != t
        invariant 0 <= i <= |waiters|
        invariant Snapshot() == old(Snapshot())
        invariant forall j :: 0 <= j < i ==> waiters[j] != t
      {
        i := i + 1;
      }
      WithoutSplices(waiters, t, i);
      if i < |waiters| {
        waiters := waiters[..i] + waiters[i + 1..];
      }
    }

    /** One call of a release function. */
    method Release(h: Handle) returns (granted: Option<(Ticket, Handle)>)
      requires Valid() && h in released
      modifies this
      ensures Valid() && Snapshot() == ReleaseStep(old(Snapshot()), h)
      ensures granted == match ReleaseGrants(old(Snapshot()), h)
                         case None => None
                         case Some(t) => Some((t, old(nextHandle)))
    {
      ReleaseKeepsInv(Snapshot(), h);
      if released[h] {
        return None;
      }
      released := released[h := true];
      if waiters != [] {
        var t := waiters[0];
        waiters := waiters[1..];
        served := served + [t];
        var next := ReleaseFactory();
        return Some((t, next));
      }
      active := if active == 0 then 0 else active - 1;
      granted := None;
    }
  }
}
