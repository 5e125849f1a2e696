/** What every reachable state of the residency protocol satisfies, step by step. */
module ResidencyInvariants {
  import opened Wrappers
  import opened SetFacts
  import opened ResidencyModel

  /** The parts of one entry agree with each other. */
  predicate EntryOk(e: Entry) {
    (e.lease.Some? <==> HoldsLease(e.phase)) &&
    (e.aborted <==> e.disposal.Running? || e.disposal.Done?) &&
    (e.phase.Disposed? ==> e.disposal.Done?) &&
    (e.disposal.Done? ==> e.phase.Disposed? || e.phase.Failed?) &&
    (e.phase.Discarding? ==> e.aborted) &&
    (e.phase.Waiting? ==> !e.aborted)
  }

  ghost predicate EntriesInv(s: State) {
    forall e :: e in s.entries ==> EntryOk(s.entries[e]) && e < s.nextEntryId
  }

  ghost predicate WaiterInv(s: State) {
    (forall e :: e in s.entries ==> (s.entries[e].phase.Waiting? <==> e in s.waiters)) &&
    s.waiters <= s.entries.Keys
  }

  ghost predicate TaskInv(s: State) {
    forall t :: t in s.tasks ==>
      s.tasks[t].entry in s.entries &&
      (s.tasks[t].Active? || s.tasks[t].Removing? ==>
        s.entries[s.tasks[t].entry].phase.Ready? || s.entries[s.tasks[t].entry].phase.Disposed?)
  }

  /** Leases and lease-holding entries correspond one to one, within the capacity. */
  ghost predicate LeaseInv(s: State) {
    |s.residents| <= s.capacity &&
    (forall l :: l in s.residents ==>
      l < s.nextLeaseId && s.residents[l].owner in s.entries && s.entries[s.residents[l].owner].lease == Some(l)) &&
    (forall e :: e in s.entries && s.entries[e].lease.Some? ==>
      s.entries[e].lease.value in s.residents && s.residents[s.entries[e].lease.value].owner == e)
  }

  /** The mapped ids are entries of that registry and key. */
  ghost predicate WellMapped(s: State) {
    forall r, k :: Mapped(s, r, k) ==>
      s.sessions[r][k] in s.entries &&
      s.entries[s.sessions[r][k]].registry == r && s.entries[s.sessions[r][k]].key == k
  }

  ghost predicate MapInv(s: State) {
    WellMapped(s) &&
    (forall r :: r in s.sessions ==> r in s.limits && |s.sessions[r]| <= s.limits[r])
  }

  /** An entry is in its map exactly as long as nobody took it out and its startup has not failed:
      whatever left the map otherwise is owed a disposal. */
  ghost predicate AttachInv(s: State) {
    forall e :: e in s.entries ==>
      (Attached(s, e) <==> s.entries[e].disposal.NotRequested? && !s.entries[e].phase.Failed?)
  }

  ghost predicate HolderInv(s: State) {
    forall e :: Attached(s, e) ==> s.entries[e].reservations == |Holders(s, e)|
  }

  ghost predicate Inv(s: State) {
    EntriesInv(s) && WaiterInv(s) && TaskInv(s) && LeaseInv(s) && MapInv(s) && AttachInv(s) && HolderInv(s)
  }

  // ---------------------------------------------------------------- framing

  /** Both states map the same ids, so attachment agrees. */
  lemma SameAttached(s: State, t: State)
    requires s.sessions == t.sessions && s.entries.Keys == t.entries.Keys
    requires forall e :: e in s.entries ==>
      s.entries[e].registry == t.entries[e].registry && s.entries[e].key == t.entries[e].key
    ensures forall e :: Attached(s, e) <==> Attached(t, e)
  {
  }

  lemma SameHolders(s: State, t: State)
    requires s.tasks == t.tasks
    ensures forall e :: Holders(s, e) == Holders(t, e)
  {
  }

  /** An entry may change its phase, status and eviction state as long as it keeps its place. */
  predicate Harmless(a: Entry, b: Entry) {
    a.registry == b.registry && a.key == b.key && a.reservations == b.reservations && a.lease == b.lease &&
    a.disposal == b.disposal && !a.phase.Waiting? && !b.phase.Waiting? &&
    (a.phase.Failed? <==> b.phase.Failed?) && (a.phase.Ready? ==> b.phase.Ready?) &&
    (a.phase.Disposed? ==> b.phase.Disposed?) && EntryOk(b)
  }

  lemma PutKeepsInv(s: State, e: EntryId, entry: Entry)
    requires Inv(s) && e in s.entries && Harmless(s.entries[e], entry)
    ensures Inv(Put(s, e, entry))
  {
    var t := Put(s, e, entry);
    SameAttached(s, t);
    SameHolders(s, t);
    assert AttachInv(t);
    assert HolderInv(t);
    assert LeaseInv(t);
  }

  lemma NotifyKeepsInv(s: State)
    requires Inv(s)
    ensures Inv(Notify(s))
  {
    var t := Notify(s);
    SameAttached(s, t);
    SameHolders(s, t);
    assert AttachInv(t);
    assert HolderInv(t);
    assert LeaseInv(t);
  }

  // ---------------------------------------------------------------- primitive updates

  lemma ParkKeepsInv(s: State, e: EntryId)
    requires Inv(s) && e in s.entries
    requires !s.entries[e].phase.Waiting? && !Settled(s.entries[e].phase) && s.entries[e].lease.None?
    ensures Inv(Park(s, e))
  {
    if s.entries[e].aborted {
      PutKeepsInv(s, e, s.entries[e].(phase := Failing));
    } else {
      var t := Park(s, e);
      SameAttached(s, t);
      SameHolders(s, t);
      assert AttachInv(t) && HolderInv(t) && LeaseInv(t);
    }
  }

  lemma SetEvictingKeepsInv(s: State, l: LeaseId, evicting: bool)
    requires Inv(s)
    ensures Inv(SetEvicting(s, l, evicting))
  {
    var t := SetEvicting(s, l, evicting);
    SameAttached(s, t);
    SameHolders(s, t);
    SetEvictingKeepsLeases(s, l, evicting);
  }

  lemma SetEvictingKeepsLeases(s: State, l: LeaseId, evicting: bool)
    requires LeaseInv(s)
    ensures LeaseInv(SetEvicting(s, l, evicting))
  {
    var t := SetEvicting(s, l, evicting);
    assert t.residents.Keys == s.residents.Keys;
    assert |t.residents| == |t.residents.Keys| && |s.residents| == |s.residents.Keys|;
  }

  lemma CreateLeaseKeepsInv(s: State, e: EntryId)
    requires Inv(s) && e in s.entries && s.entries[e].phase.Acquiring? && |s.residents| < s.capacity
    ensures Inv(CreateLease(s, e))
  {
    var t := CreateLease(s, e);
    CreateLeaseKeepsLeases(s, e);
    SameAttached(s, t);
    SameHolders(s, t);
    assert AttachInv(t) && HolderInv(t);
  }

  lemma CreateLeaseKeepsLeases(s: State, e: EntryId)
    requires LeaseInv(s) && e in s.entries && s.entries[e].lease.None? && |s.residents| < s.capacity
    ensures LeaseInv(CreateLease(s, e))
  {
    var t, n := CreateLease(s, e), s.nextLeaseId;
    assert n !in s.residents;
    assert t.residents == s.residents[n := Resident(e, false, false)];
    assert |t.residents| == |s.residents| + 1;
    forall l | l in t.residents
      ensures l < t.nextLeaseId && t.residents[l].owner in t.entries && t.entries[t.residents[l].owner].lease == Some(l)
    {
      if l != n {
        assert s.entries[s.residents[l].owner].lease == Some(l);
      }
    }
    forall f | f in t.entries && t.entries[f].lease.Some?
      ensures t.entries[f].lease.value in t.residents && t.residents[t.entries[f].lease.value].owner == f
    {
      if f != e {
        assert s.entries[f].lease.value in s.residents;
      }
    }
  }

  lemma DropLeaseKeepsInv(s: State, e: EntryId, entry: Entry)
    requires Inv(s) && e in s.entries && s.entries[e].lease.Some?
    requires entry.registry == s.entries[e].registry && entry.key == s.entries[e].key
    requires entry.reservations == s.entries[e].reservations && EntryOk(entry.(lease := None))
    requires (entry.disposal == s.entries[e].disposal && entry.phase.Failing? && !s.entries[e].phase.Ready?) ||
             (s.entries[e].disposal.Running? && entry.phase.Disposed?)
    ensures Inv(DropLease(s, e, entry))
  {
    var t := DropLease(s, e, entry);
    SameAttached(s, t);
    SameHolders(s, t);
    DropLeaseKeepsLeases(s, e, entry);
    DropLeaseKeepsTasks(s, e, entry);
    assert AttachInv(t) && HolderInv(t);
  }

  lemma DropLeaseKeepsTasks(s: State, e: EntryId, entry: Entry)
    requires TaskInv(s) && e in s.entries && (s.entries[e].phase.Ready? ==> entry.phase.Disposed?)
    requires s.entries[e].phase.Disposed? ==> entry.phase.Disposed?
    ensures TaskInv(DropLease(s, e, entry))
  {
  }

  lemma DropLeaseKeepsLeases(s: State, e: EntryId, entry: Entry)
    requires LeaseInv(s) && e in s.entries && s.entries[e].lease.Some?
    ensures LeaseInv(DropLease(s, e, entry))
  {
    var t := DropLease(s, e, entry);
    SubsetSize(t.residents.Keys, s.residents.Keys);
    assert |t.residents| == |t.residents.Keys| && |s.residents| == |s.residents.Keys|;
  }

  lemma ReleaseIntoFailingKeepsInv(s: State, e: EntryId)
    requires Inv(s) && e in s.entries && HoldsLease(s.entries[e].phase) && !s.entries[e].phase.Ready?
    ensures Inv(ReleaseInto(s, e, Failing))
  {
    DropLeaseKeepsInv(s, e, s.entries[e].(phase := Failing));
    NotifyKeepsInv(DropLease(s, e, s.entries[e].(phase := Failing)));
  }

  lemma ActivateKeepsInv(s: State, e: EntryId, status: Status)
    requires Inv(s) && e in s.entries && s.entries[e].phase.Starting? && !s.entries[e].aborted
    ensures Inv(Activate(s, e, status))
  {
    var l := s.entries[e].lease.value;
    var m := Put(s, e, s.entries[e].(phase := Activated, status := status));
    PutKeepsInv(s, e, m.entries[e]);
    var t := m.(residents := s.residents[l := s.residents[l].(active := true)]);
    SameAttached(m, t);
    SameHolders(m, t);
    assert t.residents.Keys == s.residents.Keys;
    assert |t.residents| == |t.residents.Keys| && |s.residents| == |s.residents.Keys|;
    assert LeaseInv(t);
  }

  lemma DetachAttached(s: State, r: RegistryId, keys: set<Key>)
    requires MapInv(s) && r in s.sessions
    ensures forall e :: Attached(DetachKeys(s, r, keys), e) <==>
      Attached(s, e) && !(s.entries[e].registry == r && s.entries[e].key in keys)
  {
  }

  lemma DetachKeysKeepsInv(s: State, r: RegistryId, keys: set<Key>)
    requires Inv(s) && r in s.sessions
    ensures Inv(DetachKeys(s, r, keys))
  {
    DetachKeepsEntries(s, r, keys);
    DetachKeepsLeases(s, r, keys);
    DetachKeepsMap(s, r, keys);
    DetachKeepsAttach(s, r, keys);
    DetachKeepsHolders(s, r, keys);
  }

  lemma DetachKeepsEntries(s: State, r: RegistryId, keys: set<Key>)
    requires EntriesInv(s) && WaiterInv(s) && TaskInv(s) && AttachInv(s) && r in s.sessions
    ensures EntriesInv(DetachKeys(s, r, keys)) && WaiterInv(DetachKeys(s, r, keys)) && TaskInv(DetachKeys(s, r, keys))
  {
  }

  lemma DetachKeepsLeases(s: State, r: RegistryId, keys: set<Key>)
    requires LeaseInv(s) && r in s.sessions
    ensures LeaseInv(DetachKeys(s, r, keys))
  {
  }

  lemma DetachKeepsHolders(s: State, r: RegistryId, keys: set<Key>)
    requires MapInv(s) && HolderInv(s) && r in s.sessions
    ensures HolderInv(DetachKeys(s, r, keys))
  {
    DetachAttached(s, r, keys);
    SameHolders(s, DetachKeys(s, r, keys));
  }

  lemma DetachKeepsMap(s: State, r: RegistryId, keys: set<Key>)
    requires MapInv(s) && r in s.sessions
    ensures MapInv(DetachKeys(s, r, keys))
  {
    var t := DetachKeys(s, r, keys);
    SubsetSize(t.sessions[r].Keys, s.sessions[r].Keys);
    assert |t.sessions[r]| == |t.sessions[r].Keys| && |s.sessions[r]| == |s.sessions[r].Keys|;
    forall q, k | Mapped(t, q, k)
      ensures t.sessions[q][k] in t.entries
      ensures t.entries[t.sessions[q][k]].registry == q && t.entries[t.sessions[q][k]].key == k
    {
      assert Mapped(s, q, k);
    }
  }

  lemma DetachKeepsAttach(s: State, r: RegistryId, keys: set<Key>)
    requires MapInv(s) && AttachInv(s) && r in s.sessions
    ensures AttachInv(DetachKeys(s, r, keys))
  {
    DetachAttached(s, r, keys);
  }

  lemma ReserveKeepsInv(s: State, e: EntryId, t: TaskId, task: Task)
    requires Inv(s) && Attached(s, e) && t !in s.tasks && task.entry == e && (task.Awaiting? || task.Aborting?)
    ensures Inv(Reserve(s, e, t, task))
  {
    ReserveKeepsHolders(s, e, t, task);
    ReserveKeepsRest(s, e, t, task);
  }

  lemma ReserveKeepsHolders(s: State, e: EntryId, t: TaskId, task: Task)
    requires HolderInv(s) && Attached(s, e) && t !in s.tasks && task.entry == e && (task.Awaiting? || task.Aborting?)
    ensures HolderInv(Reserve(s, e, t, task))
  {
    var u := Reserve(s, e, t, task);
    SameAttached(s, u);
    assert Holders(u, e) == Holders(s, e) + {t};
    forall f | Attached(u, f) && f != e ensures u.entries[f].reservations == |Holders(u, f)| {
      assert Holders(u, f) == Holders(s, f);
    }
  }

  lemma ReserveKeepsRest(s: State, e: EntryId, t: TaskId, task: Task)
    requires EntriesInv(s) && WaiterInv(s) && TaskInv(s) && LeaseInv(s) && MapInv(s) && AttachInv(s)
    requires e in s.entries && task.entry == e && (task.Awaiting? || task.Aborting?)
    ensures var u := Reserve(s, e, t, task);
      EntriesInv(u) && WaiterInv(u) && TaskInv(u) && LeaseInv(u) && MapInv(u) && AttachInv(u)
  {
    var u := Reserve(s, e, t, task);
    SameAttached(s, u);
    assert AttachInv(u) && LeaseInv(u);
  }

  lemma HoldersWithout(s: State, t: TaskId)
    requires t in s.tasks
    ensures forall f ::
      Holders(s.(tasks := s.tasks - {t}), f) == (if Holds(s.tasks[t], f) then Holders(s, f) - {t} else Holders(s, f))
  {
  }

  /** Ending a task that holds no mapped entry. */
  lemma ForgetTaskKeepsInv(s: State, t: TaskId)
    requires Inv(s) && t in s.tasks && (s.tasks[t].Removing? || !Attached(s, s.tasks[t].entry))
    ensures Inv(s.(tasks := s.tasks - {t}))
  {
    var u := s.(tasks := s.tasks - {t});
    SameAttached(s, u);
    HoldersWithout(s, t);
    assert AttachInv(u) && LeaseInv(u) && HolderInv(u);
  }

  /** The reservation count of an entry goes down together with its holders. */
  lemma UnreserveHolders(s: State, e: EntryId, t: TaskId, tasks: map<TaskId, Task>)
    requires Inv(s) && Attached(s, e) && t in s.tasks && Holds(s.tasks[t], e)
    requires tasks == s.tasks - {t} ||
             (tasks == s.tasks[t := Removing(e)] && (s.entries[e].phase.Ready? || s.entries[e].phase.Disposed?))
    ensures Inv(DecReservation(s, e).(tasks := tasks))
  {
    var u := DecReservation(s, e).(tasks := tasks);
    SameAttached(s, u);
    FewerHolders(s, e, t, tasks);
    assert AttachInv(u) && LeaseInv(u);
    assert TaskInv(u);
  }

  lemma FewerHolders(s: State, e: EntryId, t: TaskId, tasks: map<TaskId, Task>)
    requires HolderInv(s) && Attached(s, e) && t in s.tasks && Holds(s.tasks[t], e)
    requires tasks == s.tasks - {t} || tasks == s.tasks[t := Removing(e)]
    ensures HolderInv(DecReservation(s, e).(tasks := tasks))
  {
    var u := DecReservation(s, e).(tasks := tasks);
    SameAttached(s, u);
    assert t in Holders(s, e);
    assert Holders(u, e) == Holders(s, e) - {t};
    forall f | Attached(u, f) && f != e ensures u.entries[f].reservations == |Holders(u, f)| {
      assert Holders(u, f) == Holders(s, f);
    }
  }

  lemma UnreserveKeepsInv(s: State, t: TaskId)
    requires Inv(s) && t in s.tasks && !s.tasks[t].Removing?
    ensures Inv(Unreserve(s, t))
  {
    if Attached(s, s.tasks[t].entry) {
      UnreserveHolders(s, s.tasks[t].entry, t, s.tasks - {t});
    } else {
      ForgetTaskKeepsInv(s, t);
    }
  }

  lemma EndHoldKeepsInv(s: State, t: TaskId)
    requires Inv(s) && t in s.tasks && !s.tasks[t].Removing?
    ensures Inv(EndHoldStep(s, t))
  {
    UnreserveKeepsInv(s, t);
    NotifyKeepsInv(Unreserve(s, t));
  }

  /** The fresh entry takes the free place its key has, within the limit. */
  lemma InsertKeepsInv(s: State, t: TaskId, r: RegistryId, k: Key, replaced: Option<EntryId>)
    requires Inv(s) && t !in s.tasks && r in s.sessions && !Mapped(s, r, k) && |s.sessions[r]| < s.limits[r]
    ensures Inv(Insert(s, t, r, k, replaced))
  {
    InsertKeepsMap(s, t, r, k, replaced);
    InsertKeepsHolders(s, t, r, k, replaced);
    InsertKeepsAttach(s, t, r, k, replaced);
    InsertKeepsEntries(s, t, r, k, replaced);
  }

  lemma InsertKeepsAttach(s: State, t: TaskId, r: RegistryId, k: Key, replaced: Option<EntryId>)
    requires EntriesInv(s) && MapInv(s) && AttachInv(s) && r in s.sessions && !Mapped(s, r, k)
    ensures AttachInv(Insert(s, t, r, k, replaced))
  {
    InsertAttached(s, t, r, k, replaced);
  }

  lemma InsertKeepsEntries(s: State, t: TaskId, r: RegistryId, k: Key, replaced: Option<EntryId>)
    requires EntriesInv(s) && WaiterInv(s) && TaskInv(s) && LeaseInv(s) && t !in s.tasks && r in s.sessions
    ensures var u := Insert(s, t, r, k, replaced); EntriesInv(u) && WaiterInv(u) && TaskInv(u) && LeaseInv(u)
  {
    assert s.nextEntryId !in s.entries;
  }

  lemma InsertKeepsMap(s: State, t: TaskId, r: RegistryId, k: Key, replaced: Option<EntryId>)
    requires EntriesInv(s) && MapInv(s) && r in s.sessions && !Mapped(s, r, k) && |s.sessions[r]| < s.limits[r]
    ensures MapInv(Insert(s, t, r, k, replaced))
  {
    var u := Insert(s, t, r, k, replaced);
    assert u.sessions[r].Keys == s.sessions[r].Keys + {k};
    assert |u.sessions[r]| == |u.sessions[r].Keys| && |s.sessions[r]| == |s.sessions[r].Keys|;
    forall q, j | Mapped(u, q, j)
      ensures u.sessions[q][j] in u.entries
      ensures u.entries[u.sessions[q][j]].registry == q && u.entries[u.sessions[q][j]].key == j
    {
      assert (q == r && j == k) || Mapped(s, q, j);
    }
  }

  lemma InsertKeepsHolders(s: State, t: TaskId, r: RegistryId, k: Key, replaced: Option<EntryId>)
    requires EntriesInv(s) && MapInv(s) && TaskInv(s) && HolderInv(s)
    requires t !in s.tasks && r in s.sessions && !Mapped(s, r, k)
    ensures HolderInv(Insert(s, t, r, k, replaced))
  {
    var u := Insert(s, t, r, k, replaced);
    var e := s.nextEntryId;
    InsertAttached(s, t, r, k, replaced);
    forall x | x in s.tasks ensures s.tasks[x].entry != e {
      assert s.tasks[x].entry in s.entries;
    }
    assert forall x :: x in Holders(u, e) ==> x == t;
    assert t in Holders(u, e);
    assert Holders(u, e) == {t};
    forall f | Attached(u, f) && f != e ensures u.entries[f].reservations == |Holders(u, f)| {
      assert Holders(u, f) == Holders(s, f);
    }
  }

  lemma InsertAttached(s: State, t: TaskId, r: RegistryId, k: Key, replaced: Option<EntryId>)
    requires EntriesInv(s) && MapInv(s) && r in s.sessions && !Mapped(s, r, k)
    ensures forall f :: Attached(Insert(s, t, r, k, replaced), f) <==> Attached(s, f) || f == s.nextEntryId
  {
  }

  lemma CleanupKeepsInv(s: State, e: EntryId)
    requires Inv(s) && e in s.entries && s.entries[e].phase.Failing?
    ensures Inv(CleanupStep(s, e))
  {
    CleanupKeepsMap(s, e);
    CleanupKeepsHolders(s, e);
    CleanupKeepsAttach(s, e);
    CleanupKeepsEntries(s, e);
  }

  lemma CleanupKeepsHolders(s: State, e: EntryId)
    requires MapInv(s) && HolderInv(s) && e in s.entries
    ensures HolderInv(CleanupStep(s, e))
  {
    CleanupAttached(s, e);
    SameHolders(s, CleanupStep(s, e));
  }

  lemma CleanupKeepsAttach(s: State, e: EntryId)
    requires MapInv(s) && AttachInv(s) && e in s.entries && s.entries[e].phase.Failing?
    ensures AttachInv(CleanupStep(s, e))
  {
    CleanupAttached(s, e);
  }

  lemma CleanupKeepsEntries(s: State, e: EntryId)
    requires EntriesInv(s) && WaiterInv(s) && TaskInv(s) && LeaseInv(s)
    requires e in s.entries && s.entries[e].phase.Failing?
    ensures var t := CleanupStep(s, e); EntriesInv(t) && WaiterInv(t) && TaskInv(t) && LeaseInv(t)
  {
    var t, u := CleanupStep(s, e), WithPhase(s, e, Failed);
    assert t.entries == u.entries && t.residents == s.residents && t.waiters == s.waiters && t.tasks == s.tasks;
    FailedKeepsLeases(s, e);
    FailedKeepsTasks(s, e);
  }

  lemma FailedKeepsLeases(s: State, e: EntryId)
    requires EntriesInv(s) && WaiterInv(s) && LeaseInv(s) && e in s.entries && s.entries[e].phase.Failing?
    ensures var u := WithPhase(s, e, Failed); EntriesInv(u) && WaiterInv(u) && LeaseInv(u)
  {
  }

  lemma FailedKeepsTasks(s: State, e: EntryId)
    requires TaskInv(s) && e in s.entries && s.entries[e].phase.Failing?
    ensures TaskInv(WithPhase(s, e, Failed))
  {
  }

  lemma CleanupKeepsMap(s: State, e: EntryId)
    requires MapInv(s) && e in s.entries
    ensures MapInv(CleanupStep(s, e))
  {
    var t := CleanupStep(s, e);
    if Attached(s, e) {
      var r := s.entries[e].registry;
      SubsetSize(t.sessions[r].Keys, s.sessions[r].Keys);
      assert |t.sessions[r]| == |t.sessions[r].Keys| && |s.sessions[r]| == |s.sessions[r].Keys|;
    }
    forall q, j | Mapped(t, q, j)
      ensures t.sessions[q][j] in t.entries
      ensures t.entries[t.sessions[q][j]].registry == q && t.entries[t.sessions[q][j]].key == j
    {
      assert Mapped(s, q, j);
    }
  }

  lemma CleanupAttached(s: State, e: EntryId)
    requires MapInv(s) && e in s.entries
    ensures forall f :: Attached(CleanupStep(s, e), f) <==> Attached(s, f) && f != e
  {
  }

  lemma StartDisposalKeepsInv(s: State, e: EntryId)
    requires Inv(s) && e in s.entries && s.entries[e].disposal.Owed?
    ensures Inv(StartDisposalStep(s, e))
  {
    var t := StartDisposalStep(s, e);
    SameAttached(s, t);
    SameHolders(s, t);
    assert AttachInv(t) && HolderInv(t) && LeaseInv(t) && TaskInv(t);
  }

  lemma FinishDisposalKeepsInv(s: State, e: EntryId)
    requires Inv(s) && e in s.entries && s.entries[e].disposal.Running?
    requires s.entries[e].phase.Ready? || s.entries[e].phase.Failed?
    ensures Inv(FinishDisposalStep(s, e))
  {
    var done := s.entries[e].(disposal := Done);
    if done.phase.Ready? {
      DropLeaseKeepsInv(s, e, done.(phase := Disposed));
      NotifyKeepsInv(DropLease(s, e, done.(phase := Disposed)));
    } else {
      var t := Put(s, e, done);
      SameAttached(s, t);
      SameHolders(s, t);
      assert AttachInv(t) && HolderInv(t) && LeaseInv(t) && TaskInv(t);
    }
  }

  // ---------------------------------------------------------------- composite steps

  lemma AcquireCreateKeepsInv(s: State, t: TaskId, r: RegistryId, k: Key, victim: Option<EntryId>)
    requires Inv(s) && Enabled(s, AcquireCreate(t, r, k, victim))
    ensures Inv(AcquireCreateStep(s, t, r, k, victim))
  {
    if victim.Some? {
      var v := s.entries[victim.value];
      var u := Detach(s, victim.value);
      DetachKeysKeepsInv(s, v.registry, {v.key});
      assert s.sessions[r].Keys == u.sessions[r].Keys + {v.key};
      assert |u.sessions[r]| == |u.sessions[r].Keys| && |s.sessions[r]| == |s.sessions[r].Keys|;
      InsertKeepsInv(u, t, r, k, victim);
    } else {
      InsertKeepsInv(s, t, r, k, victim);
    }
  }

  lemma TryAcquireKeepsInv(s: State, e: EntryId, candidate: Option<LeaseId>)
    requires Inv(s) && Enabled(s, TryAcquire(e, candidate))
    ensures Inv(TryAcquireStep(s, e, candidate))
  {
    if s.entries[e].aborted {
      PutKeepsInv(s, e, s.entries[e].(phase := Failing));
    } else if |s.residents| < s.capacity {
      CreateLeaseKeepsInv(s, e);
    } else if candidate.Some? {
      SetEvictingKeepsInv(s, candidate.value, true);
      var u := SetEvicting(s, candidate.value, true);
      PutKeepsInv(u, e, u.entries[e].(phase := Evicting(candidate.value, s.residents[candidate.value].owner)));
    } else {
      ParkKeepsInv(s, e);
    }
  }

  lemma EvictCheckKeepsInv(s: State, e: EntryId)
    requires Inv(s) && e in s.entries && s.entries[e].phase.Evicting?
    ensures Inv(EvictCheckStep(s, e))
  {
    var l, v := s.entries[e].phase.lease, s.entries[e].phase.victim;
    if Attached(s, v) && Quiet(s.entries[v]) {
      DetachKeysKeepsInv(s, s.entries[v].registry, {s.entries[v].key});
      var u := Detach(s, v);
      PutKeepsInv(u, e, u.entries[e].(phase := AwaitEviction(l, v)));
    } else {
      PutKeepsInv(s, e, s.entries[e].(phase := EvictRefused(l)));
    }
  }

  lemma EvictGiveUpKeepsInv(s: State, e: EntryId)
    requires Inv(s) && e in s.entries && s.entries[e].phase.EvictRefused?
    ensures Inv(EvictGiveUpStep(s, e))
  {
    assert EntryOk(s.entries[e]);
    SetEvictingKeepsInv(s, s.entries[e].phase.lease, false);
    ParkKeepsInv(SetEvicting(s, s.entries[e].phase.lease, false), e);
  }

  lemma EvictDoneKeepsInv(s: State, e: EntryId)
    requires Inv(s) && e in s.entries && s.entries[e].phase.AwaitEviction?
    ensures Inv(EvictDoneStep(s, e))
  {
    assert EntryOk(s.entries[e]);
    var u := SetEvicting(s, s.entries[e].phase.lease, false);
    SetEvictingKeepsInv(s, s.entries[e].phase.lease, false);
    PutKeepsInv(u, e, u.entries[e].(phase := Acquiring));
  }

  lemma TurnResumeKeepsInv(s: State, t: TaskId, now: int)
    requires Inv(s) && Enabled(s, TurnResume(t, now))
    ensures Inv(TurnResumeStep(s, t, now))
  {
    var e := s.tasks[t].entry;
    var entry := s.entries[e];
    if entry.phase.Failed? {
      ForgetTaskKeepsInv(s, t);
      DetachedDecKeepsInv(s.(tasks := s.tasks - {t}), e);
    } else {
      var u := Use(s, e, now);
      PutKeepsInv(s, e, u.entries[e]);
      if entry.status.available {
        SwitchTaskKeepsInv(u, t, Active(e));
      } else if Attached(u, e) {
        UnreserveHolders(u, e, t, u.tasks[t := Removing(e)]);
      } else {
        SwitchTaskKeepsInv(u, t, Removing(e));
        DetachedDecKeepsInv(u.(tasks := u.tasks[t := Removing(e)]), e);
      }
    }
  }

  /** Outside the map the count no longer matters. */
  lemma DetachedDecKeepsInv(s: State, e: EntryId)
    requires Inv(s) && e in s.entries && !Attached(s, e)
    ensures Inv(DecReservation(s, e))
  {
    var u := DecReservation(s, e);
    SameAttached(s, u);
    SameHolders(s, u);
    assert AttachInv(u) && LeaseInv(u) && HolderInv(u);
  }

  lemma SwitchTaskKeepsInv(s: State, t: TaskId, task: Task)
    requires Inv(s) && t in s.tasks && s.tasks[t].entry == task.entry && !s.tasks[t].Removing?
    requires task.Removing? ==> !Attached(s, task.entry)
    requires s.entries[task.entry].phase.Ready? || s.entries[task.entry].phase.Disposed?
    ensures Inv(s.(tasks := s.tasks[t := task]))
  {
    var u := s.(tasks := s.tasks[t := task]);
    SameAttached(s, u);
    assert AttachInv(u) && LeaseInv(u);
    forall f | Attached(u, f) ensures u.entries[f].reservations == |Holders(u, f)| {
      assert Holders(u, f) == Holders(s, f);
    }
  }

  lemma RemoveUnavailableKeepsInv(s: State, t: TaskId)
    requires Inv(s) && t in s.tasks && s.tasks[t].Removing?
    ensures Inv(RemoveUnavailableStep(s, t))
  {
    var e := s.tasks[t].entry;
    DetachIfAttachedKeepsInv(s, e);
    ForgetTaskKeepsInv(DetachIfAttached(s, e), t);
  }

  lemma DetachIfAttachedKeepsInv(s: State, e: EntryId)
    requires Inv(s)
    ensures Inv(DetachIfAttached(s, e))
  {
    if Attached(s, e) {
      DetachKeysKeepsInv(s, s.entries[e].registry, {s.entries[e].key});
    }
  }
}
