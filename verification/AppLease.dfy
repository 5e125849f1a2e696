/** The lease row that decides which process runs an app, and the lease objects that compete for it.

    The model follows one lease key: its row, any number of lease objects made for it, and a log of
    holdings.  A holding is an interval of ownership, from the acquiring statement to the last
    renewal plus the time to live; a release cuts it short.  Every operation is one database
    statement at a clock reading, and the clock shared by the objects never goes backwards.  */
module AppLease {
  import opened Wrappers

  type Token = string

  datatype Row = Row(ownerId: string, token: Token, acquiredAt: int, expiresAt: int)

  /** A lease object; its random token names it. */
  datatype Lease = Lease(ownerId: string, ttl: int, acquired: bool, lost: bool)

  datatype Holding = Holding(token: Token, from: int, until: int)

  datatype State = State(now: int, row: Option<Row>, leases: map<Token, Lease>, holdings: seq<Holding>)

  datatype Step =
    | Create(token: Token, ownerId: string, ttl: int)
    | Acquire(token: Token, at: int)
    | Heartbeat(token: Token, at: int)
    | Release(token: Token, at: int)

  // ---------------------------------------------------------------- the three statements

  /** The conditional upsert changes the row: it is missing, or has expired. */
  predicate Free(row: Option<Row>, now: int) {
    row.None? || row.value.expiresAt <= now
  }

  function NewRow(l: Lease, t: Token, now: int): Row {
    Row(l.ownerId, t, now, now + l.ttl)
  }

  predicate Owns(row: Option<Row>, l: Lease, t: Token) {
    row.Some? && row.value.ownerId == l.ownerId && row.value.token == t
  }

  /** The conditional update of the heartbeat finds its row. */
  predicate Renews(row: Option<Row>, l: Lease, t: Token, now: int) {
    Owns(row, l, t) && row.value.expiresAt > now
  }

  predicate IsAcquired(l: Lease) {
    l.acquired && !l.lost
  }

  function AcquireResult(row: Option<Row>, l: Lease, now: int): bool {
    if l.acquired then IsAcquired(l) else Free(row, now)
  }

  function AcquireRow(row: Option<Row>, l: Lease, t: Token, now: int): Option<Row> {
    if !l.acquired && Free(row, now) then Some(NewRow(l, t, now)) else row
  }

  function AcquireLease(row: Option<Row>, l: Lease, now: int): Lease {
    if !l.acquired && Free(row, now) then l.(acquired := true, lost := false) else l
  }

  function HeartbeatResult(row: Option<Row>, l: Lease, t: Token, now: int): bool {
    IsAcquired(l) && Renews(row, l, t, now)
  }

  function HeartbeatRow(row: Option<Row>, l: Lease, t: Token, now: int): Option<Row> {
    if HeartbeatResult(row, l, t, now) then Some(row.value.(expiresAt := now + l.ttl)) else row
  }

  function HeartbeatLease(row: Option<Row>, l: Lease, t: Token, now: int): Lease {
    if IsAcquired(l) && !Renews(row, l, t, now) then l.(lost := true) else l
  }

  function ReleaseRow(row: Option<Row>, l: Lease, t: Token): Option<Row> {
    if l.acquired && Owns(row, l, t) then None else row
  }

  // ---------------------------------------------------------------- steps with their history

  function Extended(holdings: seq<Holding>, until: int): seq<Holding>
    requires holdings != []
  {
    holdings[|holdings| - 1 := holdings[|holdings| - 1].(until := until)]
  }

  function AcquireStep(s: State, t: Token, now: int): State
    requires t in s.leases
  {
    var l := s.leases[t];
    State(now, AcquireRow(s.row, l, t, now), s.leases[t := AcquireLease(s.row, l, now)],
          if !l.acquired && Free(s.row, now) then s.holdings + [Holding(t, now, now + l.ttl)] else s.holdings)
  }

  function HeartbeatStep(s: State, t: Token, now: int): State
    requires t in s.leases
  {
    var l := s.leases[t];
    State(now, HeartbeatRow(s.row, l, t, now), s.leases[t := HeartbeatLease(s.row, l, t, now)],
          if HeartbeatResult(s.row, l, t, now) && s.holdings != [] then Extended(s.holdings, now + l.ttl)
          else s.holdings)
  }

  function ReleaseStep(s: State, t: Token, now: int): State
    requires t in s.leases
  {
    var l := s.leases[t];
    State(now, ReleaseRow(s.row, l, t), s.leases[t := l.(acquired := false, lost := false)],
          if l.acquired && Renews(s.row, l, t, now) && s.holdings != [] then Extended(s.holdings, now) else s.holdings)
  }

  predicate Enabled(s: State, step: Step) {
    match step
    case Create(t, _, ttl) => t !in s.leases && ttl > 0
    case Acquire(t, now) => t in s.leases && s.now <= now
    case Heartbeat(t, now) => t in s.leases && s.now <= now
    case Release(t, now) => t in s.leases && s.now <= now
  }

  function Apply(s: State, step: Step): State
    requires Enabled(s, step)
  {
    match step
    case Create(t, owner, ttl) => s.(leases := s.leases[t := Lease(owner, ttl, false, false)])
    case Acquire(t, now) => AcquireStep(s, t, now)
    case Heartbeat(t, now) => HeartbeatStep(s, t, now)
    case Release(t, now) => ReleaseStep(s, t, now)
  }

  function Run(s: State, steps: seq<Step>): State
    decreases |steps|
  {
    if steps == [] then s else Run(if Enabled(s, steps[0]) then Apply(s, steps[0]) else s, steps[1..])
  }

  function Init(now: int): State {
    State(now, None, map[], [])
  }

  // ---------------------------------------------------------------- the invariant

  ghost predicate HoldingsInv(holdings: seq<Holding>, now: int) {
    (forall i :: 0 <= i < |holdings| ==> holdings[i].from <= holdings[i].until && holdings[i].from <= now) &&
    (forall i, j :: 0 <= i < j < |holdings| ==> holdings[i].until <= holdings[j].from)
  }

  /** The row is the last holding, and without a row every holding is over. */
  ghost predicate RowInv(row: Option<Row>, holdings: seq<Holding>, now: int) {
    match row
    case None => forall i :: 0 <= i < |holdings| ==> holdings[i].until <= now
    case Some(r) => |holdings| > 0 && holdings[|holdings| - 1] == Holding(r.token, r.acquiredAt, r.expiresAt)
  }

  /** The row's object has acquired, under the same owner. */
  ghost predicate LeasesInv(row: Option<Row>, leases: map<Token, Lease>) {
    (forall t :: t in leases ==> leases[t].ttl > 0) &&
    (row.Some? ==>
      row.value.token in leases && leases[row.value.token].acquired &&
      leases[row.value.token].ownerId == row.value.ownerId)
  }

  ghost predicate Inv(s: State) {
    HoldingsInv(s.holdings, s.now) && RowInv(s.row, s.holdings, s.now) && LeasesInv(s.row, s.leases)
  }

  lemma AcquireKeepsInv(s: State, t: Token, now: int)
    requires Inv(s) && Enabled(s, Acquire(t, now))
    ensures Inv(AcquireStep(s, t, now))
  {
  }

  lemma HeartbeatKeepsInv(s: State, t: Token, now: int)
    requires Inv(s) && Enabled(s, Heartbeat(t, now))
    ensures Inv(HeartbeatStep(s, t, now))
  {
  }

  lemma ReleaseKeepsInv(s: State, t: Token, now: int)
    requires Inv(s) && Enabled(s, Release(t, now))
    ensures Inv(ReleaseStep(s, t, now))
  {
  }

  lemma StepKeepsInv(s: State, step: Step)
    requires Inv(s) && Enabled(s, step)
    ensures Inv(Apply(s, step))
  {
    match step
    case Create(_, _, _) =>
    case Acquire(t, now) => AcquireKeepsInv(s, t, now);
    case Heartbeat(t, now) => HeartbeatKeepsInv(s, t, now);
    case Release(t, now) => ReleaseKeepsInv(s, t, now);
  }

  lemma {:induction false} RunKeepsInv(s: State, steps: seq<Step>)
    requires Inv(s)
    ensures Inv(Run(s, steps))
    decreases |steps|
  {
    if steps != [] {
      if Enabled(s, steps[0]) {
        StepKeepsInv(s, steps[0]);
      }
      RunKeepsInv(if Enabled(s, steps[0]) then Apply(s, steps[0]) else s, steps[1..]);
    }
  }

  predicate Covers(h: Holding, at: int) {
    h.from <= at < h.until
  }

  /** However the objects' calls interleave, ownership intervals never overlap: no instant is covered
      by two of them. */
  lemma OwnershipNeverOverlaps(start: int, steps: seq<Step>, at: int, i: nat, j: nat)
    requires i < j < |Run(Init(start), steps).holdings|
    ensures var hs := Run(Init(start), steps).holdings;
      hs[i].until <= hs[j].from && !(Covers(hs[i], at) && Covers(hs[j], at))
  {
    RunKeepsInv(Init(start), steps);
  }

  /** Ownership at the latest clock reading is exactly what the row says: a holding still covers it
      when and only when there is a row that has not expired, and then it is the row's. */
  lemma RowTellsTheOwner(start: int, steps: seq<Step>, i: nat)
    requires i < |Run(Init(start), steps).holdings|
    ensures var s := Run(Init(start), steps);
      Covers(s.holdings[i], s.now) <==>
        i == |s.holdings| - 1 && s.row.Some? && s.row.value.expiresAt > s.now &&
        s.row.value.token == s.holdings[i].token
  {
    RunKeepsInv(Init(start), steps);
  }

  /** A lease object that has not acquired succeeds exactly when nobody owns the key, and then owns it
      from now for its time to live. */
  lemma AcquireSucceedsIffUnowned(start: int, steps: seq<Step>, t: Token, now: int)
    requires var s := Run(Init(start), steps); Enabled(s, Acquire(t, now)) && !s.leases[t].acquired
    ensures var s := Run(Init(start), steps);
      AcquireResult(s.row, s.leases[t], now) <==> forall i :: 0 <= i < |s.holdings| ==> !Covers(s.holdings[i], now)
    ensures var s := Run(Init(start), steps);
      AcquireResult(s.row, s.leases[t], now) ==>
        AcquireStep(s, t, now).holdings == s.holdings + [Holding(t, now, now + s.leases[t].ttl)] &&
        IsAcquired(AcquireStep(s, t, now).leases[t])
  {
    RunKeepsInv(Init(start), steps);
    var s := Run(Init(start), steps);
    if s.row.Some? {
      assert Covers(s.holdings[|s.holdings| - 1], now) <==> !Free(s.row, now);
      assert forall i :: 0 <= i < |s.holdings| - 1 ==> s.holdings[i].until <= s.holdings[|s.holdings| - 1].from;
    }
  }

  /** A heartbeat that returns true: the object's latest acquisition is the latest of all, its holding
      has not lapsed, and it is prolonged without a gap. */
  lemma HeartbeatConfirmsOwnership(start: int, steps: seq<Step>, t: Token, now: int)
    requires var s := Run(Init(start), steps);
      Enabled(s, Heartbeat(t, now)) && HeartbeatResult(s.row, s.leases[t], t, now)
    ensures var s := Run(Init(start), steps);
      var last := |s.holdings| - 1;
      last >= 0 && s.holdings[last].token == t && Covers(s.holdings[last], now) &&
      HeartbeatStep(s, t, now).holdings == s.holdings[..last] +
        [Holding(t, s.holdings[last].from, now + s.leases[t].ttl)]
  {
    RunKeepsInv(Init(start), steps);
  }

  /** Releasing never touches another object's ownership, and ends the releaser's own at once. */
  lemma ReleaseSparesOthers(start: int, steps: seq<Step>, t: Token, now: int)
    requires Enabled(Run(Init(start), steps), Release(t, now))
    ensures var s := Run(Init(start), steps);
      var r := ReleaseStep(s, t, now);
      |r.holdings| == |s.holdings| &&
      forall i :: 0 <= i < |s.holdings| ==>
        if s.holdings[i].token != t then r.holdings[i] == s.holdings[i]
        else r.holdings[i].from == s.holdings[i].from && r.holdings[i].until <= now
    ensures var s := Run(Init(start), steps);
      s.row.Some? && s.row.value.token != t ==> ReleaseStep(s, t, now).row == s.row
  {
    RunKeepsInv(Init(start), steps);
  }

  /** What a lease object remembers of its own calls.  A failed attempt leaves it as it was; an acquired
      one is lost from the heartbeat on at which no ownership interval of its covers the present; a
      release, like its making, leaves it with nothing.  No call concerns another object. */
  lemma CallsAreRemembered(start: int, steps: seq<Step>, step: Step)
    requires Enabled(Run(Init(start), steps), step)
    ensures var s := Run(Init(start), steps);
      var r, t := Apply(s, step), step.token;
      t in r.leases &&
      (forall u :: u != t ==>
        (u in r.leases <==> u in s.leases) && (u in s.leases ==> r.leases[u] == s.leases[u])) &&
      (step.Create? ==> r.leases[t] == Lease(step.ownerId, step.ttl, false, false) && r.holdings == s.holdings) &&
      (step.Acquire? ==>
        r.leases[t] ==
          if !s.leases[t].acquired && forall i :: 0 <= i < |s.holdings| ==> !Covers(s.holdings[i], step.at)
          then s.leases[t].(acquired := true, lost := false) else s.leases[t]) &&
      (step.Heartbeat? ==>
        var owns := exists i :: 0 <= i < |s.holdings| && s.holdings[i].token == t && Covers(s.holdings[i], step.at);
        r.leases[t] == if s.leases[t].acquired && !owns then s.leases[t].(lost := true) else s.leases[t]) &&
      (step.Release? ==> r.leases[t] == s.leases[t].(acquired := false, lost := false)) &&
      (!step.Create? ==> r.now == step.at)
  {
    RunKeepsInv(Init(start), steps);
    var s := Run(Init(start), steps);
    if step.Acquire? {
      if !s.leases[step.token].acquired {
        AcquireSucceedsIffUnowned(start, steps, step.token, step.at);
      }
    } else if step.Heartbeat? {
      RenewsIffOwner(s, step.token, step.at);
    }
  }

  lemma RenewsIffOwner(s: State, t: Token, now: int)
    requires Inv(s) && t in s.leases && s.now <= now
    ensures Renews(s.row, s.leases[t], t, now) <==>
      exists i :: 0 <= i < |s.holdings| && s.holdings[i].token == t && Covers(s.holdings[i], now)
  {
    if Renews(s.row, s.leases[t], t, now) {
      assert s.holdings[|s.holdings| - 1].token == t && Covers(s.holdings[|s.holdings| - 1], now);
    }
  }

  lemma LostStep(s: State, t: Token, step: Step)
    requires t in s.leases && s.leases[t].acquired && s.leases[t].lost && Enabled(s, step)
    requires step.Release? ==> step.token != t
    ensures t in Apply(s, step).leases && Apply(s, step).leases[t] == s.leases[t]
  {
  }

  /** A lease that noticed its loss stays lost, whoever does what for however long, until it is
      released: its own calls of acquire and heartbeat answer false and change no row. */
  lemma {:induction false} LostUntilReleased(s: State, t: Token, steps: seq<Step>, at: int)
    requires t in s.leases && s.leases[t].acquired && s.leases[t].lost
    requires forall i :: 0 <= i < |steps| && steps[i].Release? ==> steps[i].token != t
    ensures var r := Run(s, steps);
      t in r.leases && r.leases[t] == s.leases[t] && !IsAcquired(r.leases[t]) &&
      !AcquireResult(r.row, r.leases[t], at) && AcquireRow(r.row, r.leases[t], t, at) == r.row &&
      !HeartbeatResult(r.row, r.leases[t], t, at) && HeartbeatRow(r.row, r.leases[t], t, at) == r.row
    decreases |steps|
  {
    if steps != [] {
      if Enabled(s, steps[0]) {
        LostStep(s, t, steps[0]);
      }
      LostUntilReleased(if Enabled(s, steps[0]) then Apply(s, steps[0]) else s, t, steps[1..], at);
    }
  }

  // ---------------------------------------------------------------- the mutable objects

  /** The table of lease rows. */
  class PlatformDatabase {
    var rows: map<string, Row>

    constructor ()
      ensures rows == map[]
    {
      rows := map[];
    }

    ghost function RowOf(key: string): Option<Row>
      reads this
    {
      if key in rows then Some(rows[key]) else None
    }

    /** What a statement about one key leaves of the table. */
    ghost predicate Has(before: map<string, Row>, key: string, row: Option<Row>)
      reads this
    {
      rows == match row case None => before - {key} case Some(r) => before[key := r]
    }

    method Upsert(key: string, row: Row, now: int) returns (changes: int)
      modifies this
      ensures changes == if Free(old(RowOf(key)), now) then 1 else 0
      ensures Has(old(rows), key, if Free(old(RowOf(key)), now) then Some(row) else old(RowOf(key)))
    {
      if key !in rows || rows[key].expiresAt <= now {
        rows := rows[key := row];
        return 1;
      }
      changes := 0;
    }

    method Renew(key: string, ownerId: string, token: Token, now: int, expiresAt: int) returns (changes: int)
      modifies this
      ensures var r := old(RowOf(key));
        var hit := r.Some? && r.value.ownerId == ownerId && r.value.token == token && r.value.expiresAt > now;
        changes == (if hit then 1 else 0) &&
        Has(old(rows), key, if hit then Some(r.value.(expiresAt := expiresAt)) else r)
    {
      if key in rows && rows[key].ownerId == ownerId && rows[key].token == token && rows[key].expiresAt > now {
        rows := rows[key := rows[key].(expiresAt := expiresAt)];
        return 1;
      }
      changes := 0;
    }

    method Delete(key: string, ownerId: string, token: Token)
      modifies this
      ensures var r := old(RowOf(key));
        Has(old(rows), key, if r.Some? && r.value.ownerId == ownerId && r.value.token == token then None else r)
    {
      if key in rows && rows[key].ownerId == ownerId && rows[key].token == token {
        rows := rows - {key};
      }
    }
  }

  class AppRuntimeLease {
    const database: PlatformDatabase
    const key: string
    const ownerId: string
    const token: Token
    const ttl: int
    var acquired: bool
    var lost: bool
    var timer: bool

    ghost function Snapshot(): Lease
      reads this
    {
      Lease(ownerId, ttl, acquired, lost)
    }

    /** The heartbeat timer runs exactly while the lease believes it is acquired. */
    ghost predicate Valid()
      reads this
    {
      ttl > 0 && (timer <==> acquired && !lost) && (lost ==> acquired)
    }

    constructor (database: PlatformDatabase, key: string, ownerId: string, token: Token, ttl: int)
      requires ttl > 0
      ensures Valid() && Snapshot() == Lease(ownerId, ttl, false, false)
      ensures this.database == database && this.key == key && this.token == token
    {
      this.database, this.key, this.ownerId, this.token, this.ttl := database, key, ownerId, token, ttl;
      acquired, lost, timer := false, false, false;
    }

    method Acquire(now: int) returns (r: bool)
      requires Valid()
      modifies this, database
      ensures Valid() && r == AcquireResult(old(database.RowOf(key)), old(Snapshot()), now)
      ensures Snapshot() == AcquireLease(old(database.RowOf(key)), old(Snapshot()), now)
      ensures database.Has(old(database.rows), key, AcquireRow(old(database.RowOf(key)), old(Snapshot()), token, now))
      ensures r ==> acquired && !lost
    {
      if acquired {
        return acquired && !lost;
      }
      var changes := database.Upsert(key, Row(ownerId, token, now, now + ttl), now);
      if changes != 1 {
        return false;
      }
      acquired, lost, timer := true, false, true;
      r := true;
    }

    method Heartbeat(now: int) returns (r: bool)
      requires Valid()
      modifies this, database
      ensures Valid() && r == HeartbeatResult(old(database.RowOf(key)), old(Snapshot()), token, now)
      ensures Snapshot() == HeartbeatLease(old(database.RowOf(key)), old(Snapshot()), token, now)
      ensures database.Has(old(database.rows), key, HeartbeatRow(old(database.RowOf(key)), old(Snapshot()), token, now))
      ensures r <==> acquired && !lost
    {
      if !(acquired && !lost) {
        return false;
      }
      var changes := database.Renew(key, ownerId, token, now, now + ttl);
      if changes == 1 {
        return true;
      }
      lost, timer := true, false;
      r := false;
    }

    method Release()
      requires Valid()
      modifies this, database
      ensures Valid() && !acquired && !lost && !timer
      ensures database.Has(old(database.rows), key, ReleaseRow(old(database.RowOf(key)), old(Snapshot()), token))
    {
      timer := false;
      if acquired {
        database.Delete(key, ownerId, token);
      }
      acquired, lost := false, false;
    }
  }
}
