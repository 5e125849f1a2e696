/** The revisioned configuration store: an append-only table of revisions and two slots that point
    into it.  Each operation is one transaction, which leaves the tables alone when it throws.

    Revision `n` is entry `n - 1` of the table: keys are handed out by an auto-increment column and
    rows are never deleted.  */
module ConfigStore {
  import opened Wrappers

  type Id = nat
  type Document = string

  /** What the store is given: the document validator, the content hash, whitespace trimming, and
      the wording of a rollback's note. */
  datatype Env = Env(validate: Document -> Option<Document>, hash: Document -> string, trim: string -> string,
                     rollbackNote: Id -> string)

  /** Validating a validated document gives it back. */
  ghost predicate ValidEnv(env: Env) {
    forall d: Document, e: Document :: env.validate(d) == Some(e) ==> env.validate(e) == Some(e)
  }

  datatype Stamp = Stamp(at: int, actor: string)

  datatype Revision = Revision(
    document: Document,
    contentHash: string,
    created: Stamp,
    note: Option<string>,
    source: Option<Id>,
    published: Option<Stamp>)

  datatype Store = Store(revisions: seq<Revision>, active: Option<Id>, draft: Option<Id>)

  datatype Error = Invalid | Conflict | Missing | BadActor

  /** The draft a caller expects: unspecified, none at all, or a certain one. */
  datatype Expected = Anything | NoDraft | Draft(id: Id)

  datatype Op =
    | ImportSeed(document: Document, actor: string, note: Option<string>, now: int)
    | SaveDraft(document: Document, actor: string, note: Option<string>, now: int, expected: Expected,
                source: Option<Id>)
    | PublishDraft(actor: string, now: int, expectedId: Option<Id>)
    | Rollback(target: Id, actor: string, note: Option<string>, now: int)

  const EMPTY := Store([], None, None)

  // ---------------------------------------------------------------- transitions

  predicate Has(s: Store, id: Id) {
    1 <= id <= |s.revisions|
  }

  predicate GoodActor(env: Env, actor: string) {
    var name := env.trim(actor);
    name != "" && |name| <= 256
  }

  function CleanNote(env: Env, note: Option<string>): Option<string> {
    if note.Some? && env.trim(note.value) != "" then Some(env.trim(note.value)) else None
  }

  function NewRevision(env: Env, document: Document, actor: string, note: Option<string>, now: int, source: Option<Id>,
                       publish: bool): Revision {
    var stamp := Stamp(now, env.trim(actor));
    Revision(document, env.hash(document), stamp, CleanNote(env, note), source, if publish then Some(stamp) else None)
  }

  predicate Matches(expected: Expected, draft: Option<Id>) {
    match expected
    case Anything => true
    case NoDraft => draft.None?
    case Draft(n) => draft == Some(n)
  }

  function RollbackNote(env: Env, target: Id, note: Option<string>): Option<string> {
    if note.Some? then note else Some(env.rollbackNote(target))
  }

  function ImportSeedResult(env: Env, s: Store, op: Op): Result<Store, Error>
    requires op.ImportSeed?
  {
    match env.validate(op.document)
    case None => Err(Invalid)
    case Some(d) =>
      if s.revisions != [] then Err(Conflict)
      else if !GoodActor(env, op.actor) then Err(BadActor)
      else
        Ok(Store(s.revisions + [NewRevision(env, d, op.actor, op.note, op.now, None, true)],
                 Some(|s.revisions| + 1), s.draft))
  }

  function SaveDraftResult(env: Env, s: Store, op: Op): Result<Store, Error>
    requires op.SaveDraft?
  {
    match env.validate(op.document)
    case None => Err(Invalid)
    case Some(d) =>
      if !Matches(op.expected, s.draft) then Err(Conflict)
      else if op.source.Some? && !Has(s, op.source.value) then Err(Missing)
      else if !GoodActor(env, op.actor) then Err(BadActor)
      else
        Ok(Store(s.revisions + [NewRevision(env, d, op.actor, op.note, op.now, op.source, false)], s.active,
                 Some(|s.revisions| + 1)))
  }

  function PublishDraftResult(env: Env, s: Store, op: Op): Result<Store, Error>
    requires op.PublishDraft?
  {
    if s.draft.None? then Err(Conflict)
    else if op.expectedId.Some? && op.expectedId != s.draft then Err(Conflict)
    else if !Has(s, s.draft.value) then Err(Missing)
    else if env.validate(s.revisions[s.draft.value - 1].document).None? then Err(Invalid)
    else if !GoodActor(env, op.actor) then Err(BadActor)
    else
      var i := s.draft.value - 1;
      Ok(Store(s.revisions[i := s.revisions[i].(published := Some(Stamp(op.now, env.trim(op.actor))))], s.draft, None))
  }

  function RollbackResult(env: Env, s: Store, op: Op): Result<Store, Error>
    requires op.Rollback?
  {
    if !Has(s, op.target) then Err(Missing)
    else
      match env.validate(s.revisions[op.target - 1].document)
      case None => Err(Invalid)
      case Some(d) =>
        if !GoodActor(env, op.actor) then Err(BadActor)
        else
          var note := RollbackNote(env, op.target, op.note);
          Ok(Store(s.revisions + [NewRevision(env, d, op.actor, note, op.now, Some(op.target), true)],
                   Some(|s.revisions| + 1), None))
  }

  function Attempt(env: Env, s: Store, op: Op): Result<Store, Error> {
    match op
    case ImportSeed(_, _, _, _) => ImportSeedResult(env, s, op)
    case SaveDraft(_, _, _, _, _, _) => SaveDraftResult(env, s, op)
    case PublishDraft(_, _, _) => PublishDraftResult(env, s, op)
    case Rollback(_, _, _, _) => RollbackResult(env, s, op)
  }

  function Apply(env: Env, s: Store, op: Op): Store {
    var r := Attempt(env, s, op);
    if r.Ok? then r.value else s
  }

  function Run(env: Env, s: Store, ops: seq<Op>): Store
    decreases |ops|
  {
    if ops == [] then s else Run(env, Apply(env, s, ops[0]), ops[1..])
  }

  // ---------------------------------------------------------------- the invariant

  ghost predicate RevisionOk(env: Env, r: Revision, id: Id) {
    r.contentHash == env.hash(r.document) && env.validate(r.document) == Some(r.document) &&
    (r.source.Some? ==> 1 <= r.source.value < id)
  }

  /** Every revision is intact and comes from an older one; the active revision is published and the
      draft is not, so they differ. */
  ghost predicate Inv(env: Env, s: Store) {
    (forall i :: 0 <= i < |s.revisions| ==> RevisionOk(env, s.revisions[i], i + 1)) &&
    (s.active.Some? ==> Has(s, s.active.value) && s.revisions[s.active.value - 1].published.Some?) &&
    (s.draft.Some? ==> Has(s, s.draft.value) && s.revisions[s.draft.value - 1].published.None?)
  }

  lemma StepKeepsInv(env: Env, s: Store, op: Op)
    requires ValidEnv(env) && Inv(env, s)
    ensures Inv(env, Apply(env, s, op))
  {
  }

  lemma {:induction false} RunKeepsInv(env: Env, s: Store, ops: seq<Op>)
    requires ValidEnv(env) && Inv(env, s)
    ensures Inv(env, Run(env, s, ops))
    decreases |ops|
  {
    if ops != [] {
      StepKeepsInv(env, s, ops[0]);
      RunKeepsInv(env, Apply(env, s, ops[0]), ops[1..]);
    }
  }

  /** The same revision, except that it may have been published since. */
  predicate SameRevision(before: Revision, after: Revision) {
    after == before.(published := after.published) && (before.published.Some? ==> after == before)
  }

  /** Nothing that was stored is lost or changed, and no id is given out twice. */
  predicate Extends(before: Store, after: Store) {
    |before.revisions| <= |after.revisions| &&
    (forall i :: 0 <= i < |before.revisions| ==> SameRevision(before.revisions[i], after.revisions[i])) &&
    (before.active.Some? ==> after.active.Some?)
  }

  lemma StepExtends(env: Env, s: Store, op: Op)
    requires Inv(env, s)
    ensures Extends(s, Apply(env, s, op))
  {
  }

  lemma {:induction false} RunExtends(env: Env, s: Store, ops: seq<Op>)
    requires ValidEnv(env) && Inv(env, s)
    ensures Extends(s, Run(env, s, ops))
    decreases |ops|
  {
    if ops != [] {
      StepKeepsInv(env, s, ops[0]);
      StepExtends(env, s, ops[0]);
      RunExtends(env, Apply(env, s, ops[0]), ops[1..]);
    }
  }

  lemma {:induction false} RunInParts(env: Env, s: Store, before: seq<Op>, after: seq<Op>)
    ensures Run(env, s, before + after) == Run(env, Run(env, s, before), after)
    decreases |before|
  {
    if before == [] {
      assert before + after == after;
    } else {
      assert (before + after)[1..] == before[1..] + after;
      RunInParts(env, Apply(env, s, before[0]), before[1..], after);
    }
  }

  /** History only grows: whatever is done after a run, the revisions there keep their place, document
      and hash, and a publication stamp once set never changes; the active slot stays set; and every
      document still has the hash stored with it and an older source. */
  lemma HistoryOnlyGrows(env: Env, before: seq<Op>, after: seq<Op>)
    requires ValidEnv(env)
    ensures Extends(Run(env, EMPTY, before), Run(env, EMPTY, before + after))
    ensures Inv(env, Run(env, EMPTY, before + after))
    ensures var s := Run(env, EMPTY, before + after);
      s.active.Some? && s.draft.Some? ==> s.active != s.draft
  {
    RunKeepsInv(env, EMPTY, before);
    RunExtends(env, Run(env, EMPTY, before), after);
    RunInParts(env, EMPTY, before, after);
    RunKeepsInv(env, EMPTY, before + after);
  }

  // ---------------------------------------------------------------- optimistic concurrency

  /** A revision that has left the draft slot, or never was there, does not come (back) into it; and
      one that was published and replaced does not become active again. */
  lemma SlotsDoNotReturn(env: Env, s: Store, op: Op, n: Id)
    requires Inv(env, s) && Has(s, n)
    ensures s.draft != Some(n) ==> Apply(env, s, op).draft != Some(n)
    ensures s.active != Some(n) && s.revisions[n - 1].published.Some? ==> Apply(env, s, op).active != Some(n)
  {
  }

  lemma {:induction false} DraftHeldSince(env: Env, s: Store, ops: seq<Op>, n: Id)
    requires ValidEnv(env) && Inv(env, s) && Has(s, n) && Run(env, s, ops).draft == Some(n)
    ensures s.draft == Some(n)
    decreases |ops|
  {
    if ops != [] {
      StepKeepsInv(env, s, ops[0]);
      StepExtends(env, s, ops[0]);
      DraftHeldSince(env, Apply(env, s, ops[0]), ops[1..], n);
      SlotsDoNotReturn(env, s, ops[0], n);
    }
  }

  lemma {:induction false} ActiveHeldSince(env: Env, s: Store, ops: seq<Op>, n: Id)
    requires ValidEnv(env) && Inv(env, s) && Has(s, n) && s.revisions[n - 1].published.Some?
    requires Run(env, s, ops).active == Some(n)
    ensures s.active == Some(n)
    decreases |ops|
  {
    if ops != [] {
      StepKeepsInv(env, s, ops[0]);
      StepExtends(env, s, ops[0]);
      assert SameRevision(s.revisions[n - 1], Apply(env, s, ops[0]).revisions[n - 1]);
      ActiveHeldSince(env, Apply(env, s, ops[0]), ops[1..], n);
      SlotsDoNotReturn(env, s, ops[0], n);
    }
  }

  /** The expected draft of an operation, if it names one. */
  function ExpectedDraft(op: Op): Option<Id> {
    match op
    case SaveDraft(_, _, _, _, Draft(n), _) => Some(n)
    case PublishDraft(_, _, Some(n)) => Some(n)
    case _ => None
  }

  /** No update is lost: a save or a publication that names draft `n` and succeeds finds it in the
      slot, and at every earlier moment at which revision `n` existed the slot held it. */
  lemma NamedDraftWasHeldThroughout(env: Env, before: seq<Op>, after: seq<Op>, op: Op)
    requires ValidEnv(env) && ExpectedDraft(op).Some?
    requires Attempt(env, Run(env, EMPTY, before + after), op).Ok?
    ensures var n := ExpectedDraft(op).value;
      Has(Run(env, EMPTY, before + after), n) && Run(env, EMPTY, before + after).draft == Some(n) &&
      (Has(Run(env, EMPTY, before), n) ==> Run(env, EMPTY, before).draft == Some(n))
  {
    RunKeepsInv(env, EMPTY, before);
    RunKeepsInv(env, EMPTY, before + after);
    RunInParts(env, EMPTY, before, after);
    var n := ExpectedDraft(op).value;
    if Has(Run(env, EMPTY, before), n) {
      DraftHeldSince(env, Run(env, EMPTY, before), after, n);
    }
  }

  /** A published draft keeps its document and becomes active; a rollback makes a new revision with
      the very document of its target, so it undoes whatever was published in between. */
  lemma PublicationKeepsTheDocument(env: Env, s: Store, op: Op)
    requires ValidEnv(env) && Inv(env, s) && Attempt(env, s, op).Ok? && (op.PublishDraft? || op.Rollback?)
    ensures var r, from := Attempt(env, s, op).value, if op.PublishDraft? then s.draft.value else op.target;
      r.active.Some? && Has(r, r.active.value) && Has(s, from) && r.draft.None? &&
      r.revisions[r.active.value - 1].document == s.revisions[from - 1].document &&
      r.active.value == (if op.PublishDraft? then from else |s.revisions| + 1)
  {
  }

  /** A saved draft is stored whole: its validated document, who saved it when, from where and why; it
      takes the draft slot, and nothing else in the store changes. */
  lemma SaveStoresTheDraft(env: Env, s: Store, op: Op)
    requires ValidEnv(env) && op.SaveDraft? && Attempt(env, s, op).Ok?
    ensures var r, n := Attempt(env, s, op).value, |s.revisions|;
      |r.revisions| == n + 1 && r.revisions[..n] == s.revisions && r.active == s.active && r.draft == Some(n + 1) &&
      var saved := r.revisions[n];
      env.validate(op.document) == Some(saved.document) == env.validate(saved.document) &&
      saved.contentHash == env.hash(saved.document) &&
      saved.created.at == op.now && saved.created.actor == env.trim(op.actor) && saved.created.actor != "" &&
      saved.source == op.source && saved.published == None && NotedAs(env, op.note, saved.note)
  {
  }

  // ---------------------------------------------------------------- when each operation succeeds

  /** What is stored of who did something: the trimmed name, neither empty nor over-long. */
  predicate Named(env: Env, actor: string) {
    0 < |env.trim(actor)| <= 256
  }

  /** The trimmed note, or none when nothing is left of it. */
  predicate NotedAs(env: Env, note: Option<string>, stored: Option<string>) {
    match stored
    case Some(text) => note.Some? && text == env.trim(note.value) && text != ""
    case None => note.None? || env.trim(note.value) == ""
  }

  /** A save succeeds exactly when the document validates, the draft slot is as expected, the source
      exists and the actor has a name; otherwise the first of these that fails is the error. */
  lemma SaveSucceedsIff(env: Env, s: Store, op: Op)
    requires op.SaveDraft?
    ensures var r := Attempt(env, s, op);
      var asExpected := op.expected == Anything || (op.expected == NoDraft && s.draft == None) ||
        (op.expected.Draft? && s.draft == Some(op.expected.id));
      var sourceExists := op.source == None || 1 <= op.source.value <= |s.revisions|;
      (r.Ok? <==> env.validate(op.document).Some? && asExpected && sourceExists && Named(env, op.actor)) &&
      (r == Err(Invalid) <==> env.validate(op.document) == None) &&
      (r == Err(Conflict) <==> env.validate(op.document).Some? && !asExpected) &&
      (r == Err(Missing) <==> env.validate(op.document).Some? && asExpected && !sourceExists) &&
      (r.Err? ==> Apply(env, s, op) == s)
  {
  }

  /** A publication succeeds exactly when there is a draft, it is the expected one, it still validates
      and the actor has a name; then the draft is stamped and becomes active, and the slot is empty. */
  lemma PublishSucceedsIff(env: Env, s: Store, op: Op)
    requires op.PublishDraft? && Inv(env, s)
    ensures var r := Attempt(env, s, op);
      (r.Ok? <==> s.draft.Some? && (op.expectedId == None || op.expectedId == s.draft) && Named(env, op.actor)) &&
      (r == Err(Conflict) <==> s.draft == None || (op.expectedId.Some? && op.expectedId != s.draft)) &&
      (r.Err? ==> (r == Err(Conflict) || r == Err(BadActor)) && Apply(env, s, op) == s) &&
      (r.Ok? ==>
        r.value.active == s.draft && r.value.draft == None && |r.value.revisions| == |s.revisions| &&
        forall i :: 0 <= i < |s.revisions| ==>
          r.value.revisions[i] ==
            if Some(i + 1) == s.draft then s.revisions[i].(published := Some(Stamp(op.now, env.trim(op.actor))))
            else s.revisions[i])
  {
  }

  /** A rollback succeeds exactly when its target exists and the actor has a name; then a copy of the
      target, stamped as published, is the active revision and no draft is left. */
  lemma RollbackSucceedsIff(env: Env, s: Store, op: Op)
    requires op.Rollback? && Inv(env, s)
    ensures var r, n := Attempt(env, s, op), |s.revisions|;
      (r.Ok? <==> 1 <= op.target <= n && Named(env, op.actor)) &&
      (r == Err(Missing) <==> !(1 <= op.target <= n)) &&
      (r.Err? ==> (r == Err(Missing) || r == Err(BadActor)) && Apply(env, s, op) == s) &&
      (r.Ok? ==>
        r.value.active == Some(n + 1) && r.value.draft == None && |r.value.revisions| == n + 1 &&
        r.value.revisions[..n] == s.revisions &&
        var copy := r.value.revisions[n];
        copy.document == s.revisions[op.target - 1].document && copy.source == Some(op.target) &&
        copy.created == Stamp(op.now, env.trim(op.actor)) && copy.published == Some(copy.created) &&
        NotedAs(env, if op.note.Some? then op.note else Some(env.rollbackNote(op.target)), copy.note))
  {
  }

  /** A seed is imported exactly into an unused store, when it validates and the actor has a name; it
      is published at once. */
  lemma ImportSucceedsIff(env: Env, s: Store, op: Op)
    requires op.ImportSeed?
    ensures var r := Attempt(env, s, op);
      (r.Ok? <==> env.validate(op.document).Some? && s.revisions == [] && Named(env, op.actor)) &&
      (r == Err(Invalid) <==> env.validate(op.document) == None) &&
      (r == Err(Conflict) <==> env.validate(op.document).Some? && s.revisions != []) &&
      (r.Ok? ==>
        r.value.active == Some(1) && r.value.draft == s.draft && |r.value.revisions| == 1 &&
        var seed := r.value.revisions[0];
        Some(seed.document) == env.validate(op.document) && seed.source == None &&
        seed.created == Stamp(op.now, env.trim(op.actor)) && seed.published == Some(seed.created) &&
        NotedAs(env, op.note, seed.note))
  {
  }

  lemma {:induction false} StaysNonEmpty(env: Env, s: Store, ops: seq<Op>)
    requires s.revisions != []
    ensures Run(env, s, ops).revisions != []
    decreases |ops|
  {
    if ops != [] {
      StaysNonEmpty(env, Apply(env, s, ops[0]), ops[1..]);
    }
  }

  /** A seed is imported at most once, and never into a store that was used before. */
  lemma SeedOnlyOnce(env: Env, before: seq<Op>, op: Op, after: seq<Op>, again: Op)
    requires Attempt(env, Run(env, EMPTY, before), op).Ok? && again.ImportSeed?
    ensures Attempt(env, Run(env, EMPTY, before + [op] + after), again).Err?
  {
    var s := Run(env, EMPTY, before);
    RunInParts(env, EMPTY, before + [op], after);
    RunInParts(env, EMPTY, before, [op]);
    assert Run(env, s, [op]) == Run(env, Apply(env, s, op), []);
    assert Apply(env, s, op).revisions != [] by {
      assert op.PublishDraft? ==> Has(s, s.draft.value);
    }
    StaysNonEmpty(env, Apply(env, s, op), after);
  }

  // ---------------------------------------------------------------- the mutable store

  datatype Slot = Active | DraftSlot

  /** The two tables. */
  class ConfigDocumentStore {
    const env: Env
    var revisions: seq<Revision>
    var slots: map<Slot, Id>

    function SlotRevisionId(slot: Slot): Option<Id>
      reads this
    {
      if slot in slots then Some(slots[slot]) else None
    }

    ghost function Snapshot(): Store
      reads this
    {
      Store(revisions, SlotRevisionId(Active), SlotRevisionId(DraftSlot))
    }

    ghost predicate Valid()
      reads this
    {
      ValidEnv(env) && Inv(env, Snapshot())
    }

    constructor (env: Env)
      requires ValidEnv(env)
      ensures Valid() && Snapshot() == EMPTY && this.env == env
    {
      this.env := env;
      revisions, slots := [], map[];
    }

    method InsertRevision(document: Document, actor: string, note: Option<string>, now: int, source: Option<Id>,
                          publish: bool)
      returns (r: Result<Id, Error>)
      modifies this`revisions
      ensures !GoodActor(env, actor) ==> r == Err(BadActor) && revisions == old(revisions)
      ensures GoodActor(env, actor) ==>
        r == Ok(|old(revisions)| + 1) &&
        revisions == old(revisions) + [NewRevision(env, document, actor, note, now, source, publish)]
    {
      if !GoodActor(env, actor) {
        return Err(BadActor);
      }
      revisions := revisions + [NewRevision(env, document, actor, note, now, source, publish)];
      r := Ok(|revisions|);
    }

    method ImportSeed(document: Document, actor: string, note: Option<string>, now: int) returns (r: Result<Id, Error>)
      requires Valid()
      modifies this
      ensures Valid() && Snapshot() == Apply(env, old(Snapshot()), Op.ImportSeed(document, actor, note, now))
      ensures match Attempt(env, old(Snapshot()), Op.ImportSeed(document, actor, note, now))
              case Ok(_) => r == Ok(|old(revisions)| + 1)
              case Err(e) => r == Err(e)
    {
      StepKeepsInv(env, Snapshot(), Op.ImportSeed(document, actor, note, now));
      var validated := env.validate(document);
      if validated.None? {
        return Err(Invalid);
      }
      if |revisions| != 0 {
        return Err(Conflict);
      }
      r := InsertRevision(validated.value, actor, note, now, None, true);
      if r.Ok? {
        slots := slots[Active := r.value];
      }
    }

    method SaveDraft(document: Document, actor: string, note: Option<string>, now: int, expected: Expected,
                     source: Option<Id>)
      returns (r: Result<Id, Error>)
      requires Valid()
      modifies this
      ensures Valid() && Snapshot() ==
        Apply(env, old(Snapshot()), Op.SaveDraft(document, actor, note, now, expected, source))
      ensures match Attempt(env, old(Snapshot()), Op.SaveDraft(document, actor, note, now, expected, source))
              case Ok(_) => r == Ok(|old(revisions)| + 1)
              case Err(e) => r == Err(e)
    {
      StepKeepsInv(env, Snapshot(), Op.SaveDraft(document, actor, note, now, expected, source));
      var validated := env.validate(document);
      if validated.None? {
        return Err(Invalid);
      }
      var current := SlotRevisionId(DraftSlot);
      if !Matches(expected, current) {
        return Err(Conflict);
      }
      if source.Some? && !(1 <= source.value <= |revisions|) {
        return Err(Missing);
      }
      r := InsertRevision(validated.value, actor, note, now, source, false);
      if r.Ok? {
        slots := slots[DraftSlot := r.value];
      }
    }

    method PublishDraft(actor: string, now: int, expectedId: Option<Id>) returns (r: Result<Id, Error>)
      requires Valid()
      modifies this
      ensures Valid() && Snapshot() == Apply(env, old(Snapshot()), Op.PublishDraft(actor, now, expectedId))
      ensures match Attempt(env, old(Snapshot()), Op.PublishDraft(actor, now, expectedId))
              case Ok(after) => r == Ok(old(Snapshot()).draft.value) && after.active == old(Snapshot()).draft
              case Err(e) => r == Err(e)
    {
      StepKeepsInv(env, Snapshot(), Op.PublishDraft(actor, now, expectedId));
      var draft := SlotRevisionId(DraftSlot);
      if draft.None? || (expectedId.Some? && expectedId != draft) {
        return Err(Conflict);
      }
      var id := draft.value;
      if env.validate(revisions[id - 1].document).None? {
        return Err(Invalid);
      }
      if !GoodActor(env, actor) {
        return Err(BadActor);
      }
      revisions := revisions[id - 1 := revisions[id - 1].(published := Some(Stamp(now, env.trim(actor))))];
      slots := slots[Active := id];
      slots := slots - {DraftSlot};
      r := Ok(id);
    }

    method Rollback(target: Id, actor: string, note: Option<string>, now: int) returns (r: Result<Id, Error>)
      requires Valid()
      modifies this
      ensures Valid() && Snapshot() == Apply(env, old(Snapshot()), Op.Rollback(target, actor, note, now))
      ensures match Attempt(env, old(Snapshot()), Op.Rollback(target, actor, note, now))
              case Ok(after) => r == Ok(|old(revisions)| + 1) && after.active == Some(|old(revisions)| + 1)
              case Err(e) => r == Err(e)
    {
      StepKeepsInv(env, Snapshot(), Op.Rollback(target, actor, note, now));
      if !(1 <= target <= |revisions|) {
        return Err(Missing);
      }
      var validated := env.validate(revisions[target - 1].document);
      if validated.None? {
        return Err(Invalid);
      }
      r := InsertRevision(validated.value, actor, RollbackNote(env, target, note), now, Some(target), true);
      if r.Ok? {
        slots := slots[Active := r.value];
        slots := slots - {DraftSlot};
      }
    }
  }
}
