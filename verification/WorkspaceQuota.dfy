/** The cumulative quota of a workspace: an early-exit scan guards every write.

    Writes to one root are serialized by a lock, so each is one step on the root's tree.  */
module WorkspaceQuota {
  import opened Wrappers
  import opened WorkspaceTree

  datatype Mode = NoAccess | ReadOnlyAccess | ReadWriteAccess

  datatype Options = Options(mode: Mode, maxWriteBytes: nat, maxTotalBytes: nat, maxFiles: nat)

  /** `host` writes come from the host itself and bypass the mode and the size limit of a single write.
      `aborted` is the signal when the write starts, under the lock, and before the rename. */
  datatype Write = Write(parents: seq<string>, base: string, size: nat, host: bool, aborted: (bool, bool, bool))

  datatype Usage = Usage(totalBytes: nat, fileCount: nat, truncated: bool)

  // ---------------------------------------------------------------- the scan

  predicate Exceeds(o: Options, bytes: nat, files: nat) {
    bytes > o.maxTotalBytes || files > o.maxFiles
  }

  /** The visit of one directory with the counts so far: it stops at the file that exceeds a limit. */
  function Visit(o: Options, e: Entries, bytes: nat, files: nat): Usage {
    match e
    case Nil => Usage(bytes, files, false)
    case Cons(_, Dir(d), rest) =>
      var u := Visit(o, d, bytes, files);
      if u.truncated then u else Visit(o, rest, u.totalBytes, u.fileCount)
    case Cons(_, File(size), rest) =>
      if Exceeds(o, bytes + size, files + 1) then Usage(bytes + size, files + 1, true)
      else Visit(o, rest, bytes + size, files + 1)
    case Cons(_, _, rest) => Visit(o, rest, bytes, files)
  }

  /** The early exit loses nothing: the scan is cut short exactly when the tree exceeds a limit, and
      otherwise counts it exactly. */
  lemma {:induction false} VisitIsExact(o: Options, e: Entries, bytes: nat, files: nat)
    requires !Exceeds(o, bytes, files)
    ensures Visit(o, e, bytes, files).truncated <==> Exceeds(o, bytes + BytesIn(e), files + FilesIn(e))
    ensures !Visit(o, e, bytes, files).truncated ==>
      Visit(o, e, bytes, files) == Usage(bytes + BytesIn(e), files + FilesIn(e), false)
  {
    match e
    case Nil =>
    case Cons(_, Dir(d), rest) =>
      VisitIsExact(o, d, bytes, files);
      if !Visit(o, d, bytes, files).truncated {
        VisitIsExact(o, rest, bytes + BytesIn(d), files + FilesIn(d));
      }
    case Cons(_, File(size), rest) =>
      if !Exceeds(o, bytes + size, files + 1) {
        VisitIsExact(o, rest, bytes + size, files + 1);
      }
    case Cons(_, _, rest) => VisitIsExact(o, rest, bytes, files);
  }

  // ---------------------------------------------------------------- one write

  function QuotaError(o: Options, usage: Usage, previous: Option<nat>, size: nat): Option<Error> {
    var before := if previous.Some? then previous.value else 0;
    if usage.truncated then
      if previous.None? || size > before then Some(AlreadyOverQuota) else None
    else if usage.totalBytes - before + size > o.maxTotalBytes then Some(OverBytes)
    else if usage.fileCount + (if previous.None? then 1 else 0) > o.maxFiles then Some(OverFiles)
    else None
  }

  /** Nothing changes; or only directories are made; or the file is written. */
  datatype Effect = Untouched(error: Error) | DirectoriesOnly(error: Error) | Written

  function EffectOf(o: Options, e: Entries, w: Write): Effect {
    if w.aborted.0 then Untouched(Aborted)
    else if !w.host && !o.mode.ReadWriteAccess? then Untouched(ReadOnly)
    else if !w.host && w.size > o.maxWriteBytes then Untouched(TooLarge)
    else if w.parents == [] && w.base == "." then Untouched(NeedsFilePath)
    else if w.aborted.1 then Untouched(Aborted)
    else
      match ExistingFileAt(e, w.parents, w.base)
      case Err(error) => Untouched(error)
      case Ok(previous) =>
        var refused := QuotaError(o, Visit(o, e, 0, 0), previous, w.size);
        if refused.Some? then Untouched(refused.value)
        else if Skipped(w.base) then DirectoriesOnly(DirectoryTarget)
        else if w.aborted.2 then DirectoriesOnly(Aborted)
        else Written
  }

  function Persist(o: Options, e: Entries, w: Write): Entries {
    match EffectOf(o, e, w)
    case Untouched(_) => e
    case DirectoriesOnly(_) => MakeParents(e, w.parents)
    case Written => WriteAt(e, w.parents, w.base, File(w.size))
  }

  function Previous(e: Entries, w: Write): nat {
    var p := ExistingFileAt(e, w.parents, w.base);
    if p.Ok? && p.value.Some? then p.value.value else 0
  }

  /** What a write does to the sums: a written file replaces what it overwrites, anything else that
      happens leaves both sums alone. */
  lemma PersistSums(o: Options, e: Entries, w: Write)
    ensures var r := Persist(o, e, w);
      if EffectOf(o, e, w).Written? then
        BytesIn(r) + Previous(e, w) == BytesIn(e) + w.size &&
        FilesIn(r) == FilesIn(e) + if ExistingFileAt(e, w.parents, w.base) == Ok(None) then 1 else 0
      else BytesIn(r) == BytesIn(e) && FilesIn(r) == FilesIn(e)
  {
    match EffectOf(o, e, w)
    case Untouched(_) =>
    case DirectoriesOnly(_) =>
      ExistingMeansParentsOk(e, w.parents, w.base);
      MakeParentsSums(e, w.parents);
    case Written => WriteSums(e, w.parents, w.base, w.size);
  }

  /** A write that is otherwise in order is refused for its size exactly when it would leave the
      workspace over a limit without shrinking it: within the quota, when the sums after it exceed a
      limit; beyond the quota, when it adds a file or grows one. */
  lemma QuotaIsExact(o: Options, e: Entries, w: Write)
    requires ExistingFileAt(e, w.parents, w.base).Ok?
    ensures var previous := ExistingFileAt(e, w.parents, w.base).value;
      QuotaError(o, Visit(o, e, 0, 0), previous, w.size).Some? <==>
      if Exceeds(o, BytesIn(e), FilesIn(e)) then previous.None? || w.size > previous.value
      else
        BytesIn(e) - Previous(e, w) + w.size > o.maxTotalBytes ||
        FilesIn(e) + (if previous.None? then 1 else 0) > o.maxFiles
  {
    VisitIsExact(o, e, 0, 0);
  }

  /** What a refusal for size says: a workspace beyond its quota, else too many bytes, else too many files. */
  lemma QuotaErrorsAreExact(o: Options, e: Entries, w: Write)
    requires ExistingFileAt(e, w.parents, w.base).Ok?
    ensures var previous := ExistingFileAt(e, w.parents, w.base).value;
      var error := QuotaError(o, Visit(o, e, 0, 0), previous, w.size);
      var full := BytesIn(e) > o.maxTotalBytes || FilesIn(e) > o.maxFiles;
      var bytes := BytesIn(e) + w.size - match previous case Some(size) => size case None => 0;
      var files := FilesIn(e) + match previous case Some(_) => 0 case None => 1;
      (error == Some(AlreadyOverQuota) <==> full && (previous == None || w.size > previous.value)) &&
      (error == Some(OverBytes) <==> !full && bytes > o.maxTotalBytes) &&
      (error == Some(OverFiles) <==> !full && bytes <= o.maxTotalBytes && files > o.maxFiles) &&
      (error.Some? ==> error == Some(AlreadyOverQuota) || error == Some(OverBytes) || error == Some(OverFiles))
  {
    VisitIsExact(o, e, 0, 0);
  }

  /** A write is carried out exactly when it is never aborted, the workspace is writable and the content
      not too large, unless the host writes, its path ends in a name and leads to a regular file or
      nowhere, and the quota allows it.  A tool's write into a workspace that is not writable, or of
      too large a content, changes nothing. */
  lemma WrittenIff(o: Options, e: Entries, w: Write)
    ensures var existing := ExistingFileAt(e, w.parents, w.base);
      EffectOf(o, e, w) == Written <==>
        !w.aborted.0 && !w.aborted.1 && !w.aborted.2 &&
        (w.host || (o.mode == ReadWriteAccess && w.size <= o.maxWriteBytes)) &&
        w.base != "" && w.base != "." && existing.Ok? &&
        QuotaError(o, Visit(o, e, 0, 0), existing.value, w.size) == None
    ensures !w.aborted.0 && !w.host && o.mode != ReadWriteAccess ==> EffectOf(o, e, w) == Untouched(ReadOnly)
    ensures !w.aborted.0 && !w.host && o.mode == ReadWriteAccess && w.size > o.maxWriteBytes ==>
      EffectOf(o, e, w) == Untouched(TooLarge)
    ensures w.aborted.0 ==> EffectOf(o, e, w) == Untouched(Aborted)
    ensures EffectOf(o, e, w).Untouched? ==> Persist(o, e, w) == e
  {
  }

  /** Of the writes that are let in: what is wrong with the path or the quota is the error, and then
      nothing changes; directories are made for a write that fails only after that. */
  lemma LetInOutcome(o: Options, e: Entries, w: Write)
    requires !w.aborted.0 && (w.host || (o.mode == ReadWriteAccess && w.size <= o.maxWriteBytes))
    ensures var existing, effect := ExistingFileAt(e, w.parents, w.base), EffectOf(o, e, w);
      var quota := if existing.Ok? then QuotaError(o, Visit(o, e, 0, 0), existing.value, w.size) else None;
      if w.parents == [] && w.base == "." then effect == Untouched(NeedsFilePath)
      else if w.aborted.1 then effect == Untouched(Aborted)
      else if existing.Err? then effect == Untouched(existing.error)
      else if quota.Some? then effect == Untouched(quota.value)
      else if w.base == "" || w.base == "." then effect == DirectoriesOnly(DirectoryTarget)
      else if w.aborted.2 then effect == DirectoriesOnly(Aborted)
      else effect == Written
  {
  }

  /** A written file reads back, and nothing else that is not a directory changed. */
  lemma PersistReadsBack(o: Options, e: Entries, w: Write, path: seq<string>)
    requires EffectOf(o, e, w).Written?
    ensures LeafAt(Persist(o, e, w), path) == if path == Clean(w.parents) + [w.base] then Some(File(w.size))
      else LeafAt(e, path)
  {
    WriteReadsBack(e, w.parents, w.base, w.size, path);
  }

  // ---------------------------------------------------------------- any run of writes

  function Max(a: nat, b: nat): nat { if a < b then b else a }

  lemma PersistIsBounded(o: Options, e: Entries, w: Write)
    ensures BytesIn(Persist(o, e, w)) <= Max(o.maxTotalBytes, BytesIn(e))
    ensures FilesIn(Persist(o, e, w)) <= Max(o.maxFiles, FilesIn(e))
  {
    PersistSums(o, e, w);
    VisitIsExact(o, e, 0, 0);
  }

  function Run(o: Options, e: Entries, writes: seq<Write>): Entries
    decreases |writes|
  {
    if writes == [] then e else Run(o, Persist(o, e, writes[0]), writes[1..])
  }

  /** With no writer but the guard, no run of writes, failing or not, takes the workspace beyond its
      quota, or beyond what it held at first where that was more already. */
  lemma {:induction false} QuotaHoldsForever(o: Options, e: Entries, writes: seq<Write>)
    ensures BytesIn(Run(o, e, writes)) <= Max(o.maxTotalBytes, BytesIn(e))
    ensures FilesIn(Run(o, e, writes)) <= Max(o.maxFiles, FilesIn(e))
    decreases |writes|
  {
    if writes != [] {
      PersistIsBounded(o, e, writes[0]);
      QuotaHoldsForever(o, Persist(o, e, writes[0]), writes[1..]);
    }
  }

  // ---------------------------------------------------------------- the mutable guard

  /** For termination: the directory entries of a tree. */
  function EntryCount(e: Entries): nat {
    match e
    case Nil => 0
    case Cons(_, Dir(d), rest) => 1 + EntryCount(d) + EntryCount(rest)
    case Cons(_, _, rest) => 1 + EntryCount(rest)
  }

  class LocalWorkspaceGuard {
    const options: Options
    var root: Entries
    var totalBytes: nat
    var fileCount: nat

    constructor (options: Options, root: Entries)
      ensures this.options == options && this.root == root
    {
      this.options, this.root, totalBytes, fileCount := options, root, 0, 0;
    }

    /** Visits one directory, adding up into the two counters; false stops the scan. */
    method VisitDirectory(directory: Entries) returns (complete: bool)
      modifies this`totalBytes, this`fileCount
      ensures Usage(totalBytes, fileCount, !complete) == Visit(options, directory, old(totalBytes), old(fileCount))
      decreases EntryCount(directory)
    {
      var rest := directory;
      while rest.Cons?
        invariant EntryCount(rest) <= EntryCount(directory)
        invariant Visit(options, rest, totalBytes, fileCount) ==
          Visit(options, directory, old(totalBytes), old(fileCount))
        decreases EntryCount(rest)
      {
        match rest.node {
          case Dir(d) =>
            var visited := VisitDirectory(d);
            if !visited {
              return false;
            }
          case File(size) =>
            totalBytes := totalBytes + size;
            fileCount := fileCount + 1;
            if totalBytes > options.maxTotalBytes || fileCount > options.maxFiles {
              return false;
            }
          case _ =>
        }
        rest := rest.rest;
      }
      complete := true;
    }

    method ScanUsage() returns (usage: Usage)
      modifies this`totalBytes, this`fileCount
      ensures usage == Visit(options, root, 0, 0)
      ensures usage.truncated <==> Exceeds(options, BytesIn(root), FilesIn(root))
      ensures !usage.truncated ==> usage == Usage(BytesIn(root), FilesIn(root), false)
    {
      VisitIsExact(options, root, 0, 0);
      totalBytes, fileCount := 0, 0;
      var complete := VisitDirectory(root);
      usage := Usage(totalBytes, fileCount, !complete);
    }

    /** Walks down the parents to the file. */
    method ExistingFileBytesAt(parents: seq<string>, base: string) returns (r: Result<Option<nat>, Error>)
      ensures r == ExistingFileAt(root, parents, base)
    {
      var current, i := root, 0;
      while i < |parents|
        invariant 0 <= i <= |parents|
        invariant ExistingFileAt(current, parents[i..], base) == ExistingFileAt(root, parents, base)
      {
        assert parents[i..][0] == parents[i] && parents[i..][1..] == parents[i + 1..];
        if !Skipped(parents[i]) {
          match Find(current, parents[i]) {
            case None => return Ok(None);
            case Some(Symlink) => return Err(SymlinkParent);
            case Some(Dir(d)) => current := d;
            case Some(_) => return Err(NonDirectoryParent);
          }
        }
        i := i + 1;
      }
      r := ExistingFile(current, base);
    }

    method PersistFile(w: Write) returns (r: Effect)
      modifies this
      ensures r == EffectOf(options, old(root), w) && root == Persist(options, old(root), w)
      ensures BytesIn(root) <= Max(options.maxTotalBytes, BytesIn(old(root)))
      ensures FilesIn(root) <= Max(options.maxFiles, FilesIn(old(root)))
    {
      PersistIsBounded(options, root, w);
      if w.aborted.0 {
        return Untouched(Aborted);
      }
      if !w.host {
        if !options.mode.ReadWriteAccess? {
          return Untouched(ReadOnly);
        }
        if w.size > options.maxWriteBytes {
          return Untouched(TooLarge);
        }
      }
      if w.parents == [] && w.base == "." {
        return Untouched(NeedsFilePath);
      }
      if w.aborted.1 {
        return Untouched(Aborted);
      }
      var previous := ExistingFileBytesAt(w.parents, w.base);
      if previous.Err? {
        return Untouched(previous.error);
      }
      var usage := ScanUsage();
      var refused := QuotaError(options, usage, previous.value, w.size);
      if refused.Some? {
        return Untouched(refused.value);
      }
      if Skipped(w.base) || w.aborted.2 {
        root := MakeParents(root, w.parents);
        return DirectoriesOnly(if Skipped(w.base) then DirectoryTarget else Aborted);
      }
      root := WriteAt(root, w.parents, w.base, File(w.size));
      r := Written;
    }
  }
}
