/** Directory trees: what they sum up to, and how one path is looked at and written. */
module WorkspaceTree {
  import opened Wrappers

  /** Directory entries come in the order in which the directory is read. */
  datatype Node = File(size: nat) | Dir(entries: Entries) | Symlink | Special
  datatype Entries = Nil | Cons(name: string, node: Node, rest: Entries)

  datatype Error =
    | ReadOnly | TooLarge | NeedsFilePath | Aborted
    | SymlinkParent | NonDirectoryParent | SymlinkTarget | DirectoryTarget | SpecialTarget
    | AlreadyOverQuota | OverBytes | OverFiles

  // ---------------------------------------------------------------- sums

  function NodeBytes(n: Node): nat {
    match n
    case File(size) => size
    case Dir(entries) => BytesIn(entries)
    case _ => 0
  }

  function BytesIn(e: Entries): nat {
    match e
    case Nil => 0
    case Cons(_, node, rest) => NodeBytes(node) + BytesIn(rest)
  }

  function NodeFiles(n: Node): nat {
    match n
    case File(_) => 1
    case Dir(entries) => FilesIn(entries)
    case _ => 0
  }

  /** Regular files, however deep. */
  function FilesIn(e: Entries): nat {
    match e
    case Nil => 0
    case Cons(_, node, rest) => NodeFiles(node) + FilesIn(rest)
  }

  // ---------------------------------------------------------------- one directory

  function Find(e: Entries, name: string): Option<Node> {
    match e
    case Nil => None
    case Cons(n, node, rest) => if n == name then Some(node) else Find(rest, name)
  }

  /** Replaces the entry, or adds one. */
  function Put(e: Entries, name: string, node: Node): Entries {
    match e
    case Nil => Cons(name, node, Nil)
    case Cons(n, old_, rest) => if n == name then Cons(n, node, rest) else Cons(n, old_, Put(rest, name, node))
  }

  lemma {:induction false} PutFind(e: Entries, name: string, node: Node, other: string)
    ensures Find(Put(e, name, node), other) == if other == name then Some(node) else Find(e, other)
  {
    match e
    case Nil =>
    case Cons(_, _, rest) => PutFind(rest, name, node, other);
  }

  lemma {:induction false} PutSums(e: Entries, name: string, node: Node)
    ensures BytesIn(Put(e, name, node)) + (if Find(e, name).Some? then NodeBytes(Find(e, name).value) else 0) ==
      BytesIn(e) + NodeBytes(node)
    ensures FilesIn(Put(e, name, node)) + (if Find(e, name).Some? then NodeFiles(Find(e, name).value) else 0) ==
      FilesIn(e) + NodeFiles(node)
  {
    match e
    case Nil =>
    case Cons(_, _, rest) => PutSums(rest, name, node);
  }

  // ---------------------------------------------------------------- one path

  /** Segments that joining onto a directory ignores. */
  predicate Skipped(segment: string) {
    segment == "" || segment == "."
  }

  /** The size of the regular file at the end of a path, if there is one. */
  function ExistingFile(e: Entries, base: string): Result<Option<nat>, Error> {
    if Skipped(base) then Err(DirectoryTarget)
    else
      match Find(e, base)
      case None => Ok(None)
      case Some(File(size)) => Ok(Some(size))
      case Some(Symlink) => Err(SymlinkTarget)
      case Some(Dir(_)) => Err(DirectoryTarget)
      case Some(Special) => Err(SpecialTarget)
  }

  function ExistingFileAt(e: Entries, parents: seq<string>, base: string): Result<Option<nat>, Error>
    decreases |parents|
  {
    if parents == [] then ExistingFile(e, base)
    else if Skipped(parents[0]) then ExistingFileAt(e, parents[1..], base)
    else
      match Find(e, parents[0])
      case None => Ok(None)
      case Some(Symlink) => Err(SymlinkParent)
      case Some(Dir(d)) => ExistingFileAt(d, parents[1..], base)
      case Some(_) => Err(NonDirectoryParent)
  }

  /** The subdirectory to go on in, empty when it has yet to be made. */
  function Below(e: Entries, name: string): Entries {
    match Find(e, name)
    case Some(Dir(d)) => d
    case _ => Nil
  }

  /** The tree once the missing directories are made. */
  function MakeParents(e: Entries, parents: seq<string>): Entries
    decreases |parents|
  {
    if parents == [] then e
    else if Skipped(parents[0]) then MakeParents(e, parents[1..])
    else Put(e, parents[0], Dir(MakeParents(Below(e, parents[0]), parents[1..])))
  }

  /** The tree once the path, parents included, leads to `node`. */
  function WriteAt(e: Entries, parents: seq<string>, base: string, node: Node): Entries
    decreases |parents|
  {
    if parents == [] then Put(e, base, node)
    else if Skipped(parents[0]) then WriteAt(e, parents[1..], base, node)
    else Put(e, parents[0], Dir(WriteAt(Below(e, parents[0]), parents[1..], base, node)))
  }

  /** No existing parent is anything but a directory. */
  predicate ParentsOk(e: Entries, parents: seq<string>)
    decreases |parents|
  {
    parents == [] ||
    (if Skipped(parents[0]) then ParentsOk(e, parents[1..])
     else match Find(e, parents[0])
          case None => true
          case Some(Dir(d)) => ParentsOk(d, parents[1..])
          case _ => false)
  }

  lemma {:induction false} NilParentsOk(parents: seq<string>)
    ensures ParentsOk(Nil, parents)
    decreases |parents|
  {
    if parents != [] {
      NilParentsOk(parents[1..]);
    }
  }

  /** Making directories changes no sum. */
  lemma {:induction false} MakeParentsSums(e: Entries, parents: seq<string>)
    requires ParentsOk(e, parents)
    ensures BytesIn(MakeParents(e, parents)) == BytesIn(e) && FilesIn(MakeParents(e, parents)) == FilesIn(e)
    decreases |parents|
  {
    if parents != [] {
      if Skipped(parents[0]) {
        MakeParentsSums(e, parents[1..]);
      } else {
        NilParentsOk(parents[1..]);
        MakeParentsSums(Below(e, parents[0]), parents[1..]);
        PutSums(e, parents[0], Dir(MakeParents(Below(e, parents[0]), parents[1..])));
      }
    }
  }

  lemma {:induction false} NilHasNoFile(parents: seq<string>, base: string)
    requires !Skipped(base)
    ensures ExistingFileAt(Nil, parents, base) == Ok(None)
    decreases |parents|
  {
    if parents != [] {
      NilHasNoFile(parents[1..], base);
    }
  }

  lemma {:induction false} ExistingMeansParentsOk(e: Entries, parents: seq<string>, base: string)
    requires ExistingFileAt(e, parents, base).Ok?
    ensures ParentsOk(e, parents)
    decreases |parents|
  {
    if parents != [] {
      if Skipped(parents[0]) {
        ExistingMeansParentsOk(e, parents[1..], base);
      } else if Find(e, parents[0]).Some? {
        ExistingMeansParentsOk(Below(e, parents[0]), parents[1..], base);
      }
    }
  }

  /** Writing a file changes the sums by what is written less what was there. */
  lemma {:induction false} WriteSums(e: Entries, parents: seq<string>, base: string, size: nat)
    requires !Skipped(base) && ExistingFileAt(e, parents, base).Ok?
    ensures var previous, r := ExistingFileAt(e, parents, base).value, WriteAt(e, parents, base, File(size));
      BytesIn(r) + (if previous.Some? then previous.value else 0) == BytesIn(e) + size &&
      FilesIn(r) == FilesIn(e) + if previous.Some? then 0 else 1
    decreases |parents|
  {
    if parents == [] {
      PutSums(e, base, File(size));
    } else if Skipped(parents[0]) {
      WriteSums(e, parents[1..], base, size);
    } else {
      NilHasNoFile(parents[1..], base);
      WriteSums(Below(e, parents[0]), parents[1..], base, size);
      PutSums(e, parents[0], Dir(WriteAt(Below(e, parents[0]), parents[1..], base, File(size))));
    }
  }

  // ---------------------------------------------------------------- reading back

  /** The path without the segments that are ignored. */
  function Clean(parents: seq<string>): seq<string> {
    if parents == [] then [] else if Skipped(parents[0]) then Clean(parents[1..])
    else [parents[0]] + Clean(parents[1..])
  }

  /** What a path leads to, other than a directory. */
  function LeafAt(e: Entries, path: seq<string>): Option<Node>
    decreases |path|
  {
    if path == [] then None
    else if |path| == 1 then
      var n := Find(e, path[0]);
      if n.Some? && !n.value.Dir? then n else None
    else
      match Find(e, path[0])
      case Some(Dir(d)) => LeafAt(d, path[1..])
      case _ => None
  }

  lemma {:induction false} NilHasNoLeaf(path: seq<string>)
    ensures LeafAt(Nil, path) == None
  {
  }

  /** A written path reads back, and every other path still leads to what it led to before. */
  lemma {:induction false} WriteReadsBack(e: Entries, parents: seq<string>, base: string, size: nat, path: seq<string>)
    requires !Skipped(base) && ExistingFileAt(e, parents, base).Ok?
    ensures LeafAt(WriteAt(e, parents, base, File(size)), path) ==
      if path == Clean(parents) + [base] then Some(File(size)) else LeafAt(e, path)
    decreases |parents|
  {
    if parents == [] {
      if path != [] {
        PutFind(e, base, File(size), path[0]);
        assert |path| == 1 ==> path == [path[0]];
      }
    } else if Skipped(parents[0]) {
      WriteReadsBack(e, parents[1..], base, size, path);
    } else {
      var d := Below(e, parents[0]);
      NilHasNoFile(parents[1..], base);
      if path != [] {
        PutFind(e, parents[0], Dir(WriteAt(d, parents[1..], base, File(size))), path[0]);
        WriteReadsBack(d, parents[1..], base, size, path[1..]);
        NilHasNoLeaf(path[1..]);
        assert path == [path[0]] + path[1..];
        assert Clean(parents) + [base] == [parents[0]] + (Clean(parents[1..]) + [base]);
        assert ([parents[0]] + (Clean(parents[1..]) + [base]))[1..] == Clean(parents[1..]) + [base];
      }
    }
  }

  // ---------------------------------------------------------------- what is found at a path

  /** Whatever a path leads to, through directories only. */
  function NodeAt(e: Entries, path: seq<string>): Option<Node>
    decreases |path|
  {
    if path == [] then None
    else if |path| == 1 then Find(e, path[0])
    else
      match Find(e, path[0])
      case Some(Dir(d)) => NodeAt(d, path[1..])
      case _ => None
  }

  /** The walk answers by what the path leads to: the size of a regular file; an error for a symlink, a
      directory or a special file; and nothing, or an error about a parent, where it leads nowhere. */
  lemma {:induction false} WalkFindsTheNode(e: Entries, parents: seq<string>, base: string)
    requires !Skipped(base)
    ensures var r := ExistingFileAt(e, parents, base);
      match NodeAt(e, Clean(parents) + [base])
      case Some(File(size)) => r == Ok(Some(size))
      case Some(Symlink) => r == Err(SymlinkTarget)
      case Some(Dir(_)) => r == Err(DirectoryTarget)
      case Some(Special) => r == Err(SpecialTarget)
      case None => r == Ok(None) || r == Err(SymlinkParent) || r == Err(NonDirectoryParent)
    decreases |parents|
  {
    if parents == [] {
      assert Clean(parents) + [base] == [base];
    } else if Skipped(parents[0]) {
      WalkFindsTheNode(e, parents[1..], base);
    } else {
      var path := Clean(parents) + [base];
      assert path[0] == parents[0] && path[1..] == Clean(parents[1..]) + [base];
      match Find(e, parents[0])
      case Some(Dir(d)) => WalkFindsTheNode(d, parents[1..], base);
      case _ =>
    }
  }

  /** A parent that is there and is no directory stops the walk. */
  lemma {:induction false} ParentsStopTheWalk(e: Entries, parents: seq<string>, base: string, k: nat)
    requires 0 < k <= |Clean(parents)| && NodeAt(e, Clean(parents)[..k]).Some? &&
      !NodeAt(e, Clean(parents)[..k]).value.Dir?
    ensures ExistingFileAt(e, parents, base) ==
      Err(if NodeAt(e, Clean(parents)[..k]).value.Symlink? then SymlinkParent else NonDirectoryParent)
    decreases |parents|
  {
    if Skipped(parents[0]) {
      ParentsStopTheWalk(e, parents[1..], base, k);
    } else {
      var path := Clean(parents)[..k];
      assert path[0] == parents[0] && path[1..] == Clean(parents[1..])[..k - 1];
      if k > 1 {
        ParentsStopTheWalk(Below(e, parents[0]), parents[1..], base, k - 1);
      }
    }
  }

  /** And nothing else does. */
  lemma {:induction false} OnlyParentsStopTheWalk(e: Entries, parents: seq<string>, base: string) returns (k: nat)
    requires !Skipped(base)
    requires ExistingFileAt(e, parents, base) == Err(SymlinkParent) ||
      ExistingFileAt(e, parents, base) == Err(NonDirectoryParent)
    ensures 0 < k <= |Clean(parents)| && NodeAt(e, Clean(parents)[..k]).Some? &&
      !NodeAt(e, Clean(parents)[..k]).value.Dir?
    decreases |parents|
  {
    if Skipped(parents[0]) {
      k := OnlyParentsStopTheWalk(e, parents[1..], base);
    } else {
      k := 1;
      assert Clean(parents)[..k] == [parents[0]];
      match Find(e, parents[0])
      case Some(Dir(d)) =>
        k := OnlyParentsStopTheWalk(d, parents[1..], base);
        k := k + 1;
        assert Clean(parents)[..k][1..] == Clean(parents[1..])[..k - 1];
      case _ =>
    }
  }
}
