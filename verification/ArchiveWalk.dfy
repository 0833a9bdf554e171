/** Archiving a directory: the walk that skips excluded subtrees, against the full walk. */
module ArchiveWalk {
  import opened Wrappers
  import opened PathNames

  /** Regular files and directories; the children of a directory in the order in which it lists them. */
  datatype Tree = File(data: string) | Directory(children: Forest)
  datatype Forest = Empty | Grow(name: string, tree: Tree, rest: Forest)

  datatype Entry = FileEntry(path: Path, data: string) | DirEntry(path: Path)

  const EXCLUDES: set<string> := {".git", "node_modules", ".venv", "dist", ".artifacts", ".sandbox-runner", ".DS_Store"}

  predicate Excluded(path: Path) {
    exists i :: 0 <= i < |path| && path[i] in EXCLUDES
  }

  /** Every file and directory beneath `prefix`, a directory before what it contains. */
  function Walk(prefix: Path, forest: Forest): seq<Entry>
    decreases forest
  {
    match forest
    case Empty => []
    case Grow(name, tree, rest) => WalkTree(prefix + [name], tree) + Walk(prefix, rest)
  }

  function WalkTree(path: Path, tree: Tree): seq<Entry>
    decreases tree
  {
    match tree
    case File(data) => [FileEntry(path, data)]
    case Directory(children) => [DirEntry(path)] + Walk(path, children)
  }

  function Keep(entries: seq<Entry>): seq<Entry> {
    if entries == [] then []
    else
      var front, last := Keep(entries[..|entries| - 1]), entries[|entries| - 1];
      if Excluded(last.path) then front else front + [last]
  }

  class TarWriter {
    var entries: seq<Entry>

    constructor ()
      ensures entries == []
    {
      entries := [];
    }

    method Write(e: Entry)
      modifies this
      ensures entries == old(entries) + [e]
    {
      entries := entries + [e];
    }
  }

  method ShouldExclude(path: Path) returns (excluded: bool)
    ensures excluded == Excluded(path)
    ensures var names := {".git", "node_modules", ".venv", "dist", ".artifacts", ".sandbox-runner", ".DS_Store"};
      excluded <==> exists i :: 0 <= i < |path| && path[i] in names
  {
    for i := 0 to |path|
      invariant forall k :: 0 <= k < i ==> path[k] !in EXCLUDES
    {
      if path[i] in EXCLUDES {
        return true;
      }
    }
    return false;
  }

  /** The walk with the callback: an excluded directory is not entered.  What it writes are the
      entries of the full walk without an excluded component. */
  method ArchiveForest(tw: TarWriter, prefix: Path, forest: Forest)
    requires !Excluded(prefix)
    modifies tw
    ensures tw.entries == old(tw.entries) + Keep(Walk(prefix, forest))
    decreases forest
  {
    match forest {
      case Empty =>
        assert old(tw.entries) + [] == old(tw.entries);
      case Grow(name, tree, rest) =>
        ArchiveTree(tw, prefix + [name], tree);
        ArchiveForest(tw, prefix, rest);
        KeepAppend(WalkTree(prefix + [name], tree), Walk(prefix, rest));
        Associate(old(tw.entries), Keep(WalkTree(prefix + [name], tree)), Keep(Walk(prefix, rest)));
    }
  }

  method ArchiveTree(tw: TarWriter, path: Path, tree: Tree)
    requires path != [] && !Excluded(path[..|path| - 1])
    modifies tw
    ensures tw.entries == old(tw.entries) + Keep(WalkTree(path, tree))
    decreases tree
  {
    var excluded := ShouldExclude(path);
    if excluded {
      WalkBeneath(path, tree);
      KeepNothing(WalkTree(path, tree), path);
      assert old(tw.entries) + [] == old(tw.entries);
      return;
    }
    match tree {
      case File(data) =>
        tw.Write(FileEntry(path, data));
        KeepOne(FileEntry(path, data));
      case Directory(children) =>
        tw.Write(DirEntry(path));
        ArchiveForest(tw, path, children);
        KeepOne(DirEntry(path));
        KeepAppend([DirEntry(path)], Walk(path, children));
        Associate(old(tw.entries), [DirEntry(path)], Keep(Walk(path, children)));
    }
  }

  method ArchiveDirectory(root: Forest) returns (entries: seq<Entry>)
    ensures entries == Keep(Walk([], root))
  {
    var tw := new TarWriter();
    ArchiveForest(tw, [], root);
    assert [] + Keep(Walk([], root)) == Keep(Walk([], root));
    entries := tw.entries;
  }

  lemma {:induction false} KeepOne(e: Entry)
    ensures Keep([e]) == if Excluded(e.path) then [] else [e]
  {
    assert [e][..0] == [];
  }

  lemma {:induction false} KeepAppend(a: seq<Entry>, b: seq<Entry>)
    ensures Keep(a + b) == Keep(a) + Keep(b)
  {
    if b == [] {
      assert a + b == a;
    } else {
      hide Excluded;
      var front, last := b[..|b| - 1], b[|b| - 1];
      KeepAppend(a, front);
      assert (a + b)[..|a + b| - 1] == a + front;
      Associate(Keep(a), Keep(front), [last]);
    }
  }

  lemma {:induction false} KeepNothing(entries: seq<Entry>, path: Path)
    requires Excluded(path) && forall e :: e in entries ==> path <= e.path
    ensures Keep(entries) == []
  {
    if entries != [] {
      var last := entries[|entries| - 1];
      KeepNothing(entries[..|entries| - 1], path);
      assert path <= last.path;
      var i :| 0 <= i < |path| && path[i] in EXCLUDES;
      assert last.path[i] == path[i];
    }
  }

  lemma {:induction false} WalkBeneath(path: Path, tree: Tree)
    ensures forall e :: e in WalkTree(path, tree) ==> path <= e.path
    decreases tree
  {
    if tree.Directory? {
      ForestBeneath(path, tree.children);
    }
  }

  lemma {:induction false} ForestBeneath(prefix: Path, forest: Forest)
    ensures forall e :: e in Walk(prefix, forest) ==>
      prefix < e.path && exists name :: name in Names(forest) && prefix + [name] <= e.path
    decreases forest
  {
    if forest.Grow? {
      WalkBeneath(prefix + [forest.name], forest.tree);
      ForestBeneath(prefix, forest.rest);
      forall e | e in Walk(prefix, forest)
        ensures prefix < e.path && exists name :: name in Names(forest) && prefix + [name] <= e.path
      {
        if e in WalkTree(prefix + [forest.name], forest.tree) {
          assert prefix + [forest.name] <= e.path;
        } else {
          assert e in Walk(prefix, forest.rest);
        }
      }
    }
  }

  // ---- pruned trees ----

  function Names(forest: Forest): set<string> {
    match forest case Empty => {} case Grow(name, _, rest) => {name} + Names(rest)
  }

  /** The tree without its excluded subtrees. */
  function Prune(forest: Forest): Forest {
    match forest
    case Empty => Empty
    case Grow(name, tree, rest) => if name in EXCLUDES then Prune(rest) else Grow(name, PruneTree(tree), Prune(rest))
  }

  function PruneTree(tree: Tree): Tree {
    match tree case File(_) => tree case Directory(children) => Directory(Prune(children))
  }

  /** The archive is the full walk of the pruned tree. */
  lemma {:induction false} KeepIsPrune(prefix: Path, forest: Forest)
    requires !Excluded(prefix)
    ensures Keep(Walk(prefix, forest)) == Walk(prefix, Prune(forest))
    decreases forest
  {
    match forest {
      case Empty =>
      case Grow(name, tree, rest) =>
        var path := prefix + [name];
        KeepIsPrune(prefix, rest);
        KeepAppend(WalkTree(path, tree), Walk(prefix, rest));
        if name in EXCLUDES {
          assert path[|prefix|] == name;
          WalkBeneath(path, tree);
          KeepNothing(WalkTree(path, tree), path);
          assert [] + Walk(prefix, Prune(rest)) == Walk(prefix, Prune(rest));
        } else {
          assert !Excluded(path);
          KeepIsPruneTree(path, tree);
        }
    }
  }

  lemma {:induction false} KeepIsPruneTree(path: Path, tree: Tree)
    requires !Excluded(path)
    ensures Keep(WalkTree(path, tree)) == WalkTree(path, PruneTree(tree))
    decreases tree
  {
    match tree {
      case File(data) =>
        KeepOne(FileEntry(path, data));
      case Directory(children) =>
        KeepOne(DirEntry(path));
        KeepAppend([DirEntry(path)], Walk(path, children));
        KeepIsPrune(path, children);
    }
  }
}
