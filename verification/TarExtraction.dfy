/** Extracting an archive into a directory of a file system, entry by entry, and the round trip with
    archiving.  Paths of the file system are absolute, as components; regular files and directories
    only.  A relative directory is resolved from the working directory, `cwd`. */
module TarExtraction {
  import opened Wrappers
  import opened PathNames
  import opened ArchiveWalk

  datatype Node = Content(data: string) | Folder

  type Nodes = map<Path, Node>

  datatype Kind = TypeDir | TypeReg | OtherType

  datatype Header = Header(name: string, kind: Kind, data: string)

  function Parent(p: Path): Path {
    if p == [] then [] else p[..|p| - 1]
  }

  predicate IsFolder(nodes: Nodes, p: Path) {
    p in nodes && nodes[p].Folder?
  }

  /** The root is a directory, and everything lies in a directory. */
  ghost predicate WellFormed(nodes: Nodes) {
    IsFolder(nodes, []) && forall p {:trigger Parent(p)} :: p in nodes ==> IsFolder(nodes, Parent(p))
  }

  /** The absolute path that a cleaned one stands for. */
  function At(cwd: Path, rooted: bool, p: Path): Path {
    if rooted then p else Reduce(true, cwd, p)
  }

  /** The directory extracted into, and where an entry of that name goes. */
  function Base(cwd: Path, dest: string): Path {
    At(cwd, Rooted(dest), CleanPath(dest))
  }

  function Place(cwd: Path, dest: string, name: string): Path {
    At(cwd, Rooted(dest), TargetPath(dest, name))
  }

  /** An absolute directory is taken as it is; a relative one lies beneath the working directory, or, for
      each `..` it begins with, one level further up. */
  lemma {:induction false} BaseIs(cwd: Path, dest: string, n: nat)
    requires n <= |CleanPath(dest)| && n <= |cwd| && ".." !in cwd
    requires (forall i :: 0 <= i < n ==> CleanPath(dest)[i] == "..") && ".." !in CleanPath(dest)[n..]
    ensures Base(cwd, dest) == if Rooted(dest) then CleanPath(dest) else cwd[..|cwd| - n] + CleanPath(dest)[n..]
  {
    hide CleanPath, Reduce;
    var p := CleanPath(dest);
    assert p == p[..n] + p[n..];
    ReduceAppend(true, cwd, p[..n], p[n..]);
    Climb(cwd, p[..n]);
    ReducePlain(true, Reduce(true, cwd, p[..n]), p[n..]);
  }

  lemma {:induction false} Climb(cwd: Path, ups: Path)
    requires |ups| <= |cwd| && ".." !in cwd && forall i :: 0 <= i < |ups| ==> ups[i] == ".."
    ensures Reduce(true, cwd, ups) == cwd[..|cwd| - |ups|]
  {
    if ups == [] {
      assert cwd[..|cwd|] == cwd;
    } else {
      var n := |ups| - 1;
      Climb(cwd, ups[..n]);
      var reached := cwd[..|cwd| - n];
      assert cwd[|reached| - 1] in cwd;
    }
  }

  // ---- what the operations do ----

  ghost function Prefixes(p: Path): set<Path> {
    set i | 0 <= i <= |p| :: p[..i]
  }

  /** Nothing on the way is a file. */
  ghost predicate CanMkdirAll(nodes: Nodes, p: Path) {
    forall q :: q in Prefixes(p) && q in nodes ==> nodes[q].Folder?
  }

  ghost function WithFolders(nodes: Nodes, p: Path): Nodes {
    nodes + map q | q in Prefixes(p) :: Folder
  }

  /** One entry, applied or refused; other types of entries are passed over. */
  ghost function Apply(nodes: Nodes, cwd: Path, dest: string, h: Header): Option<Nodes> {
    var p := Place(cwd, dest, h.name);
    if !Accepted(dest, h.name) then None
    else
      match h.kind
      case TypeDir => if CanMkdirAll(nodes, p) then Some(WithFolders(nodes, p)) else None
      case TypeReg =>
        if CanMkdirAll(nodes, Parent(p)) && !IsFolder(WithFolders(nodes, Parent(p)), p) then
          Some(WithFolders(nodes, Parent(p))[p := Content(h.data)])
        else None
      case OtherType => Some(nodes)
  }

  ghost function ApplyAll(nodes: Nodes, cwd: Path, dest: string, headers: seq<Header>): Option<Nodes> {
    if headers == [] then Some(nodes)
    else
      match ApplyAll(nodes, cwd, dest, headers[..|headers| - 1])
      case None => None
      case Some(before) => Apply(before, cwd, dest, headers[|headers| - 1])
  }

  // ---- the file system ----

  class FileSystem {
    const cwd: Path
    var nodes: Nodes

    /** A file system with nothing but a working directory. */
    constructor (cwd: Path)
      ensures this.cwd == cwd && nodes == WithFolders(map[], cwd) && WellFormed(nodes)
    {
      this.cwd, nodes := cwd, map[[] := Folder];
      new;
      assert cwd[..0] == [];
      var _ := MkdirAll(cwd);
    }

    /** os.MkdirAll */
    method MkdirAll(p: Path) returns (ok: bool)
      requires WellFormed(nodes)
      modifies this
      ensures WellFormed(nodes)
      ensures ok == CanMkdirAll(old(nodes), p)
      ensures nodes == if ok then WithFolders(old(nodes), p) else old(nodes)
      decreases |p|
    {
      if p in nodes {
        ExistingFolders(nodes, p);
        return nodes[p].Folder?;
      }
      PrefixesStep(p);
      ok := MkdirAll(Parent(p));
      if ok {
        nodes := nodes[p := Folder];
        WithFoldersStep(old(nodes), p);
        WithFoldersWellFormed(old(nodes), p);
      }
    }

    /** Opening a file for writing, truncating or creating it. */
    method WriteFile(p: Path, data: string) returns (ok: bool)
      requires WellFormed(nodes) && IsFolder(nodes, Parent(p))
      modifies this
      ensures WellFormed(nodes)
      ensures ok == !IsFolder(old(nodes), p)
      ensures nodes == if ok then old(nodes)[p := Content(data)] else old(nodes)
    {
      if p in nodes && nodes[p].Folder? {
        return false;
      }
      FileWellFormed(nodes, p, data);
      hide WellFormed;
      nodes := nodes[p := Content(data)];
      ok := true;
    }

    /** `refused` is the index of the first entry that could not be applied: everything before it
        has been applied in order, and nothing of it or after it. */
    method ExtractTar(headers: seq<Header>, dest: string) returns (refused: Option<nat>)
      requires WellFormed(nodes)
      modifies this
      ensures WellFormed(nodes)
      ensures match refused
        case None => ApplyAll(old(nodes), cwd, dest, headers) == Some(nodes)
        case Some(k) =>
          && k < |headers| && ApplyAll(old(nodes), cwd, dest, headers[..k]) == Some(nodes)
          && Apply(nodes, cwd, dest, headers[k]) == None
    {
      hide Apply, WellFormed, ApplyAll;
      var i := 0;
      ApplyNothing(nodes, cwd, dest, headers);
      while i < |headers|
        invariant 0 <= i <= |headers| && WellFormed(nodes)
        invariant ApplyAll(old(nodes), cwd, dest, headers[..i]) == Some(nodes)
      {
        ApplyNext(old(nodes), cwd, dest, headers, i);
        var ok := ExtractEntry(headers[i], dest);
        if !ok {
          return Some(i);
        }
        i := i + 1;
      }
      assert headers[..i] == headers;
      refused := None;
    }

    method ExtractEntry(h: Header, dest: string) returns (ok: bool)
      requires WellFormed(nodes)
      modifies this
      ensures WellFormed(nodes)
      ensures if ok then Apply(old(nodes), cwd, dest, h) == Some(nodes)
        else Apply(old(nodes), cwd, dest, h) == None && nodes == old(nodes)
    {
      hide CanMkdirAll, WithFolders, WellFormed, Accepted;
      var p := Place(cwd, dest, h.name);
      if !Accepted(dest, h.name) {
        return false;
      }
      match h.kind {
        case TypeDir =>
          ok := MkdirAll(p);
        case TypeReg =>
          ok := MkdirAll(Parent(p));
          if ok {
            WithFoldersFolder(old(nodes), Parent(p));
            ok := WriteFile(p, h.data);
            FolderWithoutChange(old(nodes), p);
          }
        case OtherType =>
          ok := true;
      }
    }
  }

  lemma {:induction false} ApplyNothing(nodes: Nodes, cwd: Path, dest: string, headers: seq<Header>)
    ensures ApplyAll(nodes, cwd, dest, headers[..0]) == Some(nodes)
  {
  }

  lemma {:induction false} ApplyNext(nodes: Nodes, cwd: Path, dest: string, headers: seq<Header>, i: nat)
    requires i < |headers| && ApplyAll(nodes, cwd, dest, headers[..i]).Some?
    ensures ApplyAll(nodes, cwd, dest, headers[..i + 1]) == Apply(ApplyAll(nodes, cwd, dest, headers[..i]).value, cwd, dest, headers[i])
  {
    hide Apply;
    assert headers[..i + 1][..i] == headers[..i];
  }

  lemma {:induction false} PrefixesStep(p: Path)
    ensures p != [] ==> Prefixes(p) == Prefixes(Parent(p)) + {p}
  {
    if p != [] {
      assert p[..|p|] == p;
      forall q | q in Prefixes(p) ensures q in Prefixes(Parent(p)) + {p} {
        var i :| 0 <= i <= |p| && q == p[..i];
        assert i < |p| ==> Parent(p)[..i] == p[..i];
      }
      forall q | q in Prefixes(Parent(p)) ensures q in Prefixes(p) {
        var i :| 0 <= i <= |Parent(p)| && q == Parent(p)[..i];
        assert Parent(p)[..i] == p[..i];
      }
    }
  }

  lemma {:induction false} Ancestor(nodes: Nodes, p: Path, i: nat)
    requires WellFormed(nodes) && p in nodes && i < |p|
    ensures IsFolder(nodes, p[..i])
    decreases |p|
  {
    assert IsFolder(nodes, Parent(p));
    if i < |p| - 1 {
      Ancestor(nodes, Parent(p), i);
      assert Parent(p)[..i] == p[..i];
    }
  }

  /** Of an existing path, everything above it is a directory; so only the path itself can be in the way. */
  lemma {:induction false} ExistingFolders(nodes: Nodes, p: Path)
    requires WellFormed(nodes) && p in nodes
    ensures CanMkdirAll(nodes, p) <==> nodes[p].Folder?
    ensures nodes[p].Folder? ==> WithFolders(nodes, p) == nodes
  {
    assert p[..|p|] == p;
    assert p in Prefixes(p);
    forall q | q in Prefixes(p) && q != p ensures IsFolder(nodes, q) {
      var i :| 0 <= i <= |p| && q == p[..i];
      Ancestor(nodes, p, i);
    }
  }

  lemma {:induction false} WithFoldersStep(nodes: Nodes, p: Path)
    requires p != []
    ensures WithFolders(nodes, p) == WithFolders(nodes, Parent(p))[p := Folder]
  {
    PrefixesStep(p);
  }

  lemma {:induction false} WithFoldersFolder(nodes: Nodes, p: Path)
    ensures IsFolder(WithFolders(nodes, p), p)
  {
    assert p[..|p|] == p;
    assert p in Prefixes(p);
  }

  lemma {:induction false} WithFoldersWellFormed(nodes: Nodes, p: Path)
    requires WellFormed(nodes)
    ensures WellFormed(WithFolders(nodes, p))
  {
    forall q | q in WithFolders(nodes, p) ensures IsFolder(WithFolders(nodes, p), Parent(q)) {
      if q in Prefixes(p) {
        var i :| 0 <= i <= |p| && q == p[..i];
        assert Parent(q) == p[..if i == 0 then 0 else i - 1];
      }
    }
    assert p[..0] == [];
  }

  lemma {:induction false} ParentShorter(p: Path)
    ensures p != [] ==> Parent(p) != p
  {
  }

  lemma {:induction false} FileWellFormed(nodes: Nodes, p: Path, data: string)
    requires WellFormed(nodes) && IsFolder(nodes, Parent(p)) && !IsFolder(nodes, p)
    ensures WellFormed(nodes[p := Content(data)])
  {
    hide Parent;
    ParentShorter(p);
    var after := nodes[p := Content(data)];
    forall q | q in after ensures IsFolder(after, Parent(q)) {
      assert q != p ==> IsFolder(nodes, Parent(q));
    }
  }

  /** If the target is a directory, making its parents has changed nothing. */
  lemma {:induction false} FolderWithoutChange(nodes: Nodes, p: Path)
    requires WellFormed(nodes)
    ensures IsFolder(WithFolders(nodes, Parent(p)), p) ==> WithFolders(nodes, Parent(p)) == nodes
  {
    if IsFolder(WithFolders(nodes, Parent(p)), p) {
      if p in Prefixes(Parent(p)) {
        var i :| 0 <= i <= |Parent(p)| && p == Parent(p)[..i];
        assert p == [];
        ExistingFolders(nodes, []);
      } else {
        assert p in nodes;
        assert IsFolder(nodes, Parent(p));
        ExistingFolders(nodes, Parent(p));
      }
    }
  }

  // ---- where extraction writes ----

  lemma {:induction false} MoreIsBeneath(cwd: Path, rooted: bool, dir: Path, more: Path)
    requires ".." !in more
    ensures At(cwd, rooted, dir) <= At(cwd, rooted, dir + more)
  {
    hide Reduce;
    ReduceAppend(true, cwd, dir, more);
    ReducePlain(true, Reduce(true, cwd, dir), more);
  }

  lemma {:induction false} PlaceIsBeneath(cwd: Path, dest: string, name: string)
    requires !LeadsUp(dest) && Accepted(dest, name)
    ensures Base(cwd, dest) <= Place(cwd, dest, name)
  {
    hide CleanPath, TargetPath, Accepted, At, LeadsUp;
    var dir, p := CleanPath(dest), TargetPath(dest, name);
    AcceptedIsBeneath(dest, name);
    assert p == dir + p[|dir|..];
    MoreIsBeneath(cwd, Rooted(dest), dir, p[|dir|..]);
  }

  /** Entries change nothing outside the directory, except that the missing ones above it are made. */
  lemma {:induction false} ApplyStaysBeneath(nodes: Nodes, cwd: Path, dest: string, h: Header, p: Path)
    requires WellFormed(nodes) && !LeadsUp(dest) && Apply(nodes, cwd, dest, h).Some? && !(Base(cwd, dest) <= p)
    ensures var after := Apply(nodes, cwd, dest, h).value;
      && WellFormed(after)
      && (p in nodes ==> p in after && after[p] == nodes[p])
      && (p in after && p !in nodes ==> p < Base(cwd, dest) && after[p].Folder? && Base(cwd, dest) !in nodes)
  {
    hide Accepted, Place, Base, LeadsUp;
    var dir, target := Base(cwd, dest), Place(cwd, dest, h.name);
    PlaceIsBeneath(cwd, dest, h.name);
    match h.kind {
      case TypeDir =>
        FoldersStayBeneath(nodes, dir, target, p);
      case TypeReg =>
        FileStaysBeneath(nodes, dir, target, h.data, p);
      case OtherType =>
    }
  }

  lemma {:induction false} FoldersStayBeneath(nodes: Nodes, dir: Path, target: Path, p: Path)
    requires WellFormed(nodes) && CanMkdirAll(nodes, target) && (dir <= target || target < dir) && !(dir <= p)
    ensures var after := WithFolders(nodes, target);
      && WellFormed(after)
      && (p in nodes ==> p in after && after[p] == nodes[p])
      && (p in after && p !in nodes ==> p < dir && after[p].Folder? && dir !in nodes)
  {
    WithFoldersWellFormed(nodes, target);
    if p in Prefixes(target) && p !in nodes {
      var i :| 0 <= i <= |target| && p == target[..i];
      assert dir <= target ==> dir == target[..|dir|];
      assert i < |dir| && p == dir[..i];
      if dir in nodes {
        Ancestor(nodes, dir, i);
      }
    }
  }

  lemma {:induction false} FileStaysBeneath(nodes: Nodes, dir: Path, target: Path, data: string, p: Path)
    requires WellFormed(nodes) && CanMkdirAll(nodes, Parent(target))
    requires !IsFolder(WithFolders(nodes, Parent(target)), target)
    requires dir <= target && !(dir <= p)
    ensures var after := WithFolders(nodes, Parent(target))[target := Content(data)];
      && WellFormed(after)
      && (p in nodes ==> p in after && after[p] == nodes[p])
      && (p in after && p !in nodes ==> p < dir && after[p].Folder? && dir !in nodes)
  {
    WithFoldersWellFormed(nodes, Parent(target));
    WithFoldersFolder(nodes, Parent(target));
    FileWellFormed(WithFolders(nodes, Parent(target)), target, data);
    FoldersStayBeneath(nodes, dir, Parent(target), p);
  }

  lemma {:induction false} AllStaysBeneath(nodes: Nodes, cwd: Path, dest: string, headers: seq<Header>, p: Path)
    requires WellFormed(nodes) && !LeadsUp(dest) && ApplyAll(nodes, cwd, dest, headers).Some? && !(Base(cwd, dest) <= p)
    ensures var after := ApplyAll(nodes, cwd, dest, headers).value;
      && WellFormed(after)
      && (p in nodes ==> p in after && after[p] == nodes[p])
      && (p in after && p !in nodes ==> p < Base(cwd, dest) && after[p].Folder? && Base(cwd, dest) !in nodes)
  {
    if headers != [] {
      hide Apply, WellFormed, Base, LeadsUp;
      var front, last := headers[..|headers| - 1], headers[|headers| - 1];
      AllStaysBeneath(nodes, cwd, dest, front, p);
      var before := ApplyAll(nodes, cwd, dest, front).value;
      ApplyStaysBeneath(before, cwd, dest, last, p);
      if Base(cwd, dest) in nodes {
        NothingRemovedByAll(nodes, cwd, dest, front, Base(cwd, dest));
      }
    }
  }

  /** Extraction removes nothing. */
  lemma {:induction false} NothingRemovedByAll(nodes: Nodes, cwd: Path, dest: string, headers: seq<Header>, p: Path)
    requires ApplyAll(nodes, cwd, dest, headers).Some? && p in nodes
    ensures p in ApplyAll(nodes, cwd, dest, headers).value
  {
    if headers != [] {
      NothingRemovedByAll(nodes, cwd, dest, headers[..|headers| - 1], p);
    }
  }

  // ---- the round trip ----

  /** Names as a file system has them, distinct within a directory. */
  predicate ValidForest(forest: Forest)
    decreases forest
  {
    match forest
    case Empty => true
    case Grow(name, tree, rest) =>
      IsComponent(name) && name != ".." && name !in Names(rest) && ValidTree(tree) && ValidForest(rest)
  }

  predicate ValidTree(tree: Tree)
    decreases tree
  {
    tree.Directory? ==> ValidForest(tree.children)
  }

  /** The part of the file system that a tree at `prefix` stands for. */
  function Image(prefix: Path, forest: Forest): Nodes
    decreases forest
  {
    match forest
    case Empty => map[]
    case Grow(name, tree, rest) => ImageTree(prefix + [name], tree) + Image(prefix, rest)
  }

  function ImageTree(path: Path, tree: Tree): Nodes
    decreases tree
  {
    match tree
    case File(data) => map[path := Content(data)]
    case Directory(children) => map[path := Folder] + Image(path, children)
  }

  /** The header of an archive entry; the name of a directory ends in a slash. */
  function HeaderOf(e: Entry): Header {
    match e
    case FileEntry(path, data) => Header(Joined(path), TypeReg, data)
    case DirEntry(path) => Header(Joined(path) + "/", TypeDir, "")
  }

  function HeadersOf(entries: seq<Entry>): seq<Header> {
    if entries == [] then []
    else HeadersOf(entries[..|entries| - 1]) + [HeaderOf(entries[|entries| - 1])]
  }

  lemma {:induction false} HeadersSnoc(entries: seq<Entry>, e: Entry)
    ensures HeadersOf([]) == [] && HeadersOf(entries + [e]) == HeadersOf(entries) + [HeaderOf(e)]
  {
    hide HeaderOf;
    assert (entries + [e])[..|entries|] == entries;
  }

  lemma {:induction false} HeadersAppend(a: seq<Entry>, b: seq<Entry>)
    ensures HeadersOf(a + b) == HeadersOf(a) + HeadersOf(b)
  {
    hide HeaderOf, HeadersOf;
    if b == [] {
      HeadersSnoc([], DirEntry([]));
      assert a + b == a;
    } else {
      var front, last := b[..|b| - 1], b[|b| - 1];
      assert b == front + [last] && a + b == (a + front) + [last];
      HeadersAppend(a, front);
      HeadersSnoc(a + front, last);
      HeadersSnoc(front, last);
      Associate(HeadersOf(a), HeadersOf(front), [HeaderOf(last)]);
    }
  }

  lemma {:induction false} ApplyAppend(nodes: Nodes, cwd: Path, dest: string, a: seq<Header>, b: seq<Header>)
    requires ApplyAll(nodes, cwd, dest, a).Some?
    ensures ApplyAll(nodes, cwd, dest, a + b) == ApplyAll(ApplyAll(nodes, cwd, dest, a).value, cwd, dest, b)
  {
    hide Apply;
    if b == [] {
      assert a + b == a;
    } else {
      var front, last := b[..|b| - 1], b[|b| - 1];
      ApplyAppend(nodes, cwd, dest, a, front);
      assert (a + b)[..|a + b| - 1] == a + front;
    }
  }

  /** Nothing is at `p` or beneath it. */
  ghost predicate Vacant(nodes: Nodes, p: Path) {
    forall q :: q in nodes ==> !(p <= q)
  }

  lemma {:induction false} ImageTreeBeneath(path: Path, tree: Tree)
    ensures forall q :: q in ImageTree(path, tree) ==> path <= q
    decreases tree
  {
    if tree.Directory? {
      ImageBeneath(path, tree.children);
    }
  }

  lemma {:induction false} ImageBeneath(prefix: Path, forest: Forest)
    ensures forall q :: q in Image(prefix, forest) ==> prefix < q && q[|prefix|] in Names(forest)
    decreases forest
  {
    if forest.Grow? {
      var path := prefix + [forest.name];
      ImageTreeBeneath(path, forest.tree);
      ImageBeneath(prefix, forest.rest);
      assert path[|prefix|] == forest.name;
    }
  }

  /** The name of an archive entry is accepted, and goes beneath the directory, except in the root
      and the current directory. */
  lemma {:induction false} PlaceOfEntry(cwd: Path, dest: string, e: Entry)
    requires e.path != [] && AreComponents(e.path) && ".." !in e.path
    ensures Accepted(dest, HeaderOf(e).name) <==> CleanPath(dest) != []
    ensures Place(cwd, dest, HeaderOf(e).name) == Base(cwd, dest) + e.path
  {
    hide Accepted, TargetPath, CleanPath, Joined, AreComponents, Reduce;
    PlainNameAccepted(dest, e.path, false);
    PlainNameAccepted(dest, e.path, true);
    assert Joined(e.path) + "" == Joined(e.path);
    ReduceAppend(true, cwd, CleanPath(dest), e.path);
    ReducePlain(true, Reduce(true, cwd, CleanPath(dest)), e.path);
  }

  /** One header of the archive, with its directory in place and nothing in its own. */
  lemma {:induction false} ApplyHeader(nodes: Nodes, cwd: Path, dest: string, e: Entry)
    requires WellFormed(nodes) && CleanPath(dest) != []
    requires e.path != [] && AreComponents(e.path) && ".." !in e.path
    requires var p := Base(cwd, dest) + e.path; IsFolder(nodes, Parent(p)) && p !in nodes
    ensures var p := Base(cwd, dest) + e.path;
      Apply(nodes, cwd, dest, HeaderOf(e)) == Some(nodes[p := if e.FileEntry? then Content(e.data) else Folder])
  {
    var p := Base(cwd, dest) + e.path;
    PlaceOfEntry(cwd, dest, e);
    hide Accepted, Place, Base, CleanPath, Joined, AreComponents;
    ExistingFolders(nodes, Parent(p));
    PrefixesStep(p);
    WithFoldersStep(nodes, p);
  }

  lemma {:induction false} KeepsWellFormed(nodes: Nodes, cwd: Path, dest: string, h: Header)
    requires WellFormed(nodes) && Apply(nodes, cwd, dest, h).Some?
    ensures WellFormed(Apply(nodes, cwd, dest, h).value)
  {
    var p := Place(cwd, dest, h.name);
    hide Accepted, TargetPath, CanMkdirAll;
    WithFoldersWellFormed(nodes, p);
    WithFoldersWellFormed(nodes, Parent(p));
    WithFoldersFolder(nodes, Parent(p));
    if h.kind.TypeReg? {
      FileWellFormed(WithFolders(nodes, Parent(p)), p, h.data);
    }
  }

  lemma {:induction false} ApplyOne(nodes: Nodes, cwd: Path, dest: string, e: Entry)
    ensures ApplyAll(nodes, cwd, dest, HeadersOf([e])) == Apply(nodes, cwd, dest, HeaderOf(e))
  {
    assert [e][..0] == [] && [HeaderOf(e)][..0] == [];
    assert HeadersOf([e]) == [HeaderOf(e)];
    assert ApplyAll(nodes, cwd, dest, []) == Some(nodes);
  }

  /** Where a walk of a valid tree may be extracted. */
  ghost predicate Extractable(nodes: Nodes, cwd: Path, dest: string, path: Path) {
    && WellFormed(nodes) && CleanPath(dest) != [] && AreComponents(path) && ".." !in path
  }

  lemma {:induction false} MadeThenFilled(nodes: Nodes, p: Path, children: Forest)
    ensures nodes[p := Folder] + Image(p, children) == nodes + ImageTree(p, Directory(children))
  {
    hide Image;
    MergeAssociates(nodes, map[p := Folder], Image(p, children));
  }

  lemma {:induction false} ExtractTree(nodes: Nodes, cwd: Path, dest: string, path: Path, tree: Tree)
    requires Extractable(nodes, cwd, dest, path) && path != [] && ValidTree(tree)
    requires var p := Base(cwd, dest) + path; IsFolder(nodes, Parent(p)) && Vacant(nodes, p)
    ensures var after := nodes + ImageTree(Base(cwd, dest) + path, tree);
      ApplyAll(nodes, cwd, dest, HeadersOf(WalkTree(path, tree))) == Some(after) && WellFormed(after)
    decreases tree
  {
    hide HeadersOf, ApplyAll, Apply, CleanPath, AreComponents, WellFormed, Base, Image;
    var p := Base(cwd, dest) + path;
    var e := if tree.File? then FileEntry(path, tree.data) else DirEntry(path);
    ApplyHeader(nodes, cwd, dest, e);
    ApplyOne(nodes, cwd, dest, e);
    KeepsWellFormed(nodes, cwd, dest, HeaderOf(e));
    if tree.File? {
      assert nodes + map[p := Content(tree.data)] == nodes[p := Content(tree.data)];
    } else {
      var made := nodes[p := Folder];
      ExtractForest(made, cwd, dest, path, tree.children);
      HeadersAppend([e], Walk(path, tree.children));
      ApplyAppend(nodes, cwd, dest, HeadersOf([e]), HeadersOf(Walk(path, tree.children)));
      MadeThenFilled(nodes, p, tree.children);
    }
  }

  lemma {:induction false} ExtractForest(nodes: Nodes, cwd: Path, dest: string, path: Path, forest: Forest)
    requires Extractable(nodes, cwd, dest, path) && ValidForest(forest)
    requires var p := Base(cwd, dest) + path;
      IsFolder(nodes, p) && forall q :: q in nodes && p < q ==> q[|p|] !in Names(forest)
    ensures var after := nodes + Image(Base(cwd, dest) + path, forest);
      ApplyAll(nodes, cwd, dest, HeadersOf(Walk(path, forest))) == Some(after) && WellFormed(after)
    decreases forest
  {
    hide HeadersOf, ApplyAll, Apply, CleanPath, WellFormed, ImageTree;
    var p := Base(cwd, dest) + path;
    match forest {
      case Empty =>
        HeadersOfNothing(nodes, cwd, dest);
        assert nodes + map[] == nodes;
      case Grow(name, tree, rest) =>
        var inner := path + [name];
        assert Base(cwd, dest) + inner == p + [name];
        assert (p + [name])[|p|] == name;
        assert Parent(p + [name]) == p;
        ExtractTree(nodes, cwd, dest, inner, tree);
        var mid := nodes + ImageTree(p + [name], tree);
        ImageTreeBeneath(p + [name], tree);
        RestIsVacant(nodes, p, name, tree, rest);
        ExtractForest(mid, cwd, dest, path, rest);
        HeadersAppend(WalkTree(inner, tree), Walk(path, rest));
        ApplyAppend(nodes, cwd, dest, HeadersOf(WalkTree(inner, tree)), HeadersOf(Walk(path, rest)));
        MergeAssociates(nodes, ImageTree(p + [name], tree), Image(p, rest));
    }
  }

  lemma {:induction false} MergeAssociates(a: Nodes, b: Nodes, c: Nodes)
    ensures (a + b) + c == a + (b + c)
  {
  }

  lemma {:induction false} HeadersOfNothing(nodes: Nodes, cwd: Path, dest: string)
    ensures ApplyAll(nodes, cwd, dest, HeadersOf([])) == Some(nodes)
  {
  }

  lemma {:induction false} RestIsVacant(nodes: Nodes, p: Path, name: string, tree: Tree, rest: Forest)
    requires IsFolder(nodes, p) && name !in Names(rest)
    requires forall q :: q in nodes && p < q ==> q[|p|] !in Names(Grow(name, tree, rest))
    ensures var mid := nodes + ImageTree(p + [name], tree);
      IsFolder(mid, p) && forall q :: q in mid && p < q ==> q[|p|] !in Names(rest)
  {
    ImageTreeBeneath(p + [name], tree);
    var image := ImageTree(p + [name], tree);
    assert !(p + [name] <= p);
    forall q | q in image ensures q[|p|] == name {
      assert (p + [name])[|p|] == name;
    }
  }

  lemma {:induction false} PrunedNames(forest: Forest)
    ensures Names(Prune(forest)) <= Names(forest)
    ensures ValidForest(forest) ==> ValidForest(Prune(forest))
    decreases forest
  {
    if forest.Grow? {
      PrunedNames(forest.rest);
      if forest.tree.Directory? {
        PrunedNames(forest.tree.children);
      }
      assert ValidTree(forest.tree) ==> ValidTree(PruneTree(forest.tree));
    }
  }

  lemma {:induction false} RefusedAtOnce(nodes: Nodes, cwd: Path, dest: string, headers: seq<Header>)
    requires headers != [] && Apply(nodes, cwd, dest, headers[0]) == None
    ensures ApplyAll(nodes, cwd, dest, headers) == None
  {
    hide Apply;
    if |headers| > 1 {
      RefusedAtOnce(nodes, cwd, dest, headers[..|headers| - 1]);
    } else {
      assert headers[..0] == [];
    }
  }

  /** The first entry of a walk, and its name. */
  lemma {:induction false} WalkBegins(forest: Forest) returns (e: Entry, more: seq<Entry>)
    requires forest.Grow? && ValidForest(forest)
    ensures Walk([], forest) == [e] + more
    ensures e.path != [] && AreComponents(e.path) && ".." !in e.path
  {
    var path := [] + [forest.name];
    match forest.tree {
      case File(data) =>
        e, more := FileEntry(path, data), Walk([], forest.rest);
      case Directory(children) =>
        e, more := DirEntry(path), Walk(path, children) + Walk([], forest.rest);
        assert WalkTree(path, forest.tree) == [e] + Walk(path, children);
        Associate([e], Walk(path, children), Walk([], forest.rest));
    }
  }

  /** Archiving a directory and extracting the archive into an empty one rebuilds the directory
      without its excluded subtrees, and changes nothing else.  In the root and the current
      directory every archive that is not empty is refused. */
  lemma {:induction false} RoundTrip(nodes: Nodes, cwd: Path, dest: string, root: Forest)
    requires WellFormed(nodes) && ValidForest(root)
    requires IsFolder(nodes, Base(cwd, dest)) && forall q :: q in nodes ==> !(Base(cwd, dest) < q)
    ensures ApplyAll(nodes, cwd, dest, HeadersOf(Keep(Walk([], root))))
      == if CleanPath(dest) != [] || Prune(root).Empty? then Some(nodes + Image(Base(cwd, dest), Prune(root))) else None
  {
    hide HeadersOf, ApplyAll, Apply, CleanPath, Walk, Keep, Base;
    KeepIsPrune([], root);
    PrunedNames(root);
    if CleanPath(dest) != [] {
      assert Base(cwd, dest) + [] == Base(cwd, dest);
      ExtractForest(nodes, cwd, dest, [], Prune(root));
    } else if Prune(root).Grow? {
      NothingFitsTheRoot(nodes, cwd, dest, Prune(root));
    } else {
      WalkOfNothing(nodes, cwd, dest);
      assert nodes + map[] == nodes;
    }
  }

  lemma {:induction false} WalkOfNothing(nodes: Nodes, cwd: Path, dest: string)
    ensures ApplyAll(nodes, cwd, dest, HeadersOf(Walk([], Empty))) == Some(nodes)
  {
  }

  lemma {:induction false} NothingFitsTheRoot(nodes: Nodes, cwd: Path, dest: string, forest: Forest)
    requires forest.Grow? && ValidForest(forest) && CleanPath(dest) == []
    ensures ApplyAll(nodes, cwd, dest, HeadersOf(Walk([], forest))) == None
  {
    hide HeadersOf, ApplyAll, CleanPath, Walk, Place, HeaderOf, ValidForest, AreComponents, Accepted;
    var e, more := WalkBegins(forest);
    HeadersAppend([e], more);
    OneHeader(e);
    PlaceOfEntry(cwd, dest, e);
    RefusedAtOnce(nodes, cwd, dest, HeadersOf([e] + more));
  }

  lemma {:induction false} OneHeader(e: Entry)
    ensures HeadersOf([e]) == [HeaderOf(e)]
  {
    assert [e][..0] == [];
  }
}
