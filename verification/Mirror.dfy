/** Trees of entries, what scans show of them, and what each operation is meant to do to them. */
module Mirror {
  import opened Paths
  import opened Model
  import opened Order
  import opened Scans

  // ------------------------------------------------------------ trees and effects

  datatype Node = DirNode | FileNode(path: Path, stat: Stat)

  type Tree = map<Key, Node>

  function Lookup(t: Tree, key: Key): Option<Node> {
    if key in t then Some(t[key]) else None
  }

  predicate HasParent(t: Tree, key: Key) {
    |key| == 1 || (|key| > 1 && Lookup(t, Parent(key)) == Some(DirNode))
  }

  ghost predicate HoldsFile(t: Tree, key: Key, stat: Option<Stat>) {
    key in t && t[key].FileNode? && stat == Some(t[key].stat)
  }

  /** The abstract effect of an operation; `None` when the tree does not admit it. */
  ghost function Apply(op: Operation, t: Tree): Option<Tree> {
    var key := Fold(op.target);
    if op.blocked.Some? then None
    else match op.kind
      case Mkdir =>
        if key !in t && HasParent(t, key) then Some(t[key := DirNode]) else None
      case Copy =>
        if key !in t && HasParent(t, key) && op.intended.Some? then Some(t[key := FileNode(op.target, op.intended.value)]) else None
      case Update =>
        if HoldsFile(t, key, op.targetExpected) && op.intended.Some? then Some(t[key := FileNode(op.target, op.intended.value)]) else None
      case Noop =>
        if HoldsFile(t, key, op.targetExpected) then Some(t) else None
      case Recase =>
        if HoldsFile(t, key, op.targetExpected) && op.prior.Some? && Fold(op.prior.value) == key
        then Some(t[key := FileNode(op.target, t[key].stat)]) else None
      case Move =>
        if op.prior.Some? && HoldsFile(t, Fold(op.prior.value), op.priorExpected) && key !in t && HasParent(t, key)
        then Some((t - {Fold(op.prior.value)})[key := FileNode(op.target, op.priorExpected.value)]) else None
      case MoveUpdate =>
        if op.prior.Some? && HoldsFile(t, Fold(op.prior.value), op.priorExpected) && key !in t && HasParent(t, key) && op.intended.Some?
        then Some((t - {Fold(op.prior.value)})[key := FileNode(op.target, op.intended.value)]) else None
      case Trash =>
        if HoldsFile(t, key, op.targetExpected) then Some(t - {key}) else None
      case Delete =>
        if op.targetExpected.Some? && op.targetExpected.value.kind == DirectoryEntry then
          if Lookup(t, key) == Some(DirNode) && (forall k :: k in t ==> !Beneath(k, key)) then Some(t - {key}) else None
        else
          if HoldsFile(t, key, op.targetExpected) then Some(t - {key}) else None
  }

  ghost function ApplyAll(ops: seq<Operation>, t: Tree): Option<Tree> {
    if ops == [] then Some(t)
    else
      var u := ApplyAll(ops[..|ops| - 1], t);
      if u.None? then None else Apply(ops[|ops| - 1], u.value)
  }

  lemma {:induction false} ApplyAllConcat(a: seq<Operation>, b: seq<Operation>, t: Tree, u: Tree)
    requires ApplyAll(a, t) == Some(u)
    ensures ApplyAll(a + b, t) == ApplyAll(b, u)
    decreases |b|
  {
    if b == [] {
      assert a + b == a;
    } else {
      var n := |b| - 1;
      ApplyAllConcat(a, b[..n], t, u);
      assert (a + b)[..|a + b| - 1] == a + b[..n];
    }
  }

  lemma ApplyNext(ops: seq<Operation>, op: Operation, t: Tree, u: Tree, v: Tree)
    requires ApplyAll(ops, t) == Some(u) && Apply(op, u) == Some(v)
    ensures ApplyAll(ops + [op], t) == Some(v)
  {
    assert (ops + [op])[..|ops|] == ops;
  }

  // ------------------------------------------------------------------ what scans show

  ghost predicate DirKey(s: Scan, key: Key) {
    exists d :: d in s.dirs && d.path != [] && Fold(d.path) == key
  }

  ghost predicate FileKey(s: Scan, key: Key) {
    exists f :: f in s.files && Fold(f.path) == key
  }

  ghost predicate HasDirectory(s: Scan, path: Path) {
    exists d :: d in s.dirs && d.path == path
  }

  /** Some file recorded under a key. */
  ghost function FileWith(s: Scan, key: Key): (r: Option<FileRecord>)
    ensures r.Some? <==> FileKey(s, key)
    ensures r.Some? ==> r.value in s.files && Fold(r.value.path) == key
  {
    if FileKey(s, key) then
      var f :| f in s.files && Fold(f.path) == key;
      Some(f)
    else None
  }

  ghost function DirWith(s: Scan, key: Key): (r: Option<DirRecord>)
    ensures r.Some? ==> r.value in s.dirs && Fold(r.value.path) == key
  {
    if exists d :: d in s.dirs && Fold(d.path) == key then
      var d :| d in s.dirs && Fold(d.path) == key;
      Some(d)
    else None
  }

  /** One entry per key, and every entry sits in a recorded directory. */
  ghost predicate WellFormed(s: Scan) {
    && NoRepeats(s.files) && NoRepeats(s.dirs)
    && (forall f :: f in s.files ==> f.path != [] && FileWith(s, Fold(f.path)) == Some(f) && (|f.path| > 1 ==> HasDirectory(s, Parent(f.path))))
    && (forall d :: d in s.dirs ==> DirWith(s, Fold(d.path)) == Some(d) && FileWith(s, Fold(d.path)) == None && (|d.path| > 1 ==> HasDirectory(s, Parent(d.path))))
  }

  /** Well-formedness spelled out for two entries. */
  lemma OneEntryPerKey(s: Scan)
    requires WellFormed(s)
    ensures forall f, g :: f in s.files && g in s.files && Fold(f.path) == Fold(g.path) ==> f == g
    ensures forall d, e :: d in s.dirs && e in s.dirs && Fold(d.path) == Fold(e.path) ==> d == e
    ensures forall f, d :: f in s.files && d in s.dirs ==> Fold(f.path) != Fold(d.path)
  {
    forall f, g | f in s.files && g in s.files && Fold(f.path) == Fold(g.path)
      ensures f == g
    {
      assert FileWith(s, Fold(f.path)) == Some(f) && FileWith(s, Fold(g.path)) == Some(g);
    }
    forall d, e | d in s.dirs && e in s.dirs && Fold(d.path) == Fold(e.path)
      ensures d == e
    {
      assert DirWith(s, Fold(d.path)) == Some(d) && DirWith(s, Fold(e.path)) == Some(e);
    }
    forall f, d | f in s.files && d in s.dirs
      ensures Fold(f.path) != Fold(d.path)
    {
      assert FileWith(s, Fold(f.path)) == Some(f) && FileWith(s, Fold(d.path)) == None;
    }
  }

  /** A tree is what a scan shows. */
  ghost predicate Depicts(s: Scan, t: Tree) {
    && (forall k :: DirKey(s, k) ==> Lookup(t, k) == Some(DirNode))
    && (forall f :: f in s.files ==> Lookup(t, Fold(f.path)) == Some(FileNode(f.path, FileStat(f))))
    && (forall k :: k in t ==> DirKey(s, k) || FileKey(s, k))
  }

  function FileTree(files: seq<FileRecord>): Tree {
    if files == [] then map[]
    else
      var n := |files| - 1;
      FileTree(files[..n])[Fold(files[n].path) := FileNode(files[n].path, FileStat(files[n]))]
  }

  function DirTree(dirs: seq<DirRecord>): Tree {
    if dirs == [] then map[]
    else
      var n := |dirs| - 1;
      if dirs[n].path == [] then DirTree(dirs[..n]) else DirTree(dirs[..n])[Fold(dirs[n].path) := DirNode]
  }

  function TreeOf(s: Scan): Tree {
    FileTree(s.files) + DirTree(s.dirs)
  }

  lemma {:induction false} FileTreeHolds(files: seq<FileRecord>)
    requires forall f, g :: f in files && g in files && Fold(f.path) == Fold(g.path) ==> f == g
    ensures forall f :: f in files ==> Lookup(FileTree(files), Fold(f.path)) == Some(FileNode(f.path, FileStat(f)))
    ensures forall k :: k in FileTree(files) ==> exists f :: f in files && Fold(f.path) == k
  {
    if files != [] {
      var n := |files| - 1;
      assert files == files[..n] + [files[n]];
      FileTreeHolds(files[..n]);
    }
  }

  lemma {:induction false} DirTreeHolds(dirs: seq<DirRecord>)
    ensures forall k :: k in DirTree(dirs) <==> exists d :: d in dirs && d.path != [] && Fold(d.path) == k
    ensures forall k :: k in DirTree(dirs) ==> DirTree(dirs)[k] == DirNode
  {
    if dirs != [] {
      var n := |dirs| - 1;
      assert dirs == dirs[..n] + [dirs[n]];
      DirTreeHolds(dirs[..n]);
    }
  }

  lemma TreeDepicted(s: Scan)
    requires WellFormed(s)
    ensures Depicts(s, TreeOf(s))
  {
    OneEntryPerKey(s);
    FileTreeHolds(s.files);
    DirTreeHolds(s.dirs);
    forall f | f in s.files
      ensures Lookup(TreeOf(s), Fold(f.path)) == Some(FileNode(f.path, FileStat(f)))
    {
      assert Fold(f.path) !in DirTree(s.dirs);
    }
  }
}
