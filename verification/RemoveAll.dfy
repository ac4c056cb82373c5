/** Recursive deletion on a tree of files and directories, where any single operation may
    fail. */
module RemoveAll {
  import opened Faults

  type Name = string

  /** A path is the list of names from the root; the root itself is the empty path. */
  type Path = seq<Name>

  datatype Kind = File | Directory

  type Tree = map<Path, Kind>

  predicate Under(top: Path, p: Path) {
    top <= p
  }

  /** Every node has a parent, and the parent is a directory. */
  ghost predicate IsTree(t: Tree) {
    forall p <- t :: p != [] ==> Parent(p) in t && t[Parent(p)] == Directory
  }

  function Parent(p: Path): Path
    requires p != []
  {
    p[..|p| - 1]
  }

  /** The node at `top` and everything below it. */
  function Subtree(t: Tree, top: Path): set<Path> {
    set p | p in t && Under(top, p)
  }

  function Children(t: Tree, top: Path): set<Name> {
    set p | p in t && |p| == |top| + 1 && Under(top, p) :: p[|top|]
  }

  /** Every ancestor of a node is a node. */
  lemma {:induction false} AncestorIsNode(t: Tree, p: Path, n: nat)
    requires IsTree(t) && p in t && n <= |p|
    ensures p[..n] in t && (n < |p| ==> t[p[..n]] == Directory)
    decreases |p|
  {
    if n == |p| {
      assert p[..n] == p;
    } else {
      AncestorIsNode(t, Parent(p), n);
      assert Parent(p)[..n] == p[..n];
      if n == |p| - 1 {
        assert p[..n] == Parent(p);
      }
    }
  }

  /** The file system. `faults` says of each operation to come whether it fails for a reason
      outside the tree, such as a lost connection or a missing permission. */
  class FileSystem {
    var tree: Tree
    var faults: seq<bool>

    /** `Stat`: whether there is such a node, and whether it is a directory. */
    method Stat(path: Path) returns (ok: bool, isDir: bool)
      modifies this`faults
      ensures UsesUp(old(faults), faults)
      ensures ok <==> path in tree && FaultFree(old(faults), faults)
      ensures ok ==> (isDir <==> tree[path] == Directory)
    {
      var fails;
      fails, faults := Draw(faults);
      ok, isDir := path in tree && !fails, false;
      if ok {
        isDir := tree[path] == Directory;
      }
    }

    method ReadDir(path: Path) returns (ok: bool, names: set<Name>)
      requires path in tree && tree[path] == Directory
      modifies this`faults
      ensures UsesUp(old(faults), faults)
      ensures ok <==> FaultFree(old(faults), faults)
      ensures ok ==> names == Children(tree, path)
    {
      var fails;
      fails, faults := Draw(faults);
      ok, names := !fails, Children(tree, path);
    }

    /** `Remove`: one file or one empty directory, but never the root. */
    method Remove(path: Path) returns (ok: bool)
      modifies this
      ensures UsesUp(old(faults), faults)
      ensures ok <==> FaultFree(old(faults), faults) && path != [] && Subtree(old(tree), path) == {path}
      ensures tree == if ok then old(tree) - {path} else old(tree)
    {
      var fails;
      fails, faults := Draw(faults);
      ok := !fails && path != [] && Subtree(tree, path) == {path};
      if ok {
        tree := tree - {path};
      }
    }
  }

  /** The node lies at or below a child of `top` that is already dealt with. */
  predicate Done(names: set<Name>, top: Path, p: Path) {
    |p| > |top| && Under(top, p) && p[|top|] in names
  }

  /** Without some children's subtrees. */
  function Without(t: Tree, top: Path, names: set<Name>): Tree {
    map p | p in t && !Done(names, top, p) :: t[p]
  }

  /** Only nodes below `top` may have gone, and none has changed. */
  ghost predicate OnlyBelowGone(t: Tree, u: Tree, top: Path) {
    && (forall p <- u :: p in t && u[p] == t[p])
    && (forall p <- t :: !Under(top, p) || p == top ==> p in u)
  }

  lemma WithoutNone(t: Tree, top: Path)
    ensures Without(t, top, {}) == t
  {
  }

  /** Removing the subtree of one more child. */
  lemma WithoutOneMore(t: Tree, top: Path, names: set<Name>, name: Name)
    requires name !in names
    ensures Without(t, top, names) - Subtree(Without(t, top, names), top + [name])
              == Without(t, top, names + {name})
  {
    forall p | p in t
      ensures Done(names + {name}, top, p) <==> Done(names, top, p) || Under(top + [name], p)
    {
      if |p| > |top| && Under(top, p) && p[|top|] == name {
        assert p[..|top| + 1] == top + [name];
      }
    }
  }

  lemma DoneBelow(names: set<Name>, top: Path, p: Path)
    requires p != []
    ensures Done(names, top, Parent(p)) ==> Done(names, top, p)
  {
  }

  lemma WithoutIsTree(t: Tree, top: Path, names: set<Name>)
    requires IsTree(t)
    ensures IsTree(Without(t, top, names))
  {
    var u := Without(t, top, names);
    forall p | p in u && p != [] ensures Parent(p) in u && u[Parent(p)] == Directory {
      DoneBelow(names, top, p);
    }
  }

  /** Without all children only the node itself is left. */
  lemma WithoutAll(t: Tree, top: Path)
    requires IsTree(t) && top in t
    ensures Subtree(Without(t, top, Children(t, top)), top) == {top}
    ensures Without(t, top, Children(t, top)) - {top} == t - Subtree(t, top)
  {
    forall p | p in t && Under(top, p) && p != top ensures Done(Children(t, top), top, p) {
      ChildOnTheWay(t, top, p);
    }
  }

  lemma ChildOnTheWay(t: Tree, top: Path, p: Path)
    requires IsTree(t) && p in t && Under(top, p) && p != top
    ensures |p| > |top| && p[|top|] in Children(t, top)
  {
    assert p[..|top|] == top && p[..|p|] == p;
    AncestorIsNode(t, p, |top| + 1);
    var child := p[..|top| + 1];
    assert Under(top, child) && child[|top|] == p[|top|];
  }

  lemma FileHasNoneBelow(t: Tree, top: Path)
    requires IsTree(t) && top in t && t[top] == File
    ensures Subtree(t, top) == {top}
  {
    forall p | p in t && Under(top, p) ensures p == top {
      AncestorIsNode(t, p, |top|);
      assert p[..|top|] == top;
    }
  }

  /** A failure inside a child's subtree, seen from the parent. */
  lemma BelowChildIsBelow(t: Tree, top: Path, names: set<Name>, name: Name, u: Tree)
    requires OnlyBelowGone(Without(t, top, names), u, top + [name])
    ensures OnlyBelowGone(t, u, top)
  {
    var w := Without(t, top, names);
    forall p | p in t && (!Under(top, p) || p == top) ensures p in u {
      assert p in w;
      assert !Under(top + [name], p);
    }
  }

  lemma ChildSubtreeIsSmaller(t: Tree, top: Path, names: set<Name>, name: Name)
    requires top in t
    ensures Subtree(Without(t, top, names), top + [name]) < Subtree(t, top)
  {
    var w := Without(t, top, names);
    forall p | p in Subtree(w, top + [name]) ensures p in Subtree(t, top) {
      assert top <= top + [name] <= p;
    }
    assert top in Subtree(t, top) && top !in Subtree(w, top + [name]);
  }

  /** Success removes exactly the node and everything below it. A failure has removed only
      nodes below it, never the node itself, and every survivor still has its parent. It
      succeeds exactly when there is such a node, it is not the root, and no operation was
      struck by a fault. */
  method RemoveAll(fs: FileSystem, path: Path) returns (ok: bool)
    requires IsTree(fs.tree)
    modifies fs
    ensures IsTree(fs.tree)
    ensures UsesUp(old(fs.faults), fs.faults)
    ensures ok <==> path in old(fs.tree) && path != [] && FaultFree(old(fs.faults), fs.faults)
    ensures ok ==> fs.tree == old(fs.tree) - Subtree(old(fs.tree), path)
    ensures !ok ==> OnlyBelowGone(old(fs.tree), fs.tree, path)
    decreases Subtree(fs.tree, path)
  {
    ghost var start, t := fs.faults, fs.tree;
    var isDir;
    ok, isDir := fs.Stat(path);
    if !ok {
      return;
    }
    if isDir {
      ghost var before := fs.faults;
      var names;
      ok, names := fs.ReadDir(path);
      FaultFreeOn(start, before, fs.faults);
      if !ok {
        return;
      }
      var todo := names;
      WithoutNone(t, path);
      while todo != {}
        invariant todo <= names == Children(t, path)
        invariant fs.tree == Without(t, path, names - todo)
        invariant UsesUp(start, fs.faults) && FaultFree(start, fs.faults)
        decreases |todo|
      {
        var name :| name in todo;
        ghost var gone, faults := names - todo, fs.faults;
        ChildIsLeft(t, path, gone, name);
        ChildSubtreeIsSmaller(t, path, gone, name);
        WithoutIsTree(t, path, gone);
        ok := RemoveAll(fs, path + [name]);
        FaultFreeOn(start, faults, fs.faults);
        if !ok {
          BelowChildIsBelow(t, path, gone, name, fs.tree);
          return;
        }
        WithoutOneMore(t, path, gone, name);
        todo := todo - {name};
        assert names - todo == gone + {name};
      }
      assert names - todo == names;
      WithoutAll(t, path);
      WithoutIsTree(t, path, names);
    } else {
      FileHasNoneBelow(t, path);
    }
    ghost var faults, last := fs.faults, fs.tree;
    ok := fs.Remove(path);
    FaultFreeOn(start, faults, fs.faults);
    if ok {
      LeafLeaves(last, path);
    }
  }

  lemma ChildIsLeft(t: Tree, top: Path, gone: set<Name>, name: Name)
    requires name in Children(t, top) && name !in gone
    ensures top + [name] in Without(t, top, gone) && top + [name] != []
  {
    var p :| p in t && |p| == |top| + 1 && Under(top, p) && p[|top|] == name;
    assert p == top + [name];
  }

  /** A node with nothing below it can go without leaving an orphan. */
  lemma LeafLeaves(t: Tree, top: Path)
    requires IsTree(t) && Subtree(t, top) == {top}
    ensures IsTree(t - {top})
  {
    forall p | p in t - {top} && p != [] ensures Parent(p) in t - {top} && t[Parent(p)] == Directory {
      assert Under(Parent(p), p);
      assert Under(top, p) ==> p in Subtree(t, top);
    }
  }
}
