/** The parts of git that the fleet protocol rests on: content-addressed
    commits, ancestry, and the three trees of a checkout.

    A commit is a value that holds its parent, so two commits are equal exactly
    when their whole history is: the model of a commit id that is a hash.
    History is linear, since Bay never merges (it only fast-forwards and
    rebases). `author` and `serial` stand for the author, the committer and
    the time, which make two commits of two machines differ. */
module Commits {
  import opened Options

  type Path = string
  type Blob = string
  type Tree = map<Path, Blob>

  datatype Commit =
    | Root(tree: Tree)
    | Child(parent: Commit, tree: Tree, author: nat, serial: nat)

  /** HEAD, the index and the work tree of one checkout. */
  datatype Git = Git(head: Commit, index: Tree, work: Tree)

  // ---------------------------------------------------------------- ancestry

  /** `git merge-base --is-ancestor a b`: also true for the same commit. */
  predicate Ancestor(a: Commit, b: Commit) {
    a == b || (b.Child? && Ancestor(a, b.parent))
  }

  function Depth(c: Commit): nat {
    if c.Root? then 0 else 1 + Depth(c.parent)
  }

  lemma {:induction false} AncestorTransitive(a: Commit, b: Commit, c: Commit)
    requires Ancestor(a, b) && Ancestor(b, c)
    ensures Ancestor(a, c)
  {
    if b != c {
      AncestorTransitive(a, b, c.parent);
    }
  }

  lemma {:induction false} AncestorDepth(a: Commit, b: Commit)
    requires Ancestor(a, b)
    ensures Depth(a) <= Depth(b)
    ensures Depth(a) == Depth(b) ==> a == b
  {
    if a != b {
      AncestorDepth(a, b.parent);
    }
  }

  /** Two commits on one linear branch are comparable. */
  lemma {:induction false} AncestorTotal(a: Commit, b: Commit, c: Commit)
    requires Ancestor(a, c) && Ancestor(b, c)
    ensures Ancestor(a, b) || Ancestor(b, a)
  {
    if a != c && b != c {
      AncestorTotal(a, b, c.parent);
    }
  }

  lemma AncestorAntisymmetric(a: Commit, b: Commit)
    requires Ancestor(a, b) && Ancestor(b, a)
    ensures a == b
  {
    AncestorDepth(a, b);
    AncestorDepth(b, a);
  }

  lemma NotItsOwnParent(a: Commit, b: Commit)
    requires b.Child? && b.parent == a
    ensures a != b && Ancestor(a, b)
  {
    assert Depth(b) == 1 + Depth(a);
  }

  // ------------------------------------------------------------------- trees

  function At(t: Tree, p: Path): Option<Blob> {
    if p in t then Some(t[p]) else None
  }

  /** `t` with the entry of `p` set, or removed for None. */
  function Put(t: Tree, p: Path, v: Option<Blob>): (r: Tree)
    ensures At(r, p) == v
    ensures forall q :: q != p ==> At(r, q) == At(t, q)
  {
    if v.Some? then t[p := v.value] else t - {p}
  }

  /** `base`, with the paths of `paths` as they are in `src` (gone when absent there). */
  function Overlay(base: Tree, src: Tree, paths: set<Path>): (r: Tree)
    ensures forall p :: At(r, p) == if p in paths then At(src, p) else At(base, p)
  {
    map p | p in base.Keys + src.Keys && (if p in paths then p in src else p in base)
      :: if p in paths then src[p] else base[p]
  }

  lemma TreeExtensional(a: Tree, b: Tree)
    requires forall p :: At(a, p) == At(b, p)
    ensures a == b
  {
    forall p
      ensures p in a <==> p in b
      ensures p in a ==> a[p] == b[p]
    {
      assert At(a, p) == At(b, p);
    }
  }

  function Elements(s: seq<Path>): set<Path> {
    set p | p in s
  }

  /** The paths whose entry differs between two trees: `git diff --name-only a b`. */
  function Changed(a: Tree, b: Tree): (r: set<Path>)
    ensures forall p :: p in r <==> At(a, p) != At(b, p)
  {
    set p | p in a.Keys + b.Keys && At(a, p) != At(b, p)
  }
}
