/** One fleet checkout, driven step by step: the commit of a run, its undo path
    by path, and the fast-forward that sets plan records aside.

    Every git or file call may fail. `Faults` says which ones do; a failing
    call leaves the state as it was, except a commit that is killed after it
    moved HEAD. */
module Checkouts {
  import opened Options
  import opened Commits

  /** Which calls fail: `killed` is a commit that is made and reported as failed, `head`
      is the reading of HEAD, `list` the listing of plan records (`git ls-files`, `git
      ls-tree`), `probe` is `git cat-file -e` (`has_path`), `git` is the restore/rm/add of
      one path, `file` is a read or an unlink, `write` a write. */
  datatype Faults = Faults(
    add: bool, diff: bool, commit: bool, killed: bool, head: bool, reset: bool, merge: bool, list: bool,
    probe: set<Path>, git: set<Path>, file: set<Path>, write: set<Path>)

  const NO_FAULTS := Faults(false, false, false, false, false, false, false, false, {}, {}, {}, {})

  datatype UndoPlan = UndoPlan(
    before: Commit,
    restore: seq<Path>,
    unstage: seq<Path>,
    contents: map<Path, Blob>,
    drop: seq<Path>)

  datatype UndoState = Done | Partial | Moved | ResetFailed
  datatype UndoResult = UndoResult(state: UndoState, failed: seq<Path>)
  datatype CommitResult = Committed(commit: Commit) | GitError

  /** The paths a run owns in the index. */
  function Owned(plan: UndoPlan): set<Path> {
    Elements(plan.restore) + Elements(plan.unstage)
  }

  // -------------------------------------------------------------- commit_paths

  predicate AddAccepts(g: Git, paths: seq<Path>) {
    forall p :: p in paths ==> p in g.work || p in g.index
  }

  function Staged(g: Git, paths: seq<Path>): Git {
    g.(index := Overlay(g.index, g.work, Elements(paths)))
  }

  /** `git diff --cached --quiet -- paths`. */
  predicate NothingStaged(g: Git, paths: seq<Path>) {
    forall p :: p in paths ==> At(g.index, p) == At(g.head.tree, p)
  }

  /** `git commit -- paths`: the new tree takes only these paths from the work tree. */
  function CommitOf(g: Git, paths: seq<Path>, author: nat, serial: nat): Commit {
    Child(g.head, Overlay(g.head.tree, g.work, Elements(paths)), author, serial)
  }

  /** What `commit_paths` leaves when its git calls work: the state and the commit. */
  function CommitGit(g: Git, paths: seq<Path>, author: nat, serial: nat): Git {
    var s := Staged(g, paths);
    if NothingStaged(s, paths) then s else s.(head := CommitOf(s, paths, author, serial))
  }

  /** Does `git commit` move HEAD: it is called unless the diff says that nothing is
      staged, and it makes no empty commit. */
  predicate MovesHead(g: Git, paths: seq<Path>, f: Faults) {
    !f.commit && !NothingStaged(Staged(g, paths), paths)
  }

  /** What `commit_paths` leaves, whatever fails. */
  function CommitLeaves(g: Git, paths: seq<Path>, author: nat, serial: nat, f: Faults): Git {
    if f.add || !AddAccepts(g, paths) then g
    else if MovesHead(g, paths, f) then CommitGit(g, paths, author, serial)
    else Staged(g, paths)
  }

  /** Does it return a commit: every call it needs worked, reading HEAD at the end too. */
  predicate CommitReturns(g: Git, paths: seq<Path>, f: Faults) {
    && !f.add && AddAccepts(g, paths) && !f.head
    && if NothingStaged(Staged(g, paths), paths) then !f.diff else !f.commit && !f.killed
  }

  /** HEAD moves exactly when some path differs from HEAD in the work tree and the calls up
      to the commit work; a commit comes back exactly when HEAD can be read as well, and
      then also when nothing differs. */
  lemma CommitIff(g: Git, paths: seq<Path>, author: nat, serial: nat, f: Faults)
    ensures var accepted := !f.add && forall p :: p in paths ==> p in g.work || p in g.index;
            var differs := exists p :: p in paths && At(g.work, p) != At(g.head.tree, p);
            && (CommitLeaves(g, paths, author, serial, f).head != g.head <==> accepted && differs && !f.commit)
            && (CommitReturns(g, paths, f) <==>
                  accepted && !f.head && if differs then !f.commit && !f.killed else !f.diff)
  {
    var s := Staged(g, paths);
    forall p | p in paths ensures At(s.index, p) == At(g.work, p) { assert p in Elements(paths); }
    NotItsOwnParent(s.head, CommitOf(s, paths, author, serial));
  }

  // --------------------------------------------------------------------- undo

  /** `has_path` as the code reads it: a failing probe is read as "not there". */
  predicate HasPath(before: Commit, p: Path, f: Faults) {
    p in before.tree && p !in f.probe
  }

  function RestoreOne(g: Git, before: Commit, p: Path, f: Faults): Git {
    if HasPath(before, p, f) then
      if p in f.git then g
      else g.(index := Put(g.index, p, At(before.tree, p)), work := Put(g.work, p, At(before.tree, p)))
    else
      g.(index := if p in f.git then g.index else Put(g.index, p, None),
         work := if p in f.file then g.work else Put(g.work, p, None))
  }

  predicate RestoreOk(before: Commit, p: Path, f: Faults) {
    p !in f.git && (HasPath(before, p, f) || p !in f.file)
  }

  function UnstageOne(g: Git, plan: UndoPlan, p: Path, f: Faults): Git {
    g.(index := if p in f.git then g.index
                else Put(g.index, p, if HasPath(plan.before, p, f) then At(plan.before.tree, p) else None),
       work := if p in plan.contents && p !in f.write then Put(g.work, p, Some(plan.contents[p])) else g.work)
  }

  predicate UnstageOk(plan: UndoPlan, p: Path, f: Faults) {
    p !in f.git && (p in plan.contents ==> p !in f.write)
  }

  function DropOne(g: Git, p: Path, f: Faults): Git {
    if p in f.file then g else g.(work := Put(g.work, p, None))
  }

  function RestoreAll(g: Git, before: Commit, ps: seq<Path>, f: Faults): Git {
    if ps == [] then g
    else RestoreOne(RestoreAll(g, before, ps[..|ps| - 1], f), before, ps[|ps| - 1], f)
  }

  function UnstageAll(g: Git, plan: UndoPlan, ps: seq<Path>, f: Faults): Git {
    if ps == [] then g
    else UnstageOne(UnstageAll(g, plan, ps[..|ps| - 1], f), plan, ps[|ps| - 1], f)
  }

  function DropAll(g: Git, ps: seq<Path>, f: Faults): Git {
    if ps == [] then g
    else DropOne(DropAll(g, ps[..|ps| - 1], f), ps[|ps| - 1], f)
  }

  /** The state after the three loops of `undo`, from a HEAD that is reset already. */
  function PathsUndone(g: Git, plan: UndoPlan, f: Faults): Git {
    DropAll(UnstageAll(RestoreAll(g, plan.before, plan.restore, f), plan, plan.unstage, f), plan.drop, f)
  }

  /** The paths of `ps` that `ok` refuses, in order: what a loop appends to `failed`. */
  function FailedRestores(before: Commit, ps: seq<Path>, f: Faults): seq<Path> {
    if ps == [] then []
    else
      var p := ps[|ps| - 1];
      FailedRestores(before, ps[..|ps| - 1], f) + if RestoreOk(before, p, f) then [] else [p]
  }

  function FailedUnstages(plan: UndoPlan, ps: seq<Path>, f: Faults): seq<Path> {
    if ps == [] then []
    else
      var p := ps[|ps| - 1];
      FailedUnstages(plan, ps[..|ps| - 1], f) + if UnstageOk(plan, p, f) then [] else [p]
  }

  function FailedDrops(ps: seq<Path>, f: Faults): seq<Path> {
    if ps == [] then []
    else
      var p := ps[|ps| - 1];
      FailedDrops(ps[..|ps| - 1], f) + if p in f.file then [p] else []
  }

  function FailedPaths(plan: UndoPlan, f: Faults): seq<Path> {
    FailedRestores(plan.before, plan.restore, f) + FailedUnstages(plan, plan.unstage, f) + FailedDrops(plan.drop, f)
  }

  function UndoneGit(g: Git, commit: Commit, plan: UndoPlan, f: Faults): Git {
    if f.head || g.head != commit then g
    else if commit != plan.before && f.reset then g
    else PathsUndone(g.(head := plan.before), plan, f)
  }

  function UndoneResult(g: Git, commit: Commit, plan: UndoPlan, f: Faults): UndoResult {
    if f.head || g.head != commit then UndoResult(Moved, [])
    else if commit != plan.before && f.reset then UndoResult(ResetFailed, [])
    else UndoResult(if FailedPaths(plan, f) != [] then Partial else Done, FailedPaths(plan, f))
  }

  // ---------------------------------------------- what the loops do, path by path

  /** Restoring one path moves no other, and depends on that path alone. */
  lemma RestoreOneAt(g: Git, g0: Git, before: Commit, q: Path, f: Faults, p: Path)
    ensures RestoreOne(g, before, q, f).head == g.head
    ensures p != q ==>
              At(RestoreOne(g, before, q, f).index, p) == At(g.index, p) &&
              At(RestoreOne(g, before, q, f).work, p) == At(g.work, p)
    ensures var one := RestoreOne(g0, before, q, f);
            (p == q && At(g.index, p) in {At(g0.index, p), At(one.index, p)} &&
             At(g.work, p) in {At(g0.work, p), At(one.work, p)}) ==>
              At(RestoreOne(g, before, q, f).index, p) == At(one.index, p) &&
              At(RestoreOne(g, before, q, f).work, p) == At(one.work, p)
  {
  }

  lemma {:induction false} RestoreAllAt(g: Git, before: Commit, ps: seq<Path>, f: Faults, p: Path)
    ensures RestoreAll(g, before, ps, f).head == g.head
    ensures var r, one := RestoreAll(g, before, ps, f), RestoreOne(g, before, p, f);
            At(r.index, p) == (if p in ps then At(one.index, p) else At(g.index, p)) &&
            At(r.work, p) == (if p in ps then At(one.work, p) else At(g.work, p))
  {
    if ps != [] {
      var front, q := ps[..|ps| - 1], ps[|ps| - 1];
      assert ps == front + [q];
      RestoreAllAt(g, before, front, f, p);
      RestoreOneAt(RestoreAll(g, before, front, f), g, before, q, f, p);
    }
  }

  lemma {:induction false} UnstageAllAt(g: Git, plan: UndoPlan, ps: seq<Path>, f: Faults, p: Path)
    ensures UnstageAll(g, plan, ps, f).head == g.head
    ensures var r, one := UnstageAll(g, plan, ps, f), UnstageOne(g, plan, p, f);
            At(r.index, p) == (if p in ps then At(one.index, p) else At(g.index, p)) &&
            At(r.work, p) == (if p in ps then At(one.work, p) else At(g.work, p))
  {
    if ps != [] {
      var front, q := ps[..|ps| - 1], ps[|ps| - 1];
      assert ps == front + [q];
      UnstageAllAt(g, plan, front, f, p);
    }
  }

  lemma {:induction false} DropAllAt(g: Git, ps: seq<Path>, f: Faults, p: Path)
    ensures DropAll(g, ps, f).head == g.head && DropAll(g, ps, f).index == g.index
    ensures At(DropAll(g, ps, f).work, p) == if p in ps && p !in f.file then None else At(g.work, p)
  {
    if ps != [] {
      var front, q := ps[..|ps| - 1], ps[|ps| - 1];
      assert ps == front + [q];
      DropAllAt(g, front, f, p);
    }
  }

  lemma {:induction false} FailedRestoresAt(before: Commit, ps: seq<Path>, f: Faults, p: Path)
    ensures p in FailedRestores(before, ps, f) <==> p in ps && !RestoreOk(before, p, f)
  {
    if ps != [] {
      assert ps == ps[..|ps| - 1] + [ps[|ps| - 1]];
      FailedRestoresAt(before, ps[..|ps| - 1], f, p);
    }
  }

  lemma {:induction false} FailedUnstagesAt(plan: UndoPlan, ps: seq<Path>, f: Faults, p: Path)
    ensures p in FailedUnstages(plan, ps, f) <==> p in ps && !UnstageOk(plan, p, f)
  {
    if ps != [] {
      assert ps == ps[..|ps| - 1] + [ps[|ps| - 1]];
      FailedUnstagesAt(plan, ps[..|ps| - 1], f, p);
    }
  }

  lemma {:induction false} FailedDropsAt(ps: seq<Path>, f: Faults, p: Path)
    ensures p in FailedDrops(ps, f) <==> p in ps && p in f.file
  {
    if ps != [] {
      assert ps == ps[..|ps| - 1] + [ps[|ps| - 1]];
      FailedDropsAt(ps[..|ps| - 1], f, p);
    }
  }

  /** The word an undo says, and when it says nothing was done. */
  lemma UndoWords(g: Git, commit: Commit, plan: UndoPlan, f: Faults)
    ensures var r := UndoneResult(g, commit, plan, f);
            && (r.state == Moved <==> f.head || g.head != commit)
            && (r.state == ResetFailed <==> !f.head && g.head == commit != plan.before && f.reset)
            && (r.state == Partial <==> r.failed != [])
            && (r.state == Moved || r.state == ResetFailed ==> r.failed == [] && UndoneGit(g, commit, plan, f) == g)
            && (r.state == Done || r.state == Partial ==>
                  UndoneGit(g, commit, plan, f).head == plan.before && r.failed == FailedPaths(plan, f))
  {
    var g0 := g.(head := plan.before);
    var g1 := RestoreAll(g0, plan.before, plan.restore, f);
    RestoreAllAt(g0, plan.before, plan.restore, f, "");
    UnstageAllAt(g1, plan, plan.unstage, f, "");
    DropAllAt(UnstageAll(g1, plan, plan.unstage, f), plan.drop, f, "");
  }

  /** `failed` names exactly the paths a call of which failed. */
  lemma FailedPathsAt(plan: UndoPlan, f: Faults, p: Path)
    ensures p in FailedPaths(plan, f) <==>
              || (p in plan.restore && !RestoreOk(plan.before, p, f))
              || (p in plan.unstage && !UnstageOk(plan, p, f))
              || (p in plan.drop && p in f.file)
  {
    FailedRestoresAt(plan.before, plan.restore, f, p);
    FailedUnstagesAt(plan, plan.unstage, f, p);
    FailedDropsAt(plan.drop, f, p);
  }

  /** A plan whose three path lists do not overlap, except that a dropped path is
      an unstaged one with no bytes to put back (as `_unwind` builds it). */
  ghost predicate WellFormedPlan(plan: UndoPlan) {
    && Elements(plan.restore) !! Elements(plan.unstage)
    && (forall p :: p in plan.drop ==> p in plan.unstage && p !in plan.contents)
    && (forall p :: p in plan.contents ==> p in plan.unstage)
  }

  /** The frame condition of `undo`, whatever fails: only a path of the plan moves,
      and of those only a restored, rewritten or dropped one moves in the work tree. */
  lemma UndoFrame(g: Git, commit: Commit, plan: UndoPlan, f: Faults, p: Path)
    requires WellFormedPlan(plan)
    ensures var r := UndoneGit(g, commit, plan, f);
            && (p !in Owned(plan) ==> At(r.index, p) == At(g.index, p))
            && (p !in plan.restore && p !in plan.contents && p !in plan.drop ==> At(r.work, p) == At(g.work, p))
            && (r.head == g.head || r.head == plan.before)
  {
    var g0 := g.(head := plan.before);
    var g1 := RestoreAll(g0, plan.before, plan.restore, f);
    var g2 := UnstageAll(g1, plan, plan.unstage, f);
    RestoreAllAt(g0, plan.before, plan.restore, f, p);
    UnstageAllAt(g1, plan, plan.unstage, f, p);
    DropAllAt(g2, plan.drop, f, p);
  }

  /** A call that fails leaves its path as it was: the index entry that git could not put
      back, and the file that could not be restored, rewritten or removed. */
  lemma FailedCallsLeaveTheirPath(g: Git, commit: Commit, plan: UndoPlan, f: Faults, p: Path)
    requires WellFormedPlan(plan)
    ensures var r, known := UndoneGit(g, commit, plan, f), p in plan.before.tree && p !in f.probe;
            && (p in f.git ==> At(r.index, p) == At(g.index, p))
            && (p in plan.restore && (if known then p in f.git else p in f.file) ==> At(r.work, p) == At(g.work, p))
            && (p in plan.contents && p in f.write ==> At(r.work, p) == At(g.work, p))
            && (p in plan.drop && p in f.file ==> At(r.work, p) == At(g.work, p))
  {
    var g0 := g.(head := plan.before);
    var g1 := RestoreAll(g0, plan.before, plan.restore, f);
    var g2 := UnstageAll(g1, plan, plan.unstage, f);
    RestoreAllAt(g0, plan.before, plan.restore, f, p);
    UnstageAllAt(g1, plan, plan.unstage, f, p);
    DropAllAt(g2, plan.drop, f, p);
    assert p in plan.restore ==> p in Elements(plan.restore);
    assert p in plan.unstage ==> p in Elements(plan.unstage);
  }

  /** An undo that says done, path by path. A path whose probe failed is treated as
      one that `before` does not have. */
  lemma UndoDoneAt(g: Git, commit: Commit, plan: UndoPlan, f: Faults, p: Path)
    requires WellFormedPlan(plan)
    requires UndoneResult(g, commit, plan, f).state == Done
    ensures var r := UndoneGit(g, commit, plan, f);
            var want := if p in f.probe then None else At(plan.before.tree, p);
            && r.head == plan.before
            && (p in Owned(plan) ==> At(r.index, p) == want)
            && (p in plan.restore ==> At(r.work, p) == want)
            && (p in plan.contents ==> At(r.work, p) == Some(plan.contents[p]))
            && (p in plan.drop ==> At(r.work, p) == None)
  {
    var g0 := g.(head := plan.before);
    var g1 := RestoreAll(g0, plan.before, plan.restore, f);
    var g2 := UnstageAll(g1, plan, plan.unstage, f);
    RestoreAllAt(g0, plan.before, plan.restore, f, p);
    UnstageAllAt(g1, plan, plan.unstage, f, p);
    DropAllAt(g2, plan.drop, f, p);
    FailedPathsAt(plan, f, p);
    assert p !in FailedPaths(plan, f);
    if p in plan.restore {
      assert p in Elements(plan.restore);
      assert p !in Elements(plan.unstage);
      assert p !in plan.unstage;
    }
  }

  // ------------------------------------------------------------ commit, then undo

  /** The state a run starts from: its own paths hold no uncommitted change, and the
      plan remembers the bytes (or the absence) of the records it overwrites. */
  ghost predicate CleanStart(g: Git, plan: UndoPlan) {
    && WellFormedPlan(plan)
    && plan.before == g.head
    && (forall p :: p in Owned(plan) ==> At(g.index, p) == At(g.head.tree, p))
    && (forall p :: p in plan.restore ==> At(g.work, p) == At(g.head.tree, p))
    && (forall p :: p in plan.contents ==> At(g.work, p) == Some(plan.contents[p]))
    && (forall p :: p in plan.drop ==> At(g.work, p) == None)
  }

  ghost predicate SameOff(a: Tree, b: Tree, paths: set<Path>) {
    forall p :: p !in paths ==> At(a, p) == At(b, p)
  }

  ghost predicate ProbesSound(plan: UndoPlan, f: Faults) {
    forall p :: p in Owned(plan) && p in plan.before.tree ==> p !in f.probe
  }

  /** A commit of the run's paths, also an empty one, and then an undo that says done:
      HEAD and the index are what they were, the restored, rewritten and dropped files
      are what they were, and no other file of the work tree moved.

      The code reads a failing probe as "the path was not there", so the word done is
      exact only when no probe of a path that was there failed. */
  lemma CommitThenUndo(g: Git, wrote: Tree, author: nat, serial: nat, paths: seq<Path>, plan: UndoPlan, f: Faults)
    requires CleanStart(g, plan)
    requires Elements(paths) == Owned(plan)
    requires SameOff(wrote, g.work, Owned(plan))
    requires var mid := CommitGit(g.(work := wrote), paths, author, serial);
             UndoneResult(mid, mid.head, plan, f).state == Done
    ensures var mid := CommitGit(g.(work := wrote), paths, author, serial);
            var r := UndoneGit(mid, mid.head, plan, f);
            && r.head == g.head
            && (r.index == g.index <==> ProbesSound(plan, f))
            && (forall p :: p in plan.contents || p in plan.drop ==> At(r.work, p) == At(g.work, p))
            && (ProbesSound(plan, f) ==> forall p :: p in plan.restore ==> At(r.work, p) == At(g.work, p))
            && (forall p :: p !in Owned(plan) ==> At(r.work, p) == At(g.work, p))
  {
    var mid := CommitGit(g.(work := wrote), paths, author, serial);
    var r := UndoneGit(mid, mid.head, plan, f);
    forall p
      ensures p in Owned(plan) ==> At(r.index, p) == if p in f.probe then None else At(g.index, p)
      ensures p !in Owned(plan) ==> At(r.index, p) == At(g.index, p)
      ensures p !in Owned(plan) ==> At(r.work, p) == At(g.work, p)
      ensures p in plan.contents || p in plan.drop ==> At(r.work, p) == At(g.work, p)
      ensures p in plan.restore && (p in f.probe ==> p !in plan.before.tree) ==> At(r.work, p) == At(g.work, p)
    {
      UndoDoneAt(mid, mid.head, plan, f, p);
      UndoFrame(mid, mid.head, plan, f, p);
      assert p in Elements(paths) <==> p in Owned(plan);
      if p in plan.drop || p in plan.contents { assert p in Elements(plan.unstage); }
      if p in plan.restore { assert p in Elements(plan.restore); }
    }
    if ProbesSound(plan, f) {
      TreeExtensional(r.index, g.index);
      forall p | p in plan.restore
        ensures At(r.work, p) == At(g.work, p)
      {
        assert p in Owned(plan);
      }
    }
    UndoDoneAt(mid, mid.head, plan, f, "");
    if r.index == g.index {
      forall p | p in Owned(plan) && p in plan.before.tree
        ensures p !in f.probe
      {
        assert At(r.index, p) == At(g.index, p) == At(g.head.tree, p);
      }
    }
  }

  /** The whole work tree is back when the run wrote only files its undo rewrites. */
  lemma CommitThenUndoWholeTree(g: Git, wrote: Tree, author: nat, serial: nat, paths: seq<Path>, plan: UndoPlan,
                                f: Faults)
    requires CleanStart(g, plan) && ProbesSound(plan, f)
    requires Elements(paths) == Owned(plan)
    requires SameOff(wrote, g.work, Elements(plan.restore) + plan.contents.Keys + Elements(plan.drop))
    requires var mid := CommitGit(g.(work := wrote), paths, author, serial);
             UndoneResult(mid, mid.head, plan, f).state == Done
    ensures var mid := CommitGit(g.(work := wrote), paths, author, serial);
            UndoneGit(mid, mid.head, plan, f) == g
  {
    var mid := CommitGit(g.(work := wrote), paths, author, serial);
    var r := UndoneGit(mid, mid.head, plan, f);
    CommitThenUndo(g, wrote, author, serial, paths, plan, f);
    forall p
      ensures At(r.work, p) == At(g.work, p)
    {
      UndoFrame(mid, mid.head, plan, f, p);
    }
    TreeExtensional(r.work, g.work);
  }

  // ------------------------------------------------------------- fast_forward

  predicate UnderPlans(p: Path) {
    "plans/" <= p
  }

  /** Untracked plan records that the upstream commit tracks. */
  function Collisions(g: Git, upstream: Commit): set<Path> {
    set p | p in g.work && p !in g.index && p in upstream.tree && UnderPlans(p)
  }

  /** Can `git merge --ff-only` go through: a descendant, and no local change where it writes. */
  predicate MergeAccepts(g: Git, upstream: Commit) {
    && Ancestor(g.head, upstream)
    && forall p :: p in Changed(g.head.tree, upstream.tree) ==>
         At(g.index, p) == At(g.head.tree, p) && At(g.work, p) == At(g.head.tree, p)
  }

  function Merged(g: Git, upstream: Commit): Git {
    var ps := Changed(g.head.tree, upstream.tree);
    Git(upstream, Overlay(g.index, upstream.tree, ps), Overlay(g.work, upstream.tree, ps))
  }

  /** The records that are set aside: none when they cannot be listed. */
  function Aside(g: Git, upstream: Commit, f: Faults): set<Path> {
    if f.list then {} else Collisions(g, upstream) - f.file
  }

  function WithoutPlans(g: Git, upstream: Commit, f: Faults): Git {
    g.(work := g.work - Aside(g, upstream, f))
  }

  /** Does the fast-forward go through? */
  predicate FastForwards(g: Git, upstream: Commit, f: Faults) {
    !f.merge && MergeAccepts(WithoutPlans(g, upstream, f), upstream)
  }

  function FastForwarded(g: Git, upstream: Commit, f: Faults): Git {
    if FastForwards(g, upstream, f) then Merged(WithoutPlans(g, upstream, f), upstream)
    else g.(work := g.work - (Aside(g, upstream, f) * f.write))
  }

  /** A fast-forward that goes through takes the upstream's version of what it changes,
      takes away only what the upstream deletes or holds itself, and leaves every other
      path alone. */
  lemma FastForwardTakesUpstream(g: Git, upstream: Commit, f: Faults, p: Path)
    requires FastForwards(g, upstream, f)
    ensures var r := FastForwarded(g, upstream, f);
            && r.head == upstream && Ancestor(g.head, upstream)
            && (p in Changed(g.head.tree, upstream.tree) ==>
                  At(r.index, p) == At(upstream.tree, p) && At(r.work, p) == At(upstream.tree, p))
            && (p !in Changed(g.head.tree, upstream.tree) ==> At(r.index, p) == At(g.index, p))
            && (p in g.work && p !in r.work ==>
                  (p in g.head.tree && p !in upstream.tree) || p in Collisions(g, upstream))
            && (p !in Changed(g.head.tree, upstream.tree) && p !in Collisions(g, upstream) ==>
                  At(r.work, p) == At(g.work, p))
  {
    var w := WithoutPlans(g, upstream, f);
    var r := Merged(w, upstream);
    assert At(r.work, p) == if p in Changed(g.head.tree, upstream.tree) then At(upstream.tree, p) else At(w.work, p);
  }

  /** Is `p` a plan record that the checkout does not track and the upstream does? */
  predicate StrayRecord(g: Git, upstream: Commit, p: Path) {
    "plans/" <= p && p in g.work && p !in g.index && p in upstream.tree
  }

  /** No untracked file outside plans/ is ever removed or overwritten, whatever fails and
      whether or not the fast-forward goes through. */
  lemma UntrackedFilesStay(g: Git, upstream: Commit, f: Faults, p: Path)
    requires p in g.work && p !in g.index && !("plans/" <= p)
    ensures At(FastForwarded(g, upstream, f).work, p) == At(g.work, p)
  {
    assert p !in Collisions(g, upstream);
  }

  /** A fast-forward goes through exactly when git does not fail, the upstream is ahead, and
      every path that it changes is clean, or a stray record under plans/ that Bay can list
      and unlink. */
  lemma FastForwardsIff(g: Git, upstream: Commit, f: Faults)
    ensures FastForwards(g, upstream, f) <==>
              && !f.merge && Ancestor(g.head, upstream)
              && forall p :: At(g.head.tree, p) != At(upstream.tree, p) ==>
                   || (At(g.index, p) == At(g.head.tree, p) && At(g.work, p) == At(g.head.tree, p))
                   || (StrayRecord(g, upstream, p) && p !in g.head.tree && !f.list && p !in f.file)
  {
    var w := WithoutPlans(g, upstream, f);
    forall p
      ensures At(w.work, p) == if !f.list && p !in f.file && StrayRecord(g, upstream, p) then None else At(g.work, p)
    {
    }
    if FastForwards(g, upstream, f) {
      forall p | At(g.head.tree, p) != At(upstream.tree, p)
        ensures At(g.index, p) == At(g.head.tree, p) && At(w.work, p) == At(g.head.tree, p)
      {
        assert p in Changed(g.head.tree, upstream.tree);
      }
    }
  }

  /** A refused fast-forward gives back every record it had set aside. */
  lemma RefusedFastForwardChangesNothing(g: Git, upstream: Commit, f: Faults)
    requires !FastForwards(g, upstream, f)
    ensures var r := FastForwarded(g, upstream, f);
            && r.head == g.head && r.index == g.index
            && SameOff(r.work, g.work, Collisions(g, upstream) * f.write)
            && (f.write == {} ==> r == g)
  {
    if f.write == {} {
      assert FastForwarded(g, upstream, f).work == g.work;
    }
  }

  /** The word done, although a tracked path is gone: the undo of a commit of one path,
      of which the probe failed. */
  lemma FailedProbeDropsATrackedPath(path: Path, blob: Blob, other: Blob, author: nat, serial: nat)
    requires blob != other
    ensures var before := Root(map[path := blob]);
            var plan := UndoPlan(before, [path], [], map[], []);
            var f := NO_FAULTS.(probe := {path});
            var g := Git(before, before.tree, before.tree);
            var mid := CommitGit(g.(work := map[path := other]), [path], author, serial);
            var r := UndoneGit(mid, mid.head, plan, f);
            && CleanStart(g, plan) && UndoneResult(mid, mid.head, plan, f) == UndoResult(Done, [])
            && r.head == before && path in before.tree && path !in r.index && path !in r.work
  {
    var before := Root(map[path := blob]);
    var plan := UndoPlan(before, [path], [], map[], []);
    var f := NO_FAULTS.(probe := {path});
    var g := Git(before, before.tree, before.tree);
    var mid := CommitGit(g.(work := map[path := other]), [path], author, serial);
    var failed := FailedPaths(plan, f);
    if failed != [] {
      FailedPathsAt(plan, f, failed[0]);
    }
    UndoDoneAt(mid, mid.head, plan, f, path);
  }

  // -------------------------------------------------------------- the checkout

  class Checkout {
    var head: Commit
    var index: Tree
    var work: Tree

    ghost function State(): Git
      reads this
    {
      Git(head, index, work)
    }

    constructor (g: Git)
      ensures State() == g
    {
      head, index, work := g.head, g.index, g.work;
    }

    method CommitPaths(paths: seq<Path>, author: nat, serial: nat, f: Faults) returns (r: CommitResult)
      modifies this
      ensures State() == CommitLeaves(old(State()), paths, author, serial, f)
      ensures r.Committed? <==> CommitReturns(old(State()), paths, f)
      ensures r.Committed? ==> r.commit == head && State() == CommitGit(old(State()), paths, author, serial)
      ensures r.GitError? ==>
                (head != old(head) <==>
                   !f.add && AddAccepts(old(State()), paths) && MovesHead(old(State()), paths, f) &&
                       (f.head || f.killed))
      ensures head != old(head) ==>
                && head.Child? && head.parent == old(head) && head.author == author && head.serial == serial
                && forall p :: At(head.tree, p) == if p in paths then At(old(work), p) else At(old(head).tree, p)
      ensures work == old(work) && SameOff(index, old(index), Elements(paths))
      ensures index != old(index) ==> forall p :: p in paths ==> At(index, p) == At(old(work), p)
    {
      ghost var start := State();
      if f.add || exists p :: p in paths && p !in work && p !in index {
        return GitError;
      }
      index := Overlay(index, work, Elements(paths));
      var empty := forall p | p in paths :: At(index, p) == At(head.tree, p);
      assert empty == NothingStaged(Staged(start, paths), paths);
      if !f.diff && empty {
        if f.head {
          return GitError;
        }
        return Committed(head);
      }
      if f.commit || empty {
        return GitError;
      }
      ghost var was := head;
      head := Child(head, Overlay(head.tree, work, Elements(paths)), author, serial);
      NotItsOwnParent(was, head);
      if f.killed || f.head {
        return GitError;
      }
      return Committed(head);
    }

    method Undo(commit: Commit, plan: UndoPlan, f: Faults) returns (r: UndoResult)
      modifies this
      ensures State() == UndoneGit(old(State()), commit, plan, f)
      ensures r == UndoneResult(old(State()), commit, plan, f)
    {
      if f.head || head != commit {
        return UndoResult(Moved, []);
      }
      if commit != plan.before {
        if f.reset {
          return UndoResult(ResetFailed, []);
        }
        head := plan.before;
      }
      var a := RestorePaths(plan.before, plan.restore, f);
      var b := UnstagePaths(plan, f);
      var c := DropPaths(plan.drop, f);
      var failed := a + b + c;
      return UndoResult(if failed != [] then Partial else Done, failed);
    }

    method RestorePaths(before: Commit, ps: seq<Path>, f: Faults) returns (failed: seq<Path>)
      modifies this
      ensures State() == RestoreAll(old(State()), before, ps, f)
      ensures failed == FailedRestores(before, ps, f)
    {
      failed := [];
      for i := 0 to |ps|
        invariant State() == RestoreAll(old(State()), before, ps[..i], f)
        invariant failed == FailedRestores(before, ps[..i], f)
      {
        var p := ps[i];
        assert ps[..i + 1][..i] == ps[..i];
        var done := p !in f.git;
        if p in before.tree && p !in f.probe {
          if done {
            index, work := Put(index, p, At(before.tree, p)), Put(work, p, At(before.tree, p));
          }
        } else {
          if done {
            index := Put(index, p, None);
          }
          if p in f.file {
            done := false;
          } else {
            work := Put(work, p, None);
          }
        }
        if !done {
          failed := failed + [p];
        }
      }
      assert ps[..|ps|] == ps;
    }

    method UnstagePaths(plan: UndoPlan, f: Faults) returns (failed: seq<Path>)
      modifies this
      ensures State() == UnstageAll(old(State()), plan, plan.unstage, f)
      ensures failed == FailedUnstages(plan, plan.unstage, f)
    {
      failed := [];
      for i := 0 to |plan.unstage|
        invariant State() == UnstageAll(old(State()), plan, plan.unstage[..i], f)
        invariant failed == FailedUnstages(plan, plan.unstage[..i], f)
      {
        var p := plan.unstage[i];
        assert plan.unstage[..i + 1][..i] == plan.unstage[..i];
        var done := p !in f.git;
        if done {
          index := Put(index, p, if p in plan.before.tree && p !in f.probe then At(plan.before.tree, p) else None);
        }
        if p in plan.contents {
          if p in f.write {
            done := false;
          } else {
            work := Put(work, p, Some(plan.contents[p]));
          }
        }
        if !done {
          failed := failed + [p];
        }
      }
      assert plan.unstage[..|plan.unstage|] == plan.unstage;
    }

    method DropPaths(ps: seq<Path>, f: Faults) returns (failed: seq<Path>)
      modifies this
      ensures State() == DropAll(old(State()), ps, f)
      ensures failed == FailedDrops(ps, f)
    {
      failed := [];
      for i := 0 to |ps|
        invariant State() == DropAll(old(State()), ps[..i], f)
        invariant failed == FailedDrops(ps[..i], f)
      {
        var p := ps[i];
        assert ps[..i + 1][..i] == ps[..i];
        if p in f.file {
          failed := failed + [p];
        } else {
          work := Put(work, p, None);
        }
      }
      assert ps[..|ps|] == ps;
    }

    /** Unlinks the colliding records and returns their bytes; one that cannot be read
        or unlinked stays. */
    method SetAsidePlans(upstream: Commit, f: Faults) returns (removed: Tree)
      modifies this`work
      ensures removed.Keys == Aside(old(State()), upstream, f)
      ensures forall p :: p in removed ==> At(removed, p) == At(old(work), p)
      ensures work == old(work) - removed.Keys
    {
      if f.list {
        return map[];
      }
      var all := set p | p in work && p !in index && p in upstream.tree && UnderPlans(p);
      var rest := all;
      removed := map[];
      while rest != {}
        invariant rest <= all <= old(work).Keys
        invariant removed.Keys == (all - rest) - f.file
        invariant forall p :: p in removed ==> removed[p] == old(work)[p]
        invariant work == old(work) - removed.Keys
        decreases rest
      {
        var p :| p in rest;
        rest := rest - {p};
        if p !in f.file {
          removed := removed[p := work[p]];
          work := work - {p};
        }
      }
    }

    /** Puts the records back after a refused merge; one that is there again stays. */
    method SettlePlans(removed: Tree, f: Faults)
      modifies this`work
      ensures work == old(work) + (removed - f.write - old(work).Keys)
    {
      var rest := removed.Keys;
      while rest != {}
        invariant rest <= removed.Keys
        invariant work == old(work) + (removed - f.write - old(work).Keys - rest)
        decreases rest
      {
        var p :| p in rest;
        if p !in f.write && p !in work {
          work := work[p := removed[p]];
        }
        rest := rest - {p};
      }
    }

    method FastForward(upstream: Commit, f: Faults) returns (ok: bool)
      modifies this
      ensures ok == FastForwards(old(State()), upstream, f)
      ensures State() == FastForwarded(old(State()), upstream, f)
    {
      ghost var before := State();
      var removed := SetAsidePlans(upstream, f);
      assert work == WithoutPlans(before, upstream, f).work;
      if !f.merge && MergeAccepts(Git(head, index, work), upstream) {
        var ps := Changed(head.tree, upstream.tree);
        head, index, work := upstream, Overlay(index, upstream.tree, ps), Overlay(work, upstream.tree, ps);
        return true;
      }
      SettlePlans(removed, f);
      assert work == FastForwarded(before, upstream, f).work;
      return false;
    }
  }
}
