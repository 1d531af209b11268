/** The push after a deploy: push, check with a fetch, and on a refusal rebase onto the
    remote and push again, a bounded number of times, while others keep pushing. */
module ReceiptPush {
  import opened Commits
  import opened FleetProtocol
  import opened Options

  /** How `git rebase` ends: it finishes; or it fails and is aborted; or it fails and stays
      where it is with `left` commits to go, since the abort fails (`told`) or Bay cannot
      read the git directory and does not see the rebase (not `told`). */
  datatype Ending =
    | Finished
    | Aborted(conflicts: seq<Path>)
    | Stuck(left: nat, told: bool, conflicts: seq<Path>)

  /** What happens at one call: the trees others push first, whether our push reaches the
      branch, what git says about it, whether a fetch works, whether git can tell what the
      branch holds, and what a rebase does. */
  datatype Net = Net(
    others: seq<Tree>, lands: bool, reported: bool, fetchOk: bool, tellOk: bool, how: Rebasing, ending: Ending)

  datatype Problem = NoProblem | PushRefused | FetchFailed | WentElsewhere | RebaseFailed | AbortFailed
  datatype PushResult = PushResult(pushed: bool, problem: Problem, rebased: nat, conflicts: seq<Path>)

  // --------------------------------------------------------------- rebased commits

  /** Does a commit of `h` that `onto` lacks change `p`? */
  predicate Touched(h: Commit, onto: Commit, p: Path) {
    !Ancestor(h, onto) && (At(Base(h), p) != At(h.tree, p) || (h.Child? && Touched(h.parent, onto, p)))
  }

  /** Does git leave out a commit of `h` that changes `p`? */
  predicate SkipsChange(h: Commit, onto: Commit, how: Rebasing, p: Path) {
    !Ancestor(h, onto) &&
    ((how.skips(h) && At(Base(h), p) != At(h.tree, p)) || (h.Child? && SkipsChange(h.parent, onto, how, p)))
  }

  /** The tree where the two branches part: that of the newest commit they share. */
  function ForkTree(h: Commit, onto: Commit): Tree {
    if Ancestor(h, onto) then h.tree else if h.Root? then map[] else ForkTree(h.parent, onto)
  }

  /** One file through a rebase: the remote's version, then the changes of each local
      commit that git does not leave out, merged in one after the other. */
  function FileReplayed(h: Commit, onto: Commit, how: Rebasing, p: Path): Option<Blob> {
    if Ancestor(h, onto) then At(onto.tree, p)
    else
      var v := if h.Root? then At(onto.tree, p) else FileReplayed(h.parent, onto, how, p);
      if how.skips(h) then v else MergedAt(p, At(Base(h), p), v, At(h.tree, p), how)
  }

  /** A rebase treats every file by itself: which other files a commit changes, and
      whether it ends up empty, makes no difference. */
  lemma {:induction false} RebaseIsByFile(h: Commit, onto: Commit, how: Rebasing, author: nat, k: nat, p: Path)
    ensures At(Replay(h, onto, how, author, k).0.tree, p) ==
            if Ancestor(onto, h) then At(h.tree, p) else FileReplayed(h, onto, how, p)
  {
    if Ancestor(h, onto) {
      if Ancestor(onto, h) { AncestorAntisymmetric(h, onto); }
    } else if !Ancestor(onto, h) {
      if h.Child? {
        RebaseIsByFile(h.parent, onto, how, author, k, p);
      }
      var (t, l) := if h.Root? then (onto, k) else Replay(h.parent, onto, how, author, k);
      assert At(Picked(h, t, how, author, l).0.tree, p) ==
             if how.skips(h) then At(t.tree, p) else MergedAt(p, At(Base(h), p), At(t.tree, p), At(h.tree, p), how);
    }
  }

  /** A file that no local commit changed has the remote's version. A file that the remote
      has not changed since the branches parted has the local version, unless git leaves
      out a commit that changed it. Only a file that both sides changed is merged. */
  lemma RebaseKeepsChanges(h: Commit, onto: Commit, how: Rebasing, author: nat, k: nat, p: Path)
    ensures var r := Replay(h, onto, how, author, k).0;
            && (!Touched(h, onto, p) ==> At(r.tree, p) == At(onto.tree, p))
            && (At(onto.tree, p) == At(ForkTree(h, onto), p) && (Ancestor(onto, h) || !SkipsChange(h, onto, how, p)) ==>
                  At(r.tree, p) == At(h.tree, p))
  {
    if Ancestor(onto, h) {
      UpToDateIsKept(h, onto, p);
    } else {
      RebaseIsByFile(h, onto, how, author, k, p);
      FileKeepsChanges(h, onto, how, p);
    }
  }

  lemma {:induction false} UpToDateIsKept(h: Commit, onto: Commit, p: Path)
    requires Ancestor(onto, h)
    ensures !Touched(h, onto, p) ==> At(h.tree, p) == At(onto.tree, p)
    ensures Ancestor(h, onto) ==> h == onto
  {
    if Ancestor(h, onto) {
      AncestorAntisymmetric(h, onto);
    } else {
      UpToDateIsKept(h.parent, onto, p);
    }
  }

  lemma {:induction false} FileKeepsChanges(h: Commit, onto: Commit, how: Rebasing, p: Path)
    ensures !Touched(h, onto, p) ==> FileReplayed(h, onto, how, p) == At(onto.tree, p)
    ensures At(onto.tree, p) == At(ForkTree(h, onto), p) && !SkipsChange(h, onto, how, p) ==>
              FileReplayed(h, onto, how, p) == At(h.tree, p)
  {
    if !Ancestor(h, onto) && h.Child? {
      FileKeepsChanges(h.parent, onto, how, p);
    }
  }

  /** The rebase of one commit, file by file: the side that changed a file wins, both sides'
      same change stays, and git merges the text of a file that each side changed in its
      own way. Left out is a commit that git skips, or of which nothing is left. */
  lemma OneCommitRebased(h: Commit, onto: Commit, how: Rebasing, author: nat, k: nat)
    requires h.Child? && Ancestor(h.parent, onto) && h.parent != onto && !Ancestor(h, onto)
    ensures var (r, l) := Replay(h, onto, how, author, k);
            if how.skips(h) then r == onto && l == k
            else
              && (forall p ::
                    var base, ours, theirs := At(h.parent.tree, p), At(h.tree, p), At(onto.tree, p);
                    At(r.tree, p) ==
                    if ours == base || ours == theirs then theirs
                    else if theirs == base then ours
                    else how.text(p, base, theirs, ours))
              && (r == onto <==> r.tree == onto.tree && h.tree != h.parent.tree)
              && (r == onto ==> l == k)
              && (r != onto ==> r == Child(onto, r.tree, author, k) && l == k + 1)
  {
    if Ancestor(onto, h) { AncestorAntisymmetric(onto, h.parent); }
    var tree := MergedTree(h.parent.tree, onto.tree, h.tree, how);
    NotItsOwnParent(onto, Child(onto, tree, author, k));
  }

  function LocalCount(h: Commit, onto: Commit): nat {
    if Ancestor(h, onto) then 0 else if h.Root? then 1 else 1 + LocalCount(h.parent, onto)
  }

  /** Is every local commit put on top: none is skipped and none ends up empty? */
  predicate AllPicked(h: Commit, onto: Commit, how: Rebasing, author: nat, k: nat) {
    if Ancestor(h, onto) || Ancestor(onto, h) then true
    else
      var (p, l) := if h.Root? then (onto, k) else Replay(h.parent, onto, how, author, k);
      Picked(h, p, how, author, l).0 != p && (h.Child? ==> AllPicked(h.parent, onto, how, author, k))
  }

  /** A rebase adds no commit, and loses none exactly when git leaves none out. */
  lemma {:induction false} RebaseCount(h: Commit, onto: Commit, how: Rebasing, author: nat, k: nat)
    ensures var r := Replay(h, onto, how, author, k).0;
            && Depth(onto) <= Depth(r) <= Depth(onto) + LocalCount(h, onto)
            && (Depth(r) == Depth(onto) + LocalCount(h, onto) <==> AllPicked(h, onto, how, author, k))
  {
    if Ancestor(h, onto) {
    } else if Ancestor(onto, h) {
      UpToDateCount(h, onto);
    } else {
      if h.Child? {
        RebaseCount(h.parent, onto, how, author, k);
      }
      var (p, l) := if h.Root? then (onto, k) else Replay(h.parent, onto, how, author, k);
      assert Picked(h, p, how, author, l).0 != p ==> Depth(Picked(h, p, how, author, l).0) == Depth(p) + 1;
    }
  }

  lemma {:induction false} UpToDateCount(h: Commit, onto: Commit)
    requires Ancestor(onto, h)
    ensures Depth(h) == Depth(onto) + LocalCount(h, onto)
  {
    if Ancestor(h, onto) {
      AncestorAntisymmetric(h, onto);
    } else {
      UpToDateCount(h.parent, onto);
    }
  }

  lemma {:induction false} ReplayHolds(h: Commit, onto: Commit, how: Rebasing, author: nat, k: nat)
    ensures Ancestor(onto, Replay(h, onto, how, author, k).0)
  {
    if !Ancestor(h, onto) && !Ancestor(onto, h) {
      var (p, l) := if h.Root? then (onto, k) else Replay(h.parent, onto, how, author, k);
      if h.Child? {
        ReplayHolds(h.parent, onto, how, author, k);
      }
      AncestorTransitive(onto, p, Picked(h, p, how, author, l).0);
    }
  }

  // ------------------------------------------------------------------- the session

  function OthersPush(tip: Commit, trees: seq<Tree>, serial: nat): Commit
    decreases |trees|
  {
    if trees == [] then tip else OthersPush(Child(tip, trees[0], 0, serial), trees[1..], serial + 1)
  }

  lemma {:induction false} OthersFastForward(tip: Commit, trees: seq<Tree>, serial: nat)
    ensures Ancestor(tip, OthersPush(tip, trees, serial))
    decreases |trees|
  {
    if trees != [] {
      var next := Child(tip, trees[0], 0, serial);
      OthersFastForward(next, trees[1..], serial + 1);
      AncestorTransitive(tip, next, OthersPush(tip, trees, serial));
    }
  }

  // ------------------------------------------------------------ what the calls do

  /** HEAD, the branch of the remote and the next serial. */
  datatype World = World(head: Commit, tip: Commit, serial: nat)

  function OthersIn(w: World, net: Net): World {
    World(w.head, OthersPush(w.tip, net.others, w.serial), w.serial + |net.others|)
  }

  function PushedIn(w: World, net: Net): World {
    var v := OthersIn(w, net);
    if net.lands && Ancestor(v.tip, v.head) then v.(tip := v.head) else v
  }

  function RebasedIn(w: World, net: Net, author: nat): World {
    var v := OthersIn(w, net);
    if !net.fetchOk || net.ending.Aborted? then v
    else
      var h := if net.ending.Stuck? then Back(v.head, net.ending.left) else v.head;
      var (tip, serial) := Replay(h, v.tip, net.how, author, v.serial);
      v.(head := tip, serial := serial)
  }

  /** What happens at call `c`. */
  function NetAt(script: nat -> Net, c: nat): Net {
    script(c)
  }

  /** Does the rebase at this call finish? */
  predicate Finishes(net: Net) {
    net.fetchOk && net.ending.Finished?
  }

  /** A refused push, and the fetch and rebase behind it. */
  function Round(w: World, push: Net, rebase: Net, author: nat): World {
    RebasedIn(PushedIn(w, push), rebase, author)
  }

  /** Round `k` of a history: push `k`, which git refused, is call `2 * k` behind `c`, and
      the rebase behind it finished. */
  predicate RoundAt(history: seq<World>, script: nat -> Net, c: nat, author: nat, k: nat)
    requires k + 1 < |history|
  {
    var push, rebase := NetAt(script, c + 2 * k), NetAt(script, c + 2 * k + 1);
    !push.reported && Finishes(rebase) && history[k + 1] == Round(history[k], push, rebase, author)
  }

  /** The worlds before each push, from call `c` on. */
  predicate IsHistory(history: seq<World>, script: nat -> Net, c: nat, author: nat) {
    history != [] && forall k: nat | k + 1 < |history| :: RoundAt(history, script, c, author, k)
  }

  lemma HistoryGrows(history: seq<World>, w: World, script: nat -> Net, c: nat, author: nat)
    requires IsHistory(history, script, c, author)
    requires var n := |history| - 1;
             var push, rebase := NetAt(script, c + 2 * n), NetAt(script, c + 2 * n + 1);
             !push.reported && Finishes(rebase) && w == Round(history[n], push, rebase, author)
    ensures IsHistory(history + [w], script, c, author)
  {
    forall k: nat | k + 1 < |history + [w]| ensures RoundAt(history + [w], script, c, author, k) {
      if k + 1 < |history| { assert RoundAt(history, script, c, author, k); }
    }
  }

  /** The branch moves forward, and HEAD stays or builds on where the branch was. */
  predicate Grows(w: World, v: World) {
    Ancestor(w.tip, v.tip) && (v.head == w.head || Ancestor(w.tip, v.head))
  }

  lemma GrowsOn(u: World, v: World, w: World)
    requires Grows(u, v) && Grows(v, w)
    ensures Grows(u, w)
  {
    AncestorTransitive(u.tip, v.tip, w.tip);
    if w.head != v.head { AncestorTransitive(u.tip, v.tip, w.head); }
  }

  lemma OthersGrow(w: World, net: Net)
    ensures Grows(w, OthersIn(w, net))
  {
    OthersFastForward(w.tip, net.others, w.serial);
  }

  lemma PushGrows(w: World, net: Net)
    ensures Grows(w, PushedIn(w, net))
  {
    var v := OthersIn(w, net);
    OthersGrow(w, net);
    if net.lands && Ancestor(v.tip, v.head) { AncestorTransitive(w.tip, v.tip, v.head); }
  }

  lemma RebaseGrows(w: World, net: Net, author: nat)
    ensures Grows(w, RebasedIn(w, net, author))
  {
    var v := OthersIn(w, net);
    OthersGrow(w, net);
    if net.fetchOk && !net.ending.Aborted? {
      var h := if net.ending.Stuck? then Back(v.head, net.ending.left) else v.head;
      ReplayHolds(h, v.tip, net.how, author, v.serial);
      AncestorTransitive(w.tip, v.tip, Replay(h, v.tip, net.how, author, v.serial).0);
    }
  }

  /** What a fetch with a rebase does to HEAD: nothing when it fails or is aborted; else HEAD
      is built on the branch as the fetch found it, from all local commits when the rebase
      finishes and from all but the newest `left` when it is stuck. */
  lemma RebaseMovesHead(w: World, net: Net, author: nat)
    ensures var v, tip := RebasedIn(w, net, author), OthersPush(w.tip, net.others, w.serial);
            && v.tip == tip
            && (!net.fetchOk || net.ending.Aborted? ==> v.head == w.head)
            && (net.fetchOk && !net.ending.Aborted? ==>
                  var left := if net.ending.Stuck? then net.ending.left else 0;
                  Ancestor(tip, v.head) &&
                  v.head == Replay(Back(w.head, left), tip, net.how, author, w.serial + |net.others|).0)
  {
    var v := OthersIn(w, net);
    ReplayHolds(if net.ending.Stuck? then Back(v.head, net.ending.left) else v.head, v.tip, net.how, author, v.serial);
  }

  lemma RoundGrows(w: World, push: Net, rebase: Net, author: nat)
    ensures Grows(w, Round(w, push, rebase, author))
  {
    PushGrows(w, push);
    RebaseGrows(PushedIn(w, push), rebase, author);
    GrowsOn(w, PushedIn(w, push), Round(w, push, rebase, author));
  }

  lemma {:induction false} HistoryMovesForward(history: seq<World>, script: nat -> Net, c: nat, author: nat, n: nat)
    requires IsHistory(history, script, c, author) && n < |history|
    ensures Grows(history[0], history[n])
  {
    if n > 0 {
      HistoryMovesForward(history, script, c, author, n - 1);
      assert RoundAt(history, script, c, author, n - 1);
      RoundGrows(history[n - 1], NetAt(script, c + 2 * (n - 1)), NetAt(script, c + 2 * (n - 1) + 1), author);
      GrowsOn(history[0], history[n - 1], history[n]);
    }
  }

  /** What stopped a push with rebases that ended in `v`, seen from the world before its
      last push: git accepted that push, and then the check decides; git refused it and no
      attempt was left; or it refused it and the rebase at the next call did not finish. */
  predicate StopsBy(r: PushResult, attempts: nat, push: Net, next: Net, before: World, author: nat, v: World) {
    var there := PushedIn(before, push);
    if push.reported then
      && v == OthersIn(there, next) && r.conflicts == []
      && (r.pushed <==> next.fetchOk && next.tellOk && Ancestor(v.head, v.tip))
      && r.problem == if r.pushed then NoProblem else if !next.fetchOk then FetchFailed else WentElsewhere
    else if r.rebased == attempts then
      v == there && !r.pushed && r.problem == PushRefused && r.conflicts == []
    else
      && v == RebasedIn(there, next, author) && !r.pushed && !Finishes(next)
      && r.problem == ProblemOf(next) && r.conflicts == ConflictsOf(next)
  }

  /** Why a rebase did not finish, and the files it names. */
  function ProblemOf(net: Net): Problem {
    if !net.fetchOk then FetchFailed
    else if net.ending.Stuck? && net.ending.told then AbortFailed
    else RebaseFailed
  }

  function ConflictsOf(net: Net): seq<Path> {
    if !net.fetchOk || net.ending.Finished? then [] else net.ending.conflicts
  }

  /** A rebase finishes exactly when the fetch works and git says so; else the problem is the
      fetch, or an abort that Bay saw fail, or the rebase, and the files are git's. */
  lemma RebaseEnds(net: Net)
    ensures Finishes(net) <==> net.fetchOk && net.ending == Finished
    ensures ProblemOf(net) == FetchFailed <==> !net.fetchOk
    ensures ProblemOf(net) == AbortFailed <==> net.fetchOk && net.ending.Stuck? && net.ending.told
    ensures ProblemOf(net) in {FetchFailed, AbortFailed, RebaseFailed}
    ensures match net.ending
            case Finished => ConflictsOf(net) == []
            case Aborted(paths) => ConflictsOf(net) == if net.fetchOk then paths else []
            case Stuck(_, _, paths) => ConflictsOf(net) == if net.fetchOk then paths else []
  {
  }

  /** A push with rebases moves the branch forward, and a commit that was on the branch and
      in HEAD (the claim of the run) is still in HEAD, by the same id. Without a finished
      rebase HEAD stays, unless the first one got stuck. */
  lemma PushKeepsTheClaim(r: PushResult, attempts: nat, script: nat -> Net, c: nat, author: nat,
                          history: seq<World>, v: World)
    requires IsHistory(history, script, c, author) && |history| == r.rebased + 1
    requires StopsBy(r, attempts, NetAt(script, c + 2 * r.rebased), NetAt(script, c + 2 * r.rebased + 1),
                     history[r.rebased], author, v)
    ensures var w := history[0];
            && Ancestor(w.tip, v.tip)
            && (forall d :: Ancestor(d, w.head) && Ancestor(d, w.tip) ==> Ancestor(d, v.head))
            && (r.rebased == 0 && !NetAt(script, c + 1).ending.Stuck? ==> v.head == w.head)
  {
    var push, next := NetAt(script, c + 2 * r.rebased), NetAt(script, c + 2 * r.rebased + 1);
    var w, before := history[0], history[r.rebased];
    var there := PushedIn(before, push);
    HistoryMovesForward(history, script, c, author, r.rebased);
    PushGrows(before, push);
    GrowsOn(w, before, there);
    OthersGrow(there, next);
    RebaseGrows(there, next, author);
    if v != there { GrowsOn(w, there, v); }
    if v.head != w.head {
      forall d | Ancestor(d, w.head) && Ancestor(d, w.tip) ensures Ancestor(d, v.head) {
        AncestorTransitive(d, w.tip, v.head);
      }
    }
  }

  /** The tracked branch of the remote, which every machine moves. */
  class Branch {
    var tip: Commit

    constructor (c: Commit)
      ensures tip == c
    {
      tip := c;
    }
  }

  class Session {
    const branch: Branch
    const author: nat
    var head: Commit
    var tracking: Commit
    var serial: nat
    var calls: nat                 // network calls made
    ghost var pushes: nat

    ghost function Now(): World
      reads this, branch
    {
      World(head, branch.tip, serial)
    }

    constructor (b: Branch, a: nat, h: Commit, s: nat)
      ensures branch == b && head == h && pushes == 0
    {
      branch, author, head, tracking, serial, calls := b, a, h, h, s, 0;
      pushes := 0;
    }

    /** Others first; then the branch takes our HEAD when the push reaches it and it is a
        fast-forward. What git reports is independent of that. */
    method PushUpstream(net: Net) returns (pushed: bool)
      modifies this, branch
      ensures head == old(head) && tracking == old(tracking) && pushes == old(pushes) + 1 && calls == old(calls) + 1
      ensures pushed == net.reported
      ensures var tip := OthersPush(old(branch.tip), net.others, old(serial));
              branch.tip == if net.lands && Ancestor(tip, head) then head else tip
      ensures Now() == PushedIn(old(Now()), net)
    {
      branch.tip := OthersPush(branch.tip, net.others, serial);
      serial := serial + |net.others|;
      if net.lands && Ancestor(branch.tip, head) {
        branch.tip := head;
      }
      calls := calls + 1;
      pushes := pushes + 1;
      return net.reported;
    }

    method Fetch(net: Net) returns (ok: bool)
      modifies this, branch
      ensures ok == net.fetchOk
      ensures pushes == old(pushes)
      ensures tracking == if ok then branch.tip else old(tracking)
      ensures Now() == OthersIn(old(Now()), net) && calls == old(calls) + 1
    {
      branch.tip := OthersPush(branch.tip, net.others, serial);
      serial := serial + |net.others|;
      calls := calls + 1;
      if net.fetchOk {
        tracking := branch.tip;
      }
      return net.fetchOk;
    }

    /** Push and check. `refused` is true when git refused the push, so a rebase may help.
        Otherwise the next call fetches, and pushed means that the branch is seen to hold
        HEAD. */
    method PushChecked(script: nat -> Net) returns (pushed: bool, problem: Problem, refused: bool)
      modifies this, branch
      ensures head == old(head) && pushes == old(pushes) + 1
      ensures refused <==> !NetAt(script, old(calls)).reported
      ensures calls == old(calls) + if refused then 1 else 2
      ensures var pushed := PushedIn(old(Now()), NetAt(script, old(calls)));
              Now() == if refused then pushed else OthersIn(pushed, NetAt(script, old(calls) + 1))
      ensures var check := NetAt(script, old(calls) + 1);
              && (pushed <==> !refused && check.fetchOk && check.tellOk && Ancestor(head, branch.tip))
              && problem == if pushed then NoProblem
                            else if refused then PushRefused
                            else if !check.fetchOk then FetchFailed
                            else WentElsewhere
    {
      var said := PushUpstream(NetAt(script, calls));
      if !said {
        return false, PushRefused, true;
      }
      var net := NetAt(script, calls);
      var ok := Fetch(net);
      if !ok {
        return false, FetchFailed, false;
      }
      if net.tellOk && Ancestor(head, tracking) {
        return true, NoProblem, false;
      }
      return false, WentElsewhere, false;
    }

    /** Fetch and rebase once. A failed rebase is aborted and HEAD stays, unless the
        rebase is stuck: then HEAD is where it stopped, and the problem names the abort
        only when Bay could tell. */
    method PullRebase(net: Net) returns (ok: bool, problem: Problem, conflicts: seq<Path>)
      modifies this, branch
      ensures pushes == old(pushes) && calls == old(calls) + 1
      ensures Now() == RebasedIn(old(Now()), net, author)
      ensures ok <==> Finishes(net)
      ensures problem == if ok then NoProblem else ProblemOf(net)
      ensures conflicts == ConflictsOf(net)
    {
      var fetched := Fetch(net);
      if !fetched {
        return false, FetchFailed, [];
      }
      match net.ending
      case Finished =>
        MoveTo(head, net.how);
        return true, NoProblem, [];
      case Aborted(paths) =>
        return false, RebaseFailed, paths;
      case Stuck(left, told, paths) =>
        MoveTo(Back(head, left), net.how);
        return false, if told then AbortFailed else RebaseFailed, paths;
    }

    method MoveTo(h: Commit, how: Rebasing)
      modifies this
      ensures (head, serial) == Replay(h, tracking, how, author, old(serial))
      ensures tracking == old(tracking) && pushes == old(pushes) && calls == old(calls)
    {
      var (tip, k) := Replay(h, tracking, how, author, serial);
      head, serial := tip, k;
    }

    /** Call by call: a refused push with attempts left is followed by a fetch and a rebase,
        and a rebase that finishes by the next push. `history` holds the worlds before each
        push, so `rebased` counts the finished rebases; `StopsBy` says what the push after
        them, or the call behind it, made of the result. */
    method PushWithRebase(attempts: nat, script: nat -> Net) returns (r: PushResult, ghost history: seq<World>)
      modifies this, branch
      ensures r.rebased <= attempts && pushes == old(pushes) + r.rebased + 1
      ensures IsHistory(history, script, old(calls), author)
      ensures |history| == r.rebased + 1 && history[0] == old(Now())
      ensures StopsBy(r, attempts, NetAt(script, old(calls) + 2 * r.rebased),
                      NetAt(script, old(calls) + 2 * r.rebased + 1), history[r.rebased], author, Now())
      ensures r.pushed ==> Ancestor(head, branch.tip)
      ensures Ancestor(old(branch.tip), branch.tip)
      ensures r.rebased == 0 && !NetAt(script, old(calls) + 1).ending.Stuck? ==> head == old(head)
      ensures forall c :: Ancestor(c, old(head)) && Ancestor(c, old(branch.tip)) ==> Ancestor(c, head)
    {
      r, history := PushAndRetry(attempts, script);
      PushKeepsTheClaim(r, attempts, script, old(calls), author, history, Now());
    }

    method PushAndRetry(attempts: nat, script: nat -> Net) returns (r: PushResult, ghost history: seq<World>)
      modifies this, branch
      ensures r.rebased <= attempts && pushes == old(pushes) + r.rebased + 1
      ensures IsHistory(history, script, old(calls), author)
      ensures |history| == r.rebased + 1 && history[0] == old(Now())
      ensures StopsBy(r, attempts, NetAt(script, old(calls) + 2 * r.rebased),
                      NetAt(script, old(calls) + 2 * r.rebased + 1), history[r.rebased], author, Now())
    {
      history := [Now()];
      var pushed, problem, refused := PushChecked(script);
      if pushed {
        return PushResult(true, NoProblem, 0, []), history;
      }
      r := PushResult(false, problem, 0, []);
      if !refused {
        return;
      }
      r, history := Retry(attempts, script, calls - 1, history[0]);
    }

    /** One turn of the loop behind call `c`: push `i` was refused, the next call rebases, and
        then comes push `i + 1`. `again`: that one was refused too. */
    method RebaseAndPush(attempts: nat, i: nat, script: nat -> Net, ghost c: nat, ghost before: seq<World>)
      returns (r: PushResult, again: bool, ghost history: seq<World>)
      modifies this, branch
      requires i < attempts && |before| == i + 1 && IsHistory(before, script, c, author)
      requires calls == c + 2 * i + 1 && !NetAt(script, c + 2 * i).reported
      requires Now() == PushedIn(before[i], NetAt(script, c + 2 * i))
      ensures i <= r.rebased <= i + 1 && pushes == old(pushes) + r.rebased - i
      ensures IsHistory(history, script, c, author) && |history| == r.rebased + 1 && history[0] == before[0]
      ensures again ==>
                && r == PushResult(false, PushRefused, i + 1, []) && calls == c + 2 * r.rebased + 1
                && !NetAt(script, c + 2 * r.rebased).reported
                && Now() == PushedIn(history[r.rebased], NetAt(script, c + 2 * r.rebased))
      ensures !again ==>
                StopsBy(r, attempts, NetAt(script, c + 2 * r.rebased), NetAt(script, c + 2 * r.rebased + 1),
                        history[r.rebased], author, Now())
    {
      history := before;
      ghost var k := c + 2 * i;
      ghost var v := Round(before[i], NetAt(script, k), NetAt(script, k + 1), author);
      var ok, problem, conflicts := PullRebase(NetAt(script, calls));
      if !ok {
        return PushResult(false, problem, i, conflicts), false, history;
      }
      HistoryGrows(history, v, script, c, author);
      history := history + [v];
      var pushed;
      pushed, problem, again := PushChecked(script);
      r := PushResult(pushed, problem, i + 1, []);
    }

    /** The loop behind a refused push at call `c`. */
    method Retry(attempts: nat, script: nat -> Net, ghost c: nat, ghost w: World)
      returns (r: PushResult, ghost history: seq<World>)
      modifies this, branch
      requires calls == c + 1 && !NetAt(script, c).reported && Now() == PushedIn(w, NetAt(script, c))
      ensures r.rebased <= attempts && pushes == old(pushes) + r.rebased
      ensures IsHistory(history, script, c, author) && |history| == r.rebased + 1 && history[0] == w
      ensures StopsBy(r, attempts, NetAt(script, c + 2 * r.rebased), NetAt(script, c + 2 * r.rebased + 1),
                      history[r.rebased], author, Now())
    {
      r, history := PushResult(false, PushRefused, 0, []), [w];
      for i := 0 to attempts
        invariant r == PushResult(false, PushRefused, i, []) && pushes == old(pushes) + i && calls == c + 2 * i + 1
        invariant IsHistory(history, script, c, author) && |history| == i + 1 && history[0] == w
        invariant !NetAt(script, c + 2 * i).reported && Now() == PushedIn(history[i], NetAt(script, c + 2 * i))
      {
        var again;
        r, again, history := RebaseAndPush(attempts, i, script, c, history);
        if !again {
          return;
        }
      }
    }
  }
}
