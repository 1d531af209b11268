/** Several machines that claim, deploy and record on one fleet branch.

    The remote branch moves only by fast-forward. A machine that runs `bay up`
    commits, pushes the commit before the deploy (the claim), checks with a
    fetch that the branch holds it, deploys, and pushes the receipt. Any step
    may be the last one: a refusal, Ctrl-C or a kill. Steps of all machines, of
    people who edit, commit or push by hand in a checkout, and of people who
    push from elsewhere interleave freely. */
module FleetProtocol {
  import opened Options
  import opened Commits
  import opened Checkouts

  type MachineId = nat

  /** The most rebases of one push after a deploy. */
  const REBASES := 2

  // ------------------------------------------------------------------- the state

  /** `start` is the checkout when the run began; `plan` is what an undo puts back. */
  datatype Run = Run(start: Git, plan: UndoPlan)

  datatype Phase =
    | Idle
    | Writing(run: Run)                    // locks, services file and plan record; no commit yet
    | HeadMoved(run: Run)                  // git committed, the run has not noted the commit yet
    | Recorded(run: Run, commit: Commit)   // the commit is noted, the claim has not started
    | Claiming(run: Run, commit: Commit)   // the claim has started
    | Refused(run: Run, commit: Commit)    // the check did not find the commit, the undo is next
    | Held(run: Run, commit: Commit)       // the check found the commit, the run has not noted it yet
    | Claimed(run: Run, commit: Commit)
    | Deploying(run: Run, commit: Commit)  // the playbook has started
    | Settled(run: Run, commit: Commit, rebases: nat)

  /** `leaked`: someone pushed by hand from this checkout between the begin of the run and
      its claim. */
  datatype Machine = Machine(git: Git, tracking: Commit, phase: Phase, leaked: bool)

  /** `tips` is every commit the remote branch has pointed at, oldest first. */
  datatype State = State(tips: seq<Commit>, clock: nat, machines: map<MachineId, Machine>, deploys: seq<Commit>)

  function Remote(s: State): Commit
    requires s.tips != []
  {
    s.tips[|s.tips| - 1]
  }

  /** Steps that leave HEAD and the fetched branch alone. */
  datatype Quiet =
    | Edit(path: Path, value: Option<Blob>, staged: bool)   // another session
    | Begin(plan: UndoPlan)
    | Write(path: Path, blob: Blob)
    | Add                                                   // the first half of the commit: git add
    | Record
    | StartClaim
    | NoteClaim
    | StartPlaybook
    | Settle
    | End
    | Kill

  /** Steps that commit. `LocalCommit` is someone else in the same checkout. */
  datatype Committing = LocalCommit(tree: Tree) | CommitFiles | Receipt(wrote: Tree)

  /** How the question "does the branch hold the commit" goes: the fetch may fail, and
      after a fetch that worked git may fail to tell (`is_ancestor` answers None). */
  datatype Asking = Asking(fetchOk: bool, tellOk: bool)

  /** Steps that put files back. */
  datatype Undoing = ClaimUndo | Interrupt(asking: Asking) | InterruptInUndo(paths: nat, asking: Asking)

  /** What git decides in a rebase: the text of a file that both sides changed, and which
      commits it leaves out because the remote has their change already. */
  datatype Rebasing = Rebasing(
    text: (Path, Option<Blob>, Option<Blob>, Option<Blob>) -> Option<Blob>, skips: Commit -> bool)

  /** Steps that talk to the remote. `reported` is what git said about the push; a rebase
      that could not be finished nor aborted leaves HEAD with `left` commits to go. */
  datatype Syncing = Pull | Push(lands: bool, reported: bool) | Check(asking: Asking) | Rebase(how: Rebasing, left: nat)

  datatype Action = Q(q: Quiet) | C(c: Committing) | U(u: Undoing) | R(r: Syncing)

  /** `Outside` is a push from elsewhere. */
  datatype Event = Outside(tree: Tree) | Act(m: MachineId, a: Action)

  // ------------------------------------------------------- what one step computes

  /** The paths of the run's fleet commit. */
  function RunPaths(plan: UndoPlan): seq<Path> {
    plan.restore + plan.unstage
  }

  /** `claim` puts back the old bytes of the plan record but leaves a new one. */
  function ClaimPlan(plan: UndoPlan): UndoPlan {
    plan.(drop := [])
  }

  /** The first `n` paths that a loop has reached. */
  function Reached(ps: seq<Path>, n: int): seq<Path> {
    if n <= 0 then [] else if n < |ps| then ps[..n] else ps
  }

  /** An undo cut short after its reset and the first `n` paths. */
  function PartUndone(g: Git, plan: UndoPlan, n: nat): Git {
    var g1 := RestoreAll(g, plan.before, Reached(plan.restore, n), NO_FAULTS);
    UnstageAll(g1, plan, Reached(plan.unstage, n - |plan.restore|), NO_FAULTS)
  }

  predicate UndoReached(plan: UndoPlan, n: nat, p: Path) {
    p in Reached(plan.restore, n) || p in Reached(plan.unstage, n - |plan.restore|)
  }

  /** `landed`, as its callers read it: true only when the fetch worked and git could tell. */
  predicate FoundOn(commit: Commit, remote: Commit, asking: Asking) {
    asking.fetchOk && asking.tellOk && Ancestor(commit, remote)
  }

  /** `_unwind`, after the test that the playbook has not started: once a claim has
      started and is not noted, it undoes when the fetch worked and the commit was not
      found. */
  function Unwound(g: Git, phase: Phase, remote: Commit, asking: Asking): Git {
    match phase
    case Writing(run) => UndoneGit(g, run.plan.before, run.plan, NO_FAULTS)
    case HeadMoved(run) => UndoneGit(g, run.plan.before, run.plan, NO_FAULTS)
    case Recorded(run, commit) => UndoneGit(g, commit, run.plan, NO_FAULTS)
    case Claiming(run, commit) => UnlessFound(g, run, commit, remote, asking)
    case Refused(run, commit) => UnlessFound(g, run, commit, remote, asking)
    case Held(run, commit) => UnlessFound(g, run, commit, remote, asking)
    case _ => g
  }

  function UnlessFound(g: Git, run: Run, commit: Commit, remote: Commit, asking: Asking): Git {
    if !asking.fetchOk || FoundOn(commit, remote, asking) then g else UndoneGit(g, commit, run.plan, NO_FAULTS)
  }

  /** One file of a rebased commit: the side that changed it wins; git merges the text of
      a file that both sides changed. */
  function MergedAt(p: Path, base: Option<Blob>, ours: Option<Blob>, theirs: Option<Blob>,
                    how: Rebasing): Option<Blob> {
    if theirs == base then ours
    else if ours == base || ours == theirs then theirs
    else how.text(p, base, ours, theirs)
  }

  function MergedTree(base: Tree, ours: Tree, theirs: Tree, how: Rebasing): (r: Tree)
    ensures forall p :: At(r, p) == MergedAt(p, At(base, p), At(ours, p), At(theirs, p), how)
  {
    map p | p in base.Keys + ours.Keys + theirs.Keys && MergedAt(p, At(base, p), At(ours, p), At(theirs, p), how).Some?
      :: MergedAt(p, At(base, p), At(ours, p), At(theirs, p), how).value
  }

  /** The tree that a commit of `h` was made from. */
  function Base(h: Commit): Tree {
    if h.Root? then map[] else h.parent.tree
  }

  /** One commit put on top of `p`: left out when git skips it, or when nothing of it is
      left. */
  function Picked(h: Commit, p: Commit, how: Rebasing, author: nat, serial: nat): (Commit, nat) {
    var tree := MergedTree(Base(h), p.tree, h.tree, how);
    if how.skips(h) || (tree == p.tree && h.tree != Base(h)) then (p, serial)
    else (Child(p, tree, author, serial), serial + 1)
  }

  /** The local commits of `h` put on top of `onto`, one by one; a commit that `onto`
      holds already is not replayed, and a branch that is up to date stays as it is.
      Returns the new tip and the next serial. */
  function Replay(h: Commit, onto: Commit, how: Rebasing, author: nat, serial: nat): (Commit, nat) {
    if Ancestor(h, onto) then (onto, serial)
    else if Ancestor(onto, h) then (h, serial)
    else
      var (p, k) := if h.Root? then (onto, serial) else Replay(h.parent, onto, how, author, serial);
      Picked(h, p, how, author, k)
  }

  /** `h` without its newest `n` commits. */
  function Back(h: Commit, n: nat): Commit {
    if n == 0 || h.Root? then h else Back(h.parent, n - 1)
  }

  /** A push moves the branch when it reaches it and the branch tip is an ancestor of HEAD. */
  function Pushed(tips: seq<Commit>, head: Commit, lands: bool): seq<Commit>
    requires tips != []
  {
    var tip := tips[|tips| - 1];
    if lands && Ancestor(tip, head) && head != tip then tips + [head] else tips
  }

  function With(s: State, m: MachineId, x: Machine): State {
    s.(machines := s.machines[m := x])
  }

  predicate HasRun(p: Phase) { !p.Idle? }

  /** The run has begun and its claim has not. */
  predicate BeforeClaim(p: Phase) {
    p.Writing? || p.HeadMoved? || p.Recorded?
  }

  predicate HasCommit(p: Phase) {
    p.Recorded? || p.Claiming? || p.Refused? || p.Held? || p.Claimed? || p.Deploying? || p.Settled?
  }

  ghost predicate QuietEnabled(x: Machine, q: Quiet) {
    match q
    case Edit(_, _, _) => true
    case Begin(plan) => x.phase.Idle? && CleanStart(x.git, plan) && Ancestor(x.tracking, x.git.head)
    case Write(p, _) =>
      x.phase.Writing? &&
      (p in x.phase.run.plan.restore || p in x.phase.run.plan.contents || p in x.phase.run.plan.drop)
    case Add => x.phase.Writing?
    case Record => x.phase.HeadMoved?
    case StartClaim => x.phase.Recorded?
    case NoteClaim => x.phase.Held?
    case StartPlaybook => x.phase.Claimed?
    case Settle => x.phase.Claimed? || x.phase.Deploying?
    case End => x.phase.Settled?
    case Kill => true
  }

  ghost function QuietNext(x: Machine, q: Quiet): Machine
    requires QuietEnabled(x, q)
  {
    var g := x.git;
    match q
    case Edit(p, v, staged) =>
      x.(git := if staged then g.(index := Put(g.index, p, v)) else g.(work := Put(g.work, p, v)))
    case Begin(plan) => x.(phase := Writing(Run(g, plan)), leaked := false)
    case Write(p, b) => x.(git := g.(work := Put(g.work, p, Some(b))))
    case Add => x.(git := Staged(g, RunPaths(x.phase.run.plan)))
    case Record => x.(phase := Recorded(x.phase.run, g.head))
    case StartClaim => x.(phase := Claiming(x.phase.run, x.phase.commit))
    case NoteClaim => x.(phase := Claimed(x.phase.run, x.phase.commit))
    case StartPlaybook => x.(phase := Deploying(x.phase.run, x.phase.commit))
    case Settle => x.(phase := Settled(x.phase.run, x.phase.commit, 0))
    case End => x.(phase := Idle)
    case Kill => x.(phase := Idle)
  }

  ghost predicate CommitEnabled(x: Machine, c: Committing) {
    match c
    case LocalCommit(_) => true
    case CommitFiles => x.phase.Writing?
    case Receipt(wrote) => x.phase.Settled? && SameOff(wrote, x.git.work, Elements(x.phase.run.plan.restore))
  }

  ghost function CommitNext(x: Machine, c: Committing, m: MachineId, clock: nat): Machine
    requires CommitEnabled(x, c)
  {
    var g := x.git;
    match c
    case LocalCommit(tree) => x.(git := g.(head := Child(g.head, tree, m, clock)))
    case CommitFiles =>
      x.(git := CommitGit(g, RunPaths(x.phase.run.plan), m, clock), phase := HeadMoved(x.phase.run))
    case Receipt(wrote) => x.(git := CommitGit(g.(work := wrote), x.phase.run.plan.restore, m, clock))
  }

  predicate UndoEnabled(x: Machine, u: Undoing) {
    match u
    case ClaimUndo => x.phase.Refused?
    case Interrupt(_) => HasRun(x.phase)
    case InterruptInUndo(_, _) => x.phase.Refused? && x.git.head == x.phase.commit
  }

  function UndoNext(x: Machine, u: Undoing, remote: Commit): Machine
    requires UndoEnabled(x, u)
  {
    match u
    case ClaimUndo =>
      x.(git := UndoneGit(x.git, x.phase.commit, ClaimPlan(x.phase.run.plan), NO_FAULTS), phase := Idle)
    case Interrupt(asking) => x.(git := Unwound(x.git, x.phase, remote, asking), phase := Idle)
    case InterruptInUndo(n, asking) =>
      var part := PartUndone(x.git.(head := x.phase.run.plan.before), ClaimPlan(x.phase.run.plan), n);
      x.(git := Unwound(part, x.phase, remote, asking), phase := Idle)
  }

  predicate SyncEnabled(x: Machine, r: Syncing) {
    match r
    case Pull => x.phase.Idle?
    case Push(_, _) => true
    case Check(_) => x.phase.Claiming?
    case Rebase(_, _) => x.phase.Idle? || (x.phase.Settled? && x.phase.rebases < REBASES)
  }

  /** The machine and the next serial after it talked to the remote at `remote`. */
  function SyncNext(x: Machine, r: Syncing, m: MachineId, remote: Commit, clock: nat): (Machine, nat)
    requires SyncEnabled(x, r)
  {
    var g := x.git;
    match r
    case Pull => (x.(tracking := remote, git := FastForwarded(g, remote, NO_FAULTS)), clock)
    case Push(_, _) => (x.(leaked := x.leaked || BeforeClaim(x.phase)), clock)
    case Check(asking) =>
      (x.(tracking := if asking.fetchOk then remote else x.tracking,
          phase := if FoundOn(x.phase.commit, remote, asking) then Held(x.phase.run, x.phase.commit)
                   else Refused(x.phase.run, x.phase.commit)),
       clock)
    case Rebase(how, left) =>
      var (tip, k) := Replay(Back(g.head, left), remote, how, m, clock);
      var ps := Changed(g.head.tree, tip.tree);
      (x.(tracking := remote,
          git := Git(tip, Overlay(g.index, tip.tree, ps), Overlay(g.work, tip.tree, ps)),
          phase := if x.phase.Settled? then x.phase.(rebases := x.phase.rebases + 1) else x.phase),
       k)
  }

  ghost predicate ActEnabled(x: Machine, a: Action) {
    match a
    case Q(q) => QuietEnabled(x, q)
    case C(c) => CommitEnabled(x, c)
    case U(u) => UndoEnabled(x, u)
    case R(r) => SyncEnabled(x, r)
  }

  ghost predicate Enabled(s: State, e: Event) {
    s.tips != [] && (e.Act? ==> e.m in s.machines && ActEnabled(s.machines[e.m], e.a))
  }

  ghost function Next(s: State, e: Event): State
    requires Enabled(s, e)
  {
    match e
    case Outside(tree) => s.(tips := s.tips + [Child(Remote(s), tree, 0, s.clock)], clock := s.clock + 1)
    case Act(m, a) =>
      var x := s.machines[m];
      match a
      case Q(q) =>
        With(s, m, QuietNext(x, q)).(deploys := if q.StartPlaybook? then s.deploys + [x.phase.commit] else s.deploys)
      case C(c) => With(s, m, CommitNext(x, c, m, s.clock)).(clock := s.clock + 1)
      case U(u) => With(s, m, UndoNext(x, u, Remote(s)))
      case R(r) =>
        var (y, k) := SyncNext(x, r, m, Remote(s), s.clock);
        With(s, m, y).(clock := k, tips := if r.Push? then Pushed(s.tips, x.git.head, r.lands) else s.tips)
  }

  // ------------------------------------------------------------- the invariant

  /** Every serial in the history of `c` is below `k`: `c` was made before time `k`. */
  predicate Stamped(c: Commit, k: nat) {
    c.Child? ==> c.serial < k && Stamped(c.parent, k)
  }

  /** Could machine `x` hand `c` on? */
  predicate Knows(x: Machine, c: Commit) {
    Ancestor(c, x.git.head) || Ancestor(c, x.tracking) || (HasRun(x.phase) && Ancestor(c, x.phase.run.plan.before))
  }

  /** The commit an undo of this machine would take back before its claim has started,
      when nobody pushed by hand. */
  function Local(x: Machine): Option<Commit> {
    if x.leaked then None
    else if x.phase.Writing? || x.phase.HeadMoved? then
      if x.git.head == x.phase.run.plan.before then None else Some(x.git.head)
    else if x.phase.Recorded? then
      if x.phase.commit == x.phase.run.plan.before then None else Some(x.phase.commit)
    else None
  }

  predicate MachineOk(x: Machine, remote: Commit, clock: nat) {
    && Stamped(x.git.head, clock) && Stamped(x.tracking, clock)
    && Ancestor(x.tracking, remote)
    && (HasRun(x.phase) ==> Stamped(x.phase.run.plan.before, clock))
    && (HasCommit(x.phase) ==> Ancestor(x.phase.commit, x.git.head) && Stamped(x.phase.commit, clock))
    && (x.phase.Held? || x.phase.Claimed? || x.phase.Deploying? || x.phase.Settled? ==>
         Ancestor(x.phase.commit, remote))
    && (x.phase.Settled? ==> x.phase.rebases <= 2)
  }

  ghost predicate StartOk(x: Machine) {
    HasRun(x.phase) ==> CleanStart(x.phase.run.start, x.phase.run.plan)
  }

  /** Nobody but `m`'s own HEAD knows `c`. */
  ghost predicate Private(s: State, m: MachineId, c: Commit)
    requires s.tips != []
  {
    && !Ancestor(c, Remote(s))
    && forall n :: n in s.machines && n != m ==> !Knows(s.machines[n], c)
  }

  ghost predicate TipsOk(s: State) {
    && s.tips != []
    && (forall i :: 0 <= i < |s.tips| - 1 ==> Ancestor(s.tips[i], s.tips[i + 1]))
    && Stamped(Remote(s), s.clock)
  }

  ghost predicate Inv(s: State) {
    && TipsOk(s)
    && (forall c :: c in s.deploys ==> Ancestor(c, Remote(s)))
    && (forall m :: m in s.machines ==> MachineOk(s.machines[m], Remote(s), s.clock) && StartOk(s.machines[m]))
    && (forall m :: m in s.machines && Local(s.machines[m]).Some? ==> Private(s, m, Local(s.machines[m]).value))
  }

  ghost predicate Init(s: State) {
    && |s.tips| == 1 && s.deploys == [] && Stamped(s.tips[0], s.clock)
    && forall m :: m in s.machines ==>
         var x := s.machines[m];
         x.phase.Idle? && Stamped(x.git.head, s.clock) && Stamped(x.tracking, s.clock) &&
             Ancestor(x.tracking, s.tips[0])
  }

  // --------------------------------------------------------- lemmas about commits

  lemma {:induction false} StampedMonotone(c: Commit, k: nat, l: nat)
    requires Stamped(c, k) && k <= l
    ensures Stamped(c, l)
  {
    if c.Child? { StampedMonotone(c.parent, k, l); }
  }

  lemma {:induction false} AncestorStamped(a: Commit, b: Commit, k: nat)
    requires Ancestor(a, b) && Stamped(b, k)
    ensures Stamped(a, k)
  {
    if a != b { AncestorStamped(a, b.parent, k); }
  }

  lemma PickedOnto(h: Commit, p: Commit, how: Rebasing, author: nat, k: nat)
    requires Stamped(p, k)
    ensures var (r, l) := Picked(h, p, how, author, k);
            k <= l && Stamped(r, l) && Ancestor(p, r) && forall c :: Stamped(c, k) && Ancestor(c, r) ==> Ancestor(c, p)
  {
    StampedMonotone(p, k, k + 1);
  }

  /** A rebase builds on the remote. It leaves a branch that is up to date alone, and
      otherwise its tip holds no older commit that the remote lacks. */
  lemma {:induction false} ReplayOnto(h: Commit, onto: Commit, how: Rebasing, author: nat, k: nat)
    requires Stamped(onto, k) && Stamped(h, k)
    ensures var (r, l) := Replay(h, onto, how, author, k);
            && l >= k && Ancestor(onto, r) && Stamped(r, l)
            && (Ancestor(onto, h) ==> r == h && l == k)
            && (!Ancestor(onto, h) ==> forall c :: Stamped(c, k) && Ancestor(c, r) ==> Ancestor(c, onto))
  {
    if Ancestor(h, onto) {
      if Ancestor(onto, h) { AncestorAntisymmetric(h, onto); }
    } else if !Ancestor(onto, h) {
      if h.Child? {
        ReplayOnto(h.parent, onto, how, author, k);
      }
      var (p, l) := if h.Root? then (onto, k) else Replay(h.parent, onto, how, author, k);
      PickedOnto(h, p, how, author, l);
      var (r, _) := Picked(h, p, how, author, l);
      AncestorTransitive(onto, p, r);
      forall c | Stamped(c, k) && Ancestor(c, r) ensures Ancestor(c, onto) {
        StampedMonotone(c, k, l);
      }
    }
  }

  lemma {:induction false} BackIsAncestor(h: Commit, n: nat)
    ensures Ancestor(Back(h, n), h)
  {
    if n > 0 && h.Child? { BackIsAncestor(h.parent, n - 1); }
  }

  lemma {:induction false} TipsAreOneBranch(s: State, i: nat, j: nat)
    requires TipsOk(s) && i <= j < |s.tips|
    ensures Ancestor(s.tips[i], s.tips[j])
    decreases j - i
  {
    if i < j {
      TipsAreOneBranch(s, i, j - 1);
      AncestorTransitive(s.tips[i], s.tips[j - 1], s.tips[j]);
    }
  }

  // ----------------------------------------------------- the invariant is kept

  /** What a step of machine `x` may do: its own part is in order afterwards, and it
      learns no older commit that was not on the branch. A commit that an undo may take
      back is the one it was, or brand new. */
  ghost predicate LocalStep(x: Machine, x': Machine, m: MachineId, remote: Commit, clock: nat, clock': nat) {
    && clock <= clock'
    && MachineOk(x', remote, clock') && StartOk(x')
    && (forall c :: Stamped(c, clock) && Knows(x', c) ==> Ancestor(c, remote) || Knows(x, c))
    && (Local(x').Some? && Local(x') != Local(x) ==> Fresh(Local(x').value, m, clock))
  }

  predicate Fresh(c: Commit, m: MachineId, clock: nat) {
    c.Child? && c.author == m && c.serial == clock
  }

  lemma LocalStepKeepsInv(s: State, s': State, m: MachineId, x': Machine)
    requires Inv(s) && m in s.machines
    requires LocalStep(s.machines[m], x', m, Remote(s), s.clock, s'.clock)
    requires s'.tips == s.tips && s'.machines == s.machines[m := x']
    requires forall c :: c in s'.deploys ==> c in s.deploys || Ancestor(c, Remote(s))
    ensures Inv(s')
  {
    StampedMonotone(Remote(s), s.clock, s'.clock);
    forall n | n in s'.machines
      ensures MachineOk(s'.machines[n], Remote(s'), s'.clock) && StartOk(s'.machines[n])
    {
      if n != m {
        MachineOkMonotone(s.machines[n], Remote(s), s.clock, Remote(s'), s'.clock);
      }
    }
    forall n | n in s'.machines && Local(s'.machines[n]).Some?
      ensures Private(s', n, Local(s'.machines[n]).value)
    {
      var c := Local(s'.machines[n]).value;
      if n != m {
        assert Private(s, n, c);
        LocalStamped(s.machines[n], Remote(s), s.clock);
        assert !Ancestor(c, Remote(s)) && !Knows(s.machines[m], c);
      } else if Local(x') == Local(s.machines[m]) {
        assert Private(s, m, c);
      } else {
        FreshIsPrivate(s, m, c);
      }
    }
  }

  /** A commit that carries the present serial is known to nobody yet. */
  lemma FreshIsPrivate(s: State, m: MachineId, c: Commit)
    requires Inv(s) && Fresh(c, m, s.clock)
    ensures Private(s, m, c)
  {
    if Ancestor(c, Remote(s)) { AncestorStamped(c, Remote(s), s.clock); }
    forall n | n in s.machines && n != m
      ensures !Knows(s.machines[n], c)
    {
      var x := s.machines[n];
      if Ancestor(c, x.git.head) { AncestorStamped(c, x.git.head, s.clock); }
      if Ancestor(c, x.tracking) { AncestorStamped(c, x.tracking, s.clock); }
      if HasRun(x.phase) && Ancestor(c, x.phase.run.plan.before) {
        AncestorStamped(c, x.phase.run.plan.before, s.clock);
      }
    }
  }

  lemma LocalStamped(x: Machine, remote: Commit, clock: nat)
    requires MachineOk(x, remote, clock) && Local(x).Some?
    ensures Stamped(Local(x).value, clock)
  {
  }

  lemma MachineOkMonotone(x: Machine, remote: Commit, clock: nat, remote': Commit, clock': nat)
    requires MachineOk(x, remote, clock) && Ancestor(remote, remote') && clock <= clock'
    ensures MachineOk(x, remote', clock')
  {
    StampedMonotone(x.git.head, clock, clock');
    StampedMonotone(x.tracking, clock, clock');
    AncestorTransitive(x.tracking, remote, remote');
    if HasRun(x.phase) { StampedMonotone(x.phase.run.plan.before, clock, clock'); }
    if HasCommit(x.phase) { StampedMonotone(x.phase.commit, clock, clock'); }
    if x.phase.Held? || x.phase.Claimed? || x.phase.Deploying? || x.phase.Settled? {
      AncestorTransitive(x.phase.commit, remote, remote');
    }
  }

  lemma UndoneHead(g: Git, commit: Commit, plan: UndoPlan, f: Faults)
    ensures UndoneGit(g, commit, plan, f).head in {g.head, plan.before}
  {
    var g0 := g.(head := plan.before);
    var g1 := RestoreAll(g0, plan.before, plan.restore, f);
    RestoreAllAt(g0, plan.before, plan.restore, f, "");
    UnstageAllAt(g1, plan, plan.unstage, f, "");
    DropAllAt(UnstageAll(g1, plan, plan.unstage, f), plan.drop, f, "");
  }

  lemma PartUndoneHead(g: Git, plan: UndoPlan, n: nat)
    ensures PartUndone(g, plan, n).head == g.head
  {
    var g1 := RestoreAll(g, plan.before, Reached(plan.restore, n), NO_FAULTS);
    RestoreAllAt(g, plan.before, Reached(plan.restore, n), NO_FAULTS, "");
    UnstageAllAt(g1, plan, Reached(plan.unstage, n - |plan.restore|), NO_FAULTS, "");
  }

  lemma UnwoundHead(g: Git, phase: Phase, remote: Commit, asking: Asking)
    requires HasRun(phase)
    ensures Unwound(g, phase, remote, asking).head in {g.head, phase.run.plan.before}
  {
    UndoneHead(g, phase.run.plan.before, phase.run.plan, NO_FAULTS);
    if HasCommit(phase) { UndoneHead(g, phase.commit, phase.run.plan, NO_FAULTS); }
  }

  /** A push that moves the branch: everything the new tip holds was on the branch or
      known to the pusher, who has no commit that its own undo could take back. */
  lemma PushKeepsInv(s: State, pusher: Option<MachineId>, tips: seq<Commit>, clock: nat)
    requires Inv(s) && s.clock <= clock && tips != [] && tips[..|tips| - 1] == s.tips
    requires Ancestor(Remote(s), tips[|tips| - 1]) && Stamped(tips[|tips| - 1], clock)
    requires pusher.Some? ==> pusher.value in s.machines && Local(s.machines[pusher.value]).None?
    requires forall c :: Stamped(c, s.clock) && Ancestor(c, tips[|tips| - 1]) ==>
               Ancestor(c, Remote(s)) || (pusher.Some? && Knows(s.machines[pusher.value], c))
    ensures Inv(s.(tips := tips, clock := clock))
  {
    var s' := s.(tips := tips, clock := clock);
    forall i | 0 <= i < |tips| - 1
      ensures Ancestor(tips[i], tips[i + 1])
    {
      assert tips[i] == s.tips[i];
      if i < |s.tips| - 1 { assert tips[i + 1] == s.tips[i + 1]; }
    }
    forall c | c in s'.deploys
      ensures Ancestor(c, Remote(s'))
    {
      AncestorTransitive(c, Remote(s), Remote(s'));
    }
    forall n | n in s'.machines
      ensures MachineOk(s'.machines[n], Remote(s'), s'.clock) && StartOk(s'.machines[n])
    {
      MachineOkMonotone(s.machines[n], Remote(s), s.clock, Remote(s'), s'.clock);
    }
    forall n | n in s'.machines && Local(s'.machines[n]).Some?
      ensures Private(s', n, Local(s'.machines[n]).value)
    {
      LocalStamped(s.machines[n], Remote(s), s.clock);
      assert Private(s, n, Local(s.machines[n]).value);
    }
  }

  lemma CommitStepIsLocal(x: Machine, c: Committing, m: MachineId, remote: Commit, clock: nat)
    requires MachineOk(x, remote, clock) && StartOk(x) && CommitEnabled(x, c)
    ensures LocalStep(x, CommitNext(x, c, m, clock), m, remote, clock, clock + 1)
  {
    MachineOkMonotone(x, remote, clock, remote, clock + 1);
  }

  lemma QuietStepIsLocal(x: Machine, q: Quiet, m: MachineId, remote: Commit, clock: nat)
    requires MachineOk(x, remote, clock) && StartOk(x) && QuietEnabled(x, q)
    ensures LocalStep(x, QuietNext(x, q), m, remote, clock, clock)
  {
    assert QuietNext(x, q).git.head == x.git.head;
  }

  lemma UndoStepIsLocal(x: Machine, u: Undoing, m: MachineId, remote: Commit, clock: nat)
    requires MachineOk(x, remote, clock) && StartOk(x) && UndoEnabled(x, u)
    ensures LocalStep(x, UndoNext(x, u, remote), m, remote, clock, clock)
  {
    assert UndoNext(x, u, remote).git.head in {x.git.head, x.phase.run.plan.before} by {
      UndoNextHead(x, u, remote);
    }
  }

  lemma UndoNextHead(x: Machine, u: Undoing, remote: Commit)
    requires UndoEnabled(x, u)
    ensures UndoNext(x, u, remote).git.head in {x.git.head, x.phase.run.plan.before}
    ensures UndoNext(x, u, remote).phase.Idle? && UndoNext(x, u, remote).tracking == x.tracking
  {
    var plan := x.phase.run.plan;
    match u
    case ClaimUndo => UndoneHead(x.git, x.phase.commit, ClaimPlan(plan), NO_FAULTS);
    case Interrupt(asking) => UnwoundHead(x.git, x.phase, remote, asking);
    case InterruptInUndo(n, asking) =>
      var g0 := x.git.(head := plan.before);
      PartUndoneHead(g0, ClaimPlan(plan), n);
      UnwoundHead(PartUndone(g0, ClaimPlan(plan), n), x.phase, remote, asking);
  }

  lemma {:induction false} RebaseIsLocal(x: Machine, how: Rebasing, left: nat, m: MachineId, remote: Commit, clock: nat)
    requires MachineOk(x, remote, clock) && StartOk(x) && Stamped(remote, clock) && SyncEnabled(x, Rebase(how, left))
    ensures var (x', k) := SyncNext(x, Rebase(how, left), m, remote, clock);
            LocalStep(x, x', m, remote, clock, k)
  {
    var h := Back(x.git.head, left);
    BackIsAncestor(x.git.head, left);
    AncestorStamped(h, x.git.head, clock);
    ReplayOnto(h, remote, how, m, clock);
    var (x', k) := SyncNext(x, Rebase(how, left), m, remote, clock);
    forall c | Ancestor(remote, h) && Ancestor(c, h) ensures Ancestor(c, x.git.head) {
      AncestorTransitive(c, h, x.git.head);
    }
    StampedMonotone(remote, clock, k);
    MachineOkMonotone(x, remote, clock, remote, k);
    if x.phase.Settled? { AncestorTransitive(x.phase.commit, remote, x'.git.head); }
  }

  lemma PullIsLocal(x: Machine, m: MachineId, remote: Commit, clock: nat)
    requires MachineOk(x, remote, clock) && StartOk(x) && Stamped(remote, clock) && SyncEnabled(x, Pull)
    ensures LocalStep(x, SyncNext(x, Pull, m, remote, clock).0, m, remote, clock, clock)
  {
    assert FastForwarded(x.git, remote, NO_FAULTS).head in {x.git.head, remote};
  }

  lemma {:induction false} SyncStepIsLocal(x: Machine, r: Syncing, m: MachineId, remote: Commit, clock: nat)
    requires MachineOk(x, remote, clock) && StartOk(x) && Stamped(remote, clock) && SyncEnabled(x, r)
    ensures var (x', k) := SyncNext(x, r, m, remote, clock);
            LocalStep(x, x', m, remote, clock, k)
  {
    match r
    case Pull => PullIsLocal(x, m, remote, clock);
    case Push(_, _) =>
    case Check(_) =>
    case Rebase(how, left) => RebaseIsLocal(x, how, left, m, remote, clock);
  }

  lemma OutsideKeepsInv(s: State, tree: Tree)
    requires Inv(s)
    ensures Inv(Next(s, Outside(tree)))
  {
    var s' := Next(s, Outside(tree));
    StampedMonotone(Remote(s), s.clock, s.clock + 1);
    PushKeepsInv(s, None, s'.tips, s'.clock);
  }

  lemma QuietKeepsInv(s: State, m: MachineId, q: Quiet)
    requires Inv(s) && m in s.machines && QuietEnabled(s.machines[m], q)
    ensures Inv(Next(s, Act(m, Q(q))))
  {
    QuietStepIsLocal(s.machines[m], q, m, Remote(s), s.clock);
    LocalStepKeepsInv(s, Next(s, Act(m, Q(q))), m, QuietNext(s.machines[m], q));
  }

  lemma CommitKeepsInv(s: State, m: MachineId, c: Committing)
    requires Inv(s) && m in s.machines && CommitEnabled(s.machines[m], c)
    ensures Inv(Next(s, Act(m, C(c))))
  {
    CommitStepIsLocal(s.machines[m], c, m, Remote(s), s.clock);
    LocalStepKeepsInv(s, Next(s, Act(m, C(c))), m, CommitNext(s.machines[m], c, m, s.clock));
  }

  lemma UndoKeepsInv(s: State, m: MachineId, u: Undoing)
    requires Inv(s) && m in s.machines && UndoEnabled(s.machines[m], u)
    ensures Inv(Next(s, Act(m, U(u))))
  {
    UndoStepIsLocal(s.machines[m], u, m, Remote(s), s.clock);
    LocalStepKeepsInv(s, Next(s, Act(m, U(u))), m, UndoNext(s.machines[m], u, Remote(s)));
  }

  lemma SyncKeepsInv(s: State, m: MachineId, r: Syncing)
    requires Inv(s) && m in s.machines && SyncEnabled(s.machines[m], r)
    ensures Inv(Next(s, Act(m, R(r))))
  {
    var s' := Next(s, Act(m, R(r)));
    SyncStepIsLocal(s.machines[m], r, m, Remote(s), s.clock);
    var (y, k) := SyncNext(s.machines[m], r, m, Remote(s), s.clock);
    LocalStepKeepsInv(s, s'.(tips := s.tips), m, y);
    if s'.tips != s.tips {
      PushKeepsInv(s'.(tips := s.tips), Some(m), s'.tips, s'.clock);
    }
  }

  lemma NextKeepsInv(s: State, e: Event)
    requires Inv(s) && Enabled(s, e)
    ensures Inv(Next(s, e))
  {
    match e
    case Outside(tree) => OutsideKeepsInv(s, tree);
    case Act(m, a) =>
      match a {
        case Q(q) => QuietKeepsInv(s, m, q);
        case C(c) => CommitKeepsInv(s, m, c);
        case U(u) => UndoKeepsInv(s, m, u);
        case R(r) => SyncKeepsInv(s, m, r);
      }
  }
}
