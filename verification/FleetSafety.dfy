/** What the fleet protocol promises over whole runs: deploys follow claims, an interrupted
    run is taken back whole or not at all, and where that promise ends. */
module FleetSafety {
  import opened Options
  import opened Commits
  import opened Checkouts
  import opened FleetProtocol

  // ------------------------------------------------------- safety over whole runs

  ghost predicate IsRun(states: seq<State>, events: seq<Event>) {
    && |states| == |events| + 1
    && Init(states[0])
    && forall i :: 0 <= i < |events| ==> Enabled(states[i], events[i]) && states[i + 1] == Next(states[i], events[i])
  }

  lemma InitHasInv(s: State)
    requires Init(s)
    ensures Inv(s)
  {
    assert s.deploys == [];
  }

  lemma {:induction false} RunHasInv(states: seq<State>, events: seq<Event>, i: nat)
    requires IsRun(states, events) && i < |states|
    ensures Inv(states[i])
  {
    if i == 0 {
      InitHasInv(states[0]);
    } else {
      RunHasInv(states, events, i - 1);
      NextKeepsInv(states[i - 1], events[i - 1]);
    }
  }

  /** What the two logs record. Only the start of a playbook is a deploy: of the commit of
      its run, which was claimed and is on the branch. The branch moves only by a push from
      elsewhere, or by one that reaches it from a HEAD built on its tip. */
  lemma WhatIsLogged(s: State, e: Event)
    requires Inv(s) && Enabled(s, e)
    ensures var starts := e.Act? && e.a == Q(StartPlaybook);
            && (starts ==> s.machines[e.m].phase.Claimed? && Ancestor(s.machines[e.m].phase.commit, Remote(s)))
            && Next(s, e).deploys == s.deploys + if starts then [s.machines[e.m].phase.commit] else []
    ensures Next(s, e).tips == s.tips +
            if e.Outside? then [Child(Remote(s), e.tree, 0, s.clock)]
            else
              var head, push := s.machines[e.m].git.head, e.a.R? && e.a.r.Push?;
              if push && e.a.r.lands && Ancestor(Remote(s), head) && head != Remote(s) then [head] else []
  {
  }

  lemma NextOnlyAdds(s: State, e: Event)
    requires Enabled(s, e)
    ensures s.tips <= Next(s, e).tips && s.deploys <= Next(s, e).deploys
  {
  }

  /** The branch history and the deploy log only grow. */
  lemma {:induction false} RunOnlyAdds(states: seq<State>, events: seq<Event>, i: nat, j: nat)
    requires IsRun(states, events) && i <= j < |states|
    ensures states[i].tips <= states[j].tips && states[i].deploys <= states[j].deploys
    decreases j - i
  {
    if i < j {
      RunOnlyAdds(states, events, i, j - 1);
      NextOnlyAdds(states[j - 1], events[j - 1]);
    }
  }

  /** When a commit of the branch landed: the first tip that holds it. */
  ghost function LandedAt(tips: seq<Commit>, c: Commit): (i: nat)
    requires tips != [] && Ancestor(c, tips[|tips| - 1])
    ensures i < |tips| && Ancestor(c, tips[i])
    ensures forall j :: 0 <= j < i ==> !Ancestor(c, tips[j])
  {
    if Ancestor(c, tips[0]) then 0 else 1 + LandedAt(tips[1..], c)
  }

  /** Commits of the branch form one chain, in the order in which they landed. */
  lemma LandingOrderIsAncestry(s: State, c: Commit, d: Commit)
    requires Inv(s) && Ancestor(c, Remote(s)) && Ancestor(d, Remote(s))
    ensures Ancestor(c, d) || Ancestor(d, c)
    ensures LandedAt(s.tips, c) < LandedAt(s.tips, d) ==> Ancestor(c, d) && c != d
  {
    AncestorTotal(c, d, Remote(s));
    var i := LandedAt(s.tips, c);
    if i < LandedAt(s.tips, d) && Ancestor(d, c) {
      AncestorTransitive(d, c, s.tips[i]);
    }
  }

  /** In every interleaving: a deployed commit is on the branch when its playbook starts
      and at every later moment, and it is built on every commit that landed before it,
      so on every claim that landed before it. */
  lemma DeploysFollowClaims(states: seq<State>, events: seq<Event>, i: nat, j: nat, d: Commit)
    requires IsRun(states, events) && i <= j < |states| && d in states[i].deploys
    ensures states[j].tips != [] && Ancestor(d, Remote(states[j]))
    ensures LandedAt(states[j].tips, d) < |states[i].tips|
    ensures forall c :: Ancestor(c, Remote(states[j])) && LandedAt(states[j].tips, c) < LandedAt(states[j].tips, d) ==>
              Ancestor(c, d)
  {
    RunHasInv(states, events, i);
    RunHasInv(states, events, j);
    RunOnlyAdds(states, events, i, j);
    assert d in states[j].deploys;
    var last := |states[i].tips| - 1;
    assert states[j].tips[last] == Remote(states[i]);
    forall c | Ancestor(c, Remote(states[j])) && LandedAt(states[j].tips, c) < LandedAt(states[j].tips, d)
      ensures Ancestor(c, d)
    {
      LandingOrderIsAncestry(states[j], c, d);
    }
  }

  // ------------------------------------------------------------- all or nothing

  /** The run is taken back: HEAD, its index entries and its files are as they were
      when it began, and no other path has moved. */
  ghost predicate PutBack(x: Machine, g: Git)
    requires HasRun(x.phase)
  {
    var start, plan := x.phase.run.start, x.phase.run.plan;
    && g.head == start.head
    && (forall p :: p in Owned(plan) ==> At(g.index, p) == At(start.index, p))
    && (forall p :: p in plan.restore || p in plan.contents || p in plan.drop ==> At(g.work, p) == At(start.work, p))
    && (forall p :: p !in Owned(plan) ==> At(g.index, p) == At(x.git.index, p) && At(g.work, p) == At(x.git.work, p))
  }

  lemma NothingFails(plan: UndoPlan)
    ensures FailedPaths(plan, NO_FAULTS) == []
  {
    var failed := FailedPaths(plan, NO_FAULTS);
    if failed != [] {
      FailedPathsAt(plan, NO_FAULTS, failed[0]);
    }
  }

  lemma UndoPutsBack(x: Machine, commit: Commit)
    requires HasRun(x.phase) && StartOk(x) && x.git.head == commit
    ensures PutBack(x, UndoneGit(x.git, commit, x.phase.run.plan, NO_FAULTS))
  {
    var start, plan := x.phase.run.start, x.phase.run.plan;
    var g := UndoneGit(x.git, commit, plan, NO_FAULTS);
    NothingFails(plan);
    UndoDoneAt(x.git, commit, plan, NO_FAULTS, "");
    forall p
      ensures p in Owned(plan) ==> At(g.index, p) == At(start.index, p)
      ensures p in plan.restore || p in plan.contents || p in plan.drop ==> At(g.work, p) == At(start.work, p)
      ensures p !in Owned(plan) ==> At(g.index, p) == At(x.git.index, p) && At(g.work, p) == At(x.git.work, p)
    {
      UndoDoneAt(x.git, commit, plan, NO_FAULTS, p);
      UndoFrame(x.git, commit, plan, NO_FAULTS, p);
      if p in plan.contents || p in plan.drop { assert p in Elements(plan.unstage); }
      if p in plan.restore { assert p in Elements(plan.restore); }
    }
  }

  /** The claim has started and the run has not noted that it was found. */
  predicate ClaimOpen(phase: Phase) {
    phase.Claiming? || phase.Refused? || phase.Held?
  }

  /** When an interrupt takes the run back: before the playbook, with HEAD still at the
      run's commit (or at the start, when it has noted none), and, once the claim has
      started, only after a fetch that worked and did not show the commit. */
  predicate TakesBack(x: Machine, remote: Commit, asking: Asking)
    requires HasRun(x.phase)
  {
    if x.phase.Writing? || x.phase.HeadMoved? then x.git.head == x.phase.run.plan.before
    else if x.phase.Recorded? then x.git.head == x.phase.commit
    else
      && ClaimOpen(x.phase) && x.git.head == x.phase.commit
      && asking.fetchOk && !FoundOn(x.phase.commit, remote, asking)
  }

  /** Wherever a run stops, its interrupt puts everything back or changes nothing, and it
      changes nothing once the playbook has started. A new commit that the branch holds
      is taken back in exactly two cases, both with HEAD still at the commit: the claim
      has started, the fetch worked and git could not tell whether the branch holds it; or
      the claim has not started and someone has pushed the commit by hand. */
  lemma InterruptIsAllOrNothing(s: State, m: MachineId, asking: Asking)
    requires Inv(s) && m in s.machines && HasRun(s.machines[m].phase)
    ensures var x := s.machines[m];
            var g := Next(s, Act(m, U(Interrupt(asking)))).machines[m].git;
            var made := HasCommit(x.phase) && x.phase.commit != x.phase.run.plan.before;
            && (TakesBack(x, Remote(s), asking) ==> PutBack(x, g))
            && (!TakesBack(x, Remote(s), asking) ==> g == x.git)
            && (x.phase.Deploying? || x.phase.Settled? ==> g == x.git)
            && (made && Ancestor(x.phase.commit, Remote(s)) ==>
                  && (g != x.git <==>
                        && x.git.head == x.phase.commit
                        && (x.phase.Recorded? || (ClaimOpen(x.phase) && asking.fetchOk && !asking.tellOk)))
                  && (x.phase.Recorded? ==> x.leaked))
  {
    var x := s.machines[m];
    if TakesBack(x, Remote(s), asking) {
      UndoPutsBack(x, x.git.head);
    }
    assert Local(x).Some? ==> Private(s, m, Local(x).value);
  }

  /** The same over whole runs, from the outside: an interrupt at any moment of any run. */
  lemma InterruptedRunIsAllOrNothing(states: seq<State>, events: seq<Event>, i: nat, m: MachineId, asking: Asking)
    requires IsRun(states, events) && i < |events| && events[i] == Act(m, U(Interrupt(asking)))
    ensures var x, g := states[i].machines[m], states[i + 1].machines[m].git;
            var made := HasCommit(x.phase) && x.phase.commit != x.phase.run.plan.before;
            && (PutBack(x, g) || g == x.git)
            && (made && Ancestor(x.phase.commit, Remote(states[i])) && g != x.git ==>
                  asking == Asking(true, false) || (x.phase.Recorded? && x.leaked))
    ensures states[i + 1].tips == states[i].tips && states[i + 1].deploys == states[i].deploys
  {
    RunHasInv(states, events, i);
    InterruptIsAllOrNothing(states[i], m, asking);
  }

  /** The commit of a run takes the lock files, the services file and the plan record from
      the work tree, and every other path from the commit before. */
  lemma RunCommitHoldsItsFiles(x: Machine, m: MachineId, clock: nat, p: Path)
    requires x.phase.Writing?
    ensures var plan, head := x.phase.run.plan, CommitNext(x, CommitFiles, m, clock).git.head;
            head != x.git.head ==>
              && head.Child? && head.parent == x.git.head
              && At(head.tree, p) ==
                 if p in plan.restore || p in plan.unstage then At(x.git.work, p) else At(x.git.head.tree, p)
  {
    var plan := x.phase.run.plan;
    assert p in Elements(RunPaths(plan)) <==> p in plan.restore || p in plan.unstage;
  }

  // ------------------------------------------------------------- a refused claim

  /** What the undo of a claim gives back: HEAD, the run's index entries, and every file
      but a plan record that was new. */
  ghost predicate ClaimBack(x: Machine, g: Git)
    requires HasRun(x.phase)
  {
    var start, plan := x.phase.run.start, x.phase.run.plan;
    && g.head == start.head
    && (forall p :: p in Owned(plan) ==> At(g.index, p) == At(start.index, p))
    && (forall p :: p in plan.restore || p in plan.contents ==> At(g.work, p) == At(start.work, p))
  }

  /** A claim is refused exactly when the branch is not seen to hold its commit, so one
      that landed is refused exactly when the fetch fails or git cannot tell. The undo of
      a refused claim gives everything back but a plan record that was new. */
  lemma RefusedClaim(x: Machine, m: MachineId, remote: Commit, clock: nat, asking: Asking)
    requires x.phase.Claiming? && StartOk(x)
    ensures var y := SyncNext(x, Check(asking), m, remote, clock).0;
            && (y.phase.Held? || y.phase.Refused?)
            && (Ancestor(x.phase.commit, remote) ==> (y.phase.Refused? <==> !asking.fetchOk || !asking.tellOk))
            && (!Ancestor(x.phase.commit, remote) ==> y.phase.Refused?)
            && (y.phase.Refused? && x.git.head == x.phase.commit ==>
                  var g := UndoNext(y, ClaimUndo, remote).git;
                  var plan := x.phase.run.plan;
                  && ClaimBack(x, g)
                  && (forall p :: p !in plan.restore && p !in plan.contents ==> At(g.work, p) == At(x.git.work, p))
                  && SameOff(g.index, x.git.index, Owned(plan)))
  {
    var y := SyncNext(x, Check(asking), m, remote, clock).0;
    if y.phase.Refused? && x.git.head == x.phase.commit {
      var start, plan := x.phase.run.start, ClaimPlan(x.phase.run.plan);
      var g := UndoNext(y, ClaimUndo, remote).git;
      NothingFails(plan);
      UndoDoneAt(x.git, x.phase.commit, plan, NO_FAULTS, "");
      forall p
        ensures p in Owned(plan) ==> At(g.index, p) == At(start.index, p)
        ensures p in plan.restore || p in plan.contents ==> At(g.work, p) == At(start.work, p)
        ensures p !in plan.restore && p !in plan.contents ==> At(g.work, p) == At(x.git.work, p)
        ensures p !in Owned(plan) ==> At(g.index, p) == At(x.git.index, p)
      {
        UndoDoneAt(x.git, x.phase.commit, plan, NO_FAULTS, p);
        UndoFrame(x.git, x.phase.commit, plan, NO_FAULTS, p);
        if p in plan.contents { assert p in Elements(plan.unstage); }
        if p in plan.restore { assert p in Elements(plan.restore); }
      }
    }
  }

  /** Every path that the first `n` steps of the undo do not reach is as it was when the
      run began. */
  ghost predicate UnreachedAsBefore(x: Machine, n: nat)
    requires HasRun(x.phase)
  {
    var start, plan := x.phase.run.start, x.phase.run.plan;
    forall p :: p in Owned(plan) && !UndoReached(plan, n, p) ==>
      && At(x.git.index, p) == At(start.index, p)
      && (p in plan.restore || p in plan.contents ==> At(x.git.work, p) == At(start.work, p))
  }

  lemma PartUndoneAt(x: Machine, n: nat, p: Path)
    requires HasRun(x.phase) && StartOk(x)
    ensures var start, plan := x.phase.run.start, x.phase.run.plan;
            var g := PartUndone(x.git.(head := plan.before), ClaimPlan(plan), n);
            && (UndoReached(plan, n, p) || p in plan.restore || p in plan.contents ==> p in Owned(plan))
            && At(g.index, p) == (if UndoReached(plan, n, p) then At(start.index, p) else At(x.git.index, p))
            && (p in plan.restore || p in plan.contents ==>
                  At(g.work, p) == if UndoReached(plan, n, p) then At(start.work, p) else At(x.git.work, p))
            && (p !in Owned(plan) ==> At(g.work, p) == At(x.git.work, p))
  {
    var plan := ClaimPlan(x.phase.run.plan);
    var g0 := x.git.(head := plan.before);
    var ps, qs := Reached(plan.restore, n), Reached(plan.unstage, n - |plan.restore|);
    RestoreAllAt(g0, plan.before, ps, NO_FAULTS, p);
    UnstageAllAt(RestoreAll(g0, plan.before, ps, NO_FAULTS), plan, qs, NO_FAULTS, p);
    assert p in ps ==> p in Elements(plan.restore);
    assert p in qs ==> p in Elements(plan.unstage);
    assert p in plan.contents ==> p in Elements(plan.unstage);
    assert p in plan.restore ==> p in Elements(plan.restore);
  }

  /** `claim` does not mask Ctrl-C while it undoes. An interrupt in the middle of that
      undo finds HEAD back at the start, so the unwind takes it for someone else's move
      and stops: a path that the undo had not reached keeps what the run left there. The
      unwind finishes the job only for an empty commit, where HEAD never moved, and only
      after a fetch that worked and did not show the commit. So the undo is complete in
      exactly two cases: the unwind finishes it, or nothing was left to put back. */
  lemma CutUndoStaysCut(x: Machine, n: nat, asking: Asking, remote: Commit)
    requires x.phase.Refused? && StartOk(x) && x.git.head == x.phase.commit
    ensures var plan := x.phase.run.plan;
            var g := UndoNext(x, InterruptInUndo(n, asking), remote).git;
            var finishes := x.phase.commit == plan.before && asking.fetchOk && !FoundOn(x.phase.commit, remote, asking);
            && g.head == plan.before
            && (ClaimBack(x, g) <==> finishes || UnreachedAsBefore(x, n))
            && (finishes ==> PutBack(x, g))
            && (!finishes ==> forall p :: !UndoReached(plan, n, p) ==>
                  && At(g.index, p) == At(x.git.index, p)
                  && (p in plan.restore || p in plan.contents ==> At(g.work, p) == At(x.git.work, p)))
  {
    var plan := x.phase.run.plan;
    var g0 := x.git.(head := plan.before);
    var part := PartUndone(g0, ClaimPlan(plan), n);
    PartUndoneHead(g0, ClaimPlan(plan), n);
    forall p {
      PartUndoneAt(x, n, p);
    }
    if x.phase.commit == plan.before && asking.fetchOk && !FoundOn(x.phase.commit, remote, asking) {
      UndoPutsBack(x.(git := part), plan.before);
    }
  }

  // --------------------------------------------------------------- runs, in full

  const LOCK: Path := "projects/shop/bay.lock"
  const ROOT: Commit := Root(map[])
  const EMPTY: Git := Git(ROOT, map[], map[])
  const PENDING: Tree := map[LOCK := "pending"]
  const LOCK_PLAN: UndoPlan := UndoPlan(ROOT, [LOCK], [], map[], [])
  const LOCK_RUN: Run := Run(EMPTY, LOCK_PLAN)
  const LOCK_COMMIT: Commit := Child(ROOT, PENDING, 0, 0)

  /** One machine writes a lock, commits it and starts its claim; the push lands but git
      says it failed, and the check does not see the commit on the branch. */
  function Script(asking: Asking): seq<Action> {
    [Q(Begin(LOCK_PLAN)), Q(Write(LOCK, "pending")), C(CommitFiles), Q(Record), Q(StartClaim),
     R(Push(true, false)), R(Check(asking))]
  }

  function Stages(asking: Asking): seq<State> {
    var done := Git(LOCK_COMMIT, PENDING, PENDING);
    var seen := if asking.fetchOk then LOCK_COMMIT else ROOT;
    [ State([ROOT], 0, map[0 := Machine(EMPTY, ROOT, Idle, false)], []),
      State([ROOT], 0, map[0 := Machine(EMPTY, ROOT, Writing(LOCK_RUN), false)], []),
      State([ROOT], 0, map[0 := Machine(EMPTY.(work := PENDING), ROOT, Writing(LOCK_RUN), false)], []),
      State([ROOT], 1, map[0 := Machine(done, ROOT, HeadMoved(LOCK_RUN), false)], []),
      State([ROOT], 1, map[0 := Machine(done, ROOT, Recorded(LOCK_RUN, LOCK_COMMIT), false)], []),
      State([ROOT], 1, map[0 := Machine(done, ROOT, Claiming(LOCK_RUN, LOCK_COMMIT), false)], []),
      State([ROOT, LOCK_COMMIT], 1, map[0 := Machine(done, ROOT, Claiming(LOCK_RUN, LOCK_COMMIT), false)], []),
      State([ROOT, LOCK_COMMIT], 1, map[0 := Machine(done, seen, Refused(LOCK_RUN, LOCK_COMMIT), false)], []) ]
  }

  lemma CommitLock()
    ensures CommitGit(EMPTY.(work := PENDING), RunPaths(LOCK_PLAN), 0, 0) == Git(LOCK_COMMIT, PENDING, PENDING)
  {
    var ps := RunPaths(LOCK_PLAN);
    assert ps == [LOCK];
    var g := EMPTY.(work := PENDING);
    assert LOCK in Elements(ps);
    var staged := Staged(g, ps);
    TreeExtensional(staged.index, PENDING);
    TreeExtensional(Overlay(ROOT.tree, PENDING, Elements(ps)), PENDING);
    assert At(staged.index, LOCK) != At(ROOT.tree, LOCK);
  }

  lemma BeginStage(asking: Asking)
    ensures var e := Act(0, Script(asking)[0]);
            Enabled(Stages(asking)[0], e) && Next(Stages(asking)[0], e) == Stages(asking)[1]
  {
    assert CleanStart(EMPTY, LOCK_PLAN);
  }

  lemma WriteStage(asking: Asking)
    ensures var e := Act(0, Script(asking)[1]);
            Enabled(Stages(asking)[1], e) && Next(Stages(asking)[1], e) == Stages(asking)[2]
  {
    assert Put(EMPTY.work, LOCK, Some("pending")) == PENDING;
  }

  lemma CommitStage(asking: Asking)
    ensures var e := Act(0, Script(asking)[2]);
            Enabled(Stages(asking)[2], e) && Next(Stages(asking)[2], e) == Stages(asking)[3]
  {
    CommitLock();
  }

  lemma RecordStage(asking: Asking)
    ensures var e := Act(0, Script(asking)[3]);
            Enabled(Stages(asking)[3], e) && Next(Stages(asking)[3], e) == Stages(asking)[4]
  {
  }

  lemma LastStages(asking: Asking, i: nat)
    requires 4 <= i < 7 && !(asking.fetchOk && asking.tellOk)
    ensures var e := Act(0, Script(asking)[i]);
            Enabled(Stages(asking)[i], e) && Next(Stages(asking)[i], e) == Stages(asking)[i + 1]
  {
    assert Ancestor(ROOT, LOCK_COMMIT);
  }

  /** The first `k` steps of the script, and then `last`. */
  lemma ScriptRuns(asking: Asking, k: nat, last: Action) returns (states: seq<State>, events: seq<Event>)
    requires k <= 7 && !(asking.fetchOk && asking.tellOk) && Enabled(Stages(asking)[k], Act(0, last))
    ensures IsRun(states, events) && states[|states| - 1] == Next(Stages(asking)[k], Act(0, last))
  {
    var actions := Script(asking)[..k] + [last];
    events := seq(k + 1, i requires 0 <= i < k + 1 => Act(0, actions[i]));
    states := Stages(asking)[..k + 1] + [Next(Stages(asking)[k], Act(0, last))];
    forall i | 0 <= i < k + 1
      ensures Enabled(states[i], events[i]) && states[i + 1] == Next(states[i], events[i])
    {
      if i < k {
        StageSteps(asking, i);
      }
    }
    assert Init(states[0]);
  }

  lemma StageSteps(asking: Asking, i: nat)
    requires i < 7 && !(asking.fetchOk && asking.tellOk)
    ensures var e := Act(0, Script(asking)[i]);
            Enabled(Stages(asking)[i], e) && Next(Stages(asking)[i], e) == Stages(asking)[i + 1]
  {
    if i == 0 {
      BeginStage(asking);
    } else if i == 1 {
      WriteStage(asking);
    } else if i == 2 {
      CommitStage(asking);
    } else if i == 3 {
      RecordStage(asking);
    } else {
      LastStages(asking, i);
    }
  }

  /** The machine is idle at its old HEAD while the branch holds the commit it took back. */
  ghost predicate TakenBackOnTheBranch(s: State) {
    && s.tips == [ROOT, LOCK_COMMIT]
    && 0 in s.machines && s.machines[0].phase.Idle? && s.machines[0].git.head == ROOT
  }

  /** So an undone claim may be on the remote, when the fetch fails and also when it works
      and git cannot tell. */
  lemma UndoneClaimMayBeOnTheRemote(asking: Asking) returns (states: seq<State>, events: seq<Event>)
    requires !(asking.fetchOk && asking.tellOk)
    ensures IsRun(states, events) && TakenBackOnTheBranch(states[|states| - 1])
  {
    states, events := ScriptRuns(asking, 7, U(ClaimUndo));
    NothingFails(ClaimPlan(LOCK_PLAN));
    UndoDoneAt(Stages(asking)[7].machines[0].git, LOCK_COMMIT, ClaimPlan(LOCK_PLAN), NO_FAULTS, LOCK);
  }

  /** And so may a run that an interrupt took back in the middle of its claim. */
  lemma UnwoundClaimMayBeOnTheRemote() returns (states: seq<State>, events: seq<Event>)
    ensures IsRun(states, events) && TakenBackOnTheBranch(states[|states| - 1])
  {
    var asking := Asking(true, false);
    states, events := ScriptRuns(asking, 6, U(Interrupt(asking)));
    var x := Stages(asking)[6].machines[0];
    assert CleanStart(EMPTY, LOCK_PLAN);
    UndoPutsBack(x, LOCK_COMMIT);
  }

  /** A run and one more step. */
  lemma OneMoreStep(states: seq<State>, events: seq<Event>, e: Event)
    requires IsRun(states, events) && Enabled(states[|events|], e)
    ensures IsRun(states + [Next(states[|events|], e)], events + [e])
  {
  }

  /** And so may a run that was pushed by hand before its claim. */
  lemma HandPushIsTakenBack() returns (states: seq<State>, events: seq<Event>)
    ensures IsRun(states, events) && TakenBackOnTheBranch(states[|states| - 1])
  {
    var asking, push := Asking(false, true), R(Push(true, true));
    assert Stages(asking)[4].machines[0].git.head == LOCK_COMMIT;
    states, events := ScriptRuns(asking, 4, push);
    var s := states[|states| - 1];
    var x, stop := s.machines[0], Act(0, U(Interrupt(asking)));
    assert Ancestor(ROOT, LOCK_COMMIT);
    assert Pushed([ROOT], LOCK_COMMIT, true) == [ROOT] + [LOCK_COMMIT];
    assert CleanStart(EMPTY, LOCK_PLAN);
    UndoPutsBack(x, LOCK_COMMIT);
    OneMoreStep(states, events, stop);
    states, events := states + [Next(s, stop)], events + [stop];
  }

  /** And an interrupt in the middle of the claim's undo leaves the fleet in between:
      HEAD is back, the lock is not. */
  lemma CutUndoLeavesTheLock() returns (states: seq<State>, events: seq<Event>)
    ensures IsRun(states, events)
    ensures var s := states[|states| - 1];
            && 0 in s.machines && s.machines[0].phase.Idle?
            && s.machines[0].git.head == ROOT && At(s.machines[0].git.work, LOCK) == Some("pending")
  {
    var asking := Asking(false, true);
    states, events := ScriptRuns(asking, 7, U(InterruptInUndo(0, asking)));
    var x := Stages(asking)[7].machines[0];
    assert CleanStart(EMPTY, LOCK_PLAN);
    CutUndoStaysCut(x, 0, asking, LOCK_COMMIT);
    PartUndoneAt(x, 0, LOCK);
    assert At(x.git.work, LOCK) == Some("pending");
  }
}
