/** The PR_MERGE job and the startup recovery: the two callers of the Gatekeeper. */
module MergeExecutor {
  import opened Wrappers
  import M = MilestoneMachine
  import P = MergePolicy
  import opened MergeSaga
  import opened MergeSafety
  import opened MergeTheorems
  import opened GatekeeperService

  datatype JobFailure =
    | PolicyRejectedJob | MergeBusyJob | IdentityJob | ProviderJob | MergeUnknown | MergeRejected
    | VerificationPending | RecoveryPending

  datatype JobOutcome = Succeeded(attempt: nat) | Failed(failure: JobFailure)

  function FailureOf(error: Error): JobFailure {
    match error
    case PolicyRejected => PolicyRejectedJob
    case MergeBusy => MergeBusyJob
    case Identity => IdentityJob
    case Provider => ProviderJob
  }

  /** A request that an undisturbed job takes all the way to its PUT: it can be prepared, every gate
      was answered by a validated response, and the milestone has no attempt yet. */
  predicate ReadyToMerge(w: World, r: P.Request) {
    && Preparable(w, r) && P.GatesValidated(w.t, r.project, r.milestone)
    && forall i :: 0 <= i < |w.attempts| ==> w.attempts[i].milestone != r.milestone
  }

  /** What preparation leaves is ready for its PUT. */
  lemma PreparedIsSendable(before: World, after: World, r: P.Request)
    requires ReadyToMerge(before, r) && Intended(before, after, r)
    ensures var a := |before.attempts|;
      && |after.attempts| == a + 1 && Executable(after, a) && Clear(after, a) && Looked(after, a) == StillOpen
      && ExactAttempt(after.attempts[a], r)
  {
    var evaluation: P.Evaluation :| evaluation.request == r && evaluation.eligible && after == InsertIntent(before, r, evaluation);
    IntentIsAppended(before, after, r, evaluation);
    IntentIsClear(before, after, r, evaluation);
    IntentIsOpen(before, after, r, evaluation);
  }

  lemma IntentIsOpen(before: World, after: World, r: P.Request, evaluation: P.Evaluation)
    requires Preparable(before, r) && after == InsertIntent(before, r, evaluation) && evaluation.request == r
    ensures Looked(after, |before.attempts|) == StillOpen
  {
    IntentIsAppended(before, after, r, evaluation);
  }

  lemma IntentIsAppended(before: World, after: World, r: P.Request, evaluation: P.Evaluation)
    requires Preparable(before, r) && after == InsertIntent(before, r, evaluation)
    ensures after.attempts == before.attempts + [P.AttemptOf(r, evaluation)] && after.provider == before.provider
    ensures after.t == before.t.(milestones := after.t.milestones) && InState(after, |before.attempts|, M.Merging)
    ensures r.milestone in before.t.milestones && after.t.milestones == before.t.milestones[r.milestone :=
      before.t.milestones[r.milestone].(row := after.t.milestones[r.milestone].row)]
  {
    var inserted := before.(attempts := before.attempts + [P.AttemptOf(r, evaluation)]);
    assert Transition(inserted, r.milestone, M.MergeReady, M.Merging) == Some(after);
  }

  lemma IntentIsClear(before: World, after: World, r: P.Request, evaluation: P.Evaluation)
    requires ReadyToMerge(before, r) && after == InsertIntent(before, r, evaluation)
    ensures P.ExecutionPolicy(after.t, P.AttemptOf(r, evaluation))
  {
    IntentIsAppended(before, after, r, evaluation);
    P.ExecutionRefinesEvaluation(before.t, after.t, r, Get(before, r), evaluation);
  }

  const ROUTE: set<M.State> := {M.MergeReady, M.Merging, M.MergeVerify, M.Complete}

  /** The newest attempt of a milestone. */
  method LatestAttempt(attempts: seq<P.Attempt>, m: P.Id) returns (found: Option<nat>)
    ensures found.None? ==> forall i :: 0 <= i < |attempts| ==> attempts[i].milestone != m
    ensures found.Some? ==> found.value < |attempts| && attempts[found.value].milestone == m
    ensures found.Some? ==> forall i :: found.value < i < |attempts| ==> attempts[i].milestone != m
  {
    var i := |attempts|;
    while i > 0
      invariant 0 <= i <= |attempts|
      invariant forall j :: i <= j < |attempts| ==> attempts[j].milestone != m
    {
      i := i - 1;
      if attempts[i].milestone == m { return Some(i); }
    }
    found := None;
  }

  /** The durable attempt is the one this request names. */
  predicate ExactAttempt(a: P.Attempt, r: P.Request) {
    && a.project == r.project && a.milestone == r.milestone && a.pull == r.pull && a.head == r.head
    && a.headBranch == r.headBranch && a.baseBranch == r.baseBranch && a.evaluation.eligible
  }

  /** What the job's success report is made from. */
  predicate VerifiedEvidence(w: World, a: nat, r: P.Request) {
    && InState(w, a, M.Complete) && w.attempts[a].status == P.MergedStatus
    && w.attempts[a].milestone == r.milestone && w.attempts[a].project == r.project
    && w.attempts[a].pull == r.pull && w.attempts[a].head == r.head
    && r.pull in w.t.pulls && w.t.pulls[r.pull].state == P.Merged && w.t.pulls[r.pull].headSha == r.head
  }

  /** The milestone's mutation may have begun. */
  ghost predicate StartedFor(w: World, m: P.Id) {
    exists a: nat :: StartedAs(w, a, m)
  }

  ghost predicate StartedAs(w: World, a: nat, m: P.Id) {
    a < |w.attempts| && w.attempts[a].milestone == m && w.attempts[a].mutationStarted
  }

  /** In a run that began clean a milestone has one attempt: by whatever order the newest is
      taken, it is this one. */
  lemma NewestIsOnly(keeper: Gatekeeper, a: nat, b: nat)
    requires keeper.Valid() && Initial(keeper.start)
    requires a < |keeper.world.attempts| && b < |keeper.world.attempts|
    requires keeper.world.attempts[a].milestone == keeper.world.attempts[b].milestone
    ensures a == b
  {
    Reachable(keeper.run, keeper.history, |keeper.history|);
  }

  /** The milestone's only attempt is the one that has started. */
  lemma StartedForOnly(keeper: Gatekeeper, a: nat)
    requires keeper.Valid() && Initial(keeper.start)
    requires a < |keeper.world.attempts| && StartedFor(keeper.world, keeper.world.attempts[a].milestone)
    ensures keeper.world.attempts[a].mutationStarted
  {
    var b: nat :| StartedAs(keeper.world, b, keeper.world.attempts[a].milestone);
    NewestIsOnly(keeper, a, b);
  }

  /** An attempt whose undisturbed execution sends its PUT. */
  predicate Sendable(w: World, a: nat) {
    var d := Durable(w);
    Executable(d, a) && Clear(d, a) && Looked(d, a) == StillOpen
  }

  method VerifiedResult(keeper: Gatekeeper, a: nat, r: P.Request) returns (outcome: JobOutcome)
    requires keeper.Valid() && keeper.Resting()
    modifies keeper
    ensures keeper.Valid() && keeper.Resting()
    ensures Puts(keeper.history, keeper.me) == old(Puts(keeper.history, keeper.me))
    ensures outcome.Succeeded? ==> VerifiedEvidence(keeper.world, outcome.attempt, r)
    ensures old(keeper.Undisturbed()) ==> (outcome.Succeeded? <==> VerifiedEvidence(old(keeper.world), a, r))
  {
    keeper.Yield();
    outcome := if VerifiedEvidence(keeper.world, a, r) then Succeeded(a) else Failed(IdentityJob);
  }

  /** Execute, and verify what it merged. */
  method ExecuteAndVerify(keeper: Gatekeeper, a: nat, r: P.Request) returns (outcome: JobOutcome)
    requires keeper.Valid() && keeper.Resting()
    modifies keeper
    ensures keeper.Valid() && keeper.Resting()
    ensures Puts(keeper.history, keeper.me) <= old(Puts(keeper.history, keeper.me)) + 1
    ensures Started(old(keeper.world), a) ==> Puts(keeper.history, keeper.me) == old(Puts(keeper.history, keeper.me))
    ensures outcome.Succeeded? ==> VerifiedEvidence(keeper.world, outcome.attempt, r)
    ensures old(keeper.Undisturbed()) && Sendable(old(keeper.world), a) ==>
      Puts(keeper.history, keeper.me) == old(Puts(keeper.history, keeper.me)) + 1
  {
    var result := keeper.Execute(a);
    match result {
      case Failure(error) => outcome := Failed(FailureOf(error));
      case Success(status) =>
        if status == P.MergedStatus {
          var verified := keeper.Verify(a);
          if verified.Failure? { return Failed(FailureOf(verified.error)); }
          outcome := VerifiedResult(keeper, a, r);
        } else {
          outcome := Failed(if status == P.Unknown then MergeUnknown else MergeRejected);
        }
    }
  }

  /** A milestone that is ready: prepare, then execute what was prepared. */
  method MergeFresh(keeper: Gatekeeper, r: P.Request) returns (outcome: JobOutcome)
    requires keeper.Valid() && keeper.Resting()
    modifies keeper
    ensures keeper.Valid() && keeper.Resting()
    ensures Puts(keeper.history, keeper.me) <= old(Puts(keeper.history, keeper.me)) + 1
    ensures outcome.Succeeded? ==> VerifiedEvidence(keeper.world, outcome.attempt, r)
    ensures old(keeper.Undisturbed()) && ReadyToMerge(Durable(old(keeper.world)), r) ==>
      Puts(keeper.history, keeper.me) == old(Puts(keeper.history, keeper.me)) + 1
  {
    ghost var before := Durable(keeper.world);
    ghost var ready := keeper.Undisturbed() && ReadyToMerge(before, r);
    var prepared := keeper.Prepare(r);
    if prepared.Failure? { return Failed(FailureOf(prepared.error)); }
    var a := prepared.value;
    if ready { PreparedIsSendable(before, Durable(keeper.world), r); }
    keeper.Interfere();
    if !InState(keeper.world, a, M.Merging) || !ExactAttempt(keeper.world.attempts[a], r) { return Failed(IdentityJob); }
    outcome := ExecuteAndVerify(keeper, a, r);
  }

  /** A milestone already merging: look first, and execute only an attempt that has not begun. */
  method MergeInterrupted(keeper: Gatekeeper, a: nat, r: P.Request) returns (outcome: JobOutcome)
    requires keeper.Valid() && keeper.Resting() && a < |keeper.world.attempts|
    modifies keeper
    ensures keeper.Valid() && keeper.Resting()
    ensures Puts(keeper.history, keeper.me) <= old(Puts(keeper.history, keeper.me)) + 1
    ensures Started(old(keeper.world), a) ==> Puts(keeper.history, keeper.me) == old(Puts(keeper.history, keeper.me))
    ensures outcome.Succeeded? ==> VerifiedEvidence(keeper.world, outcome.attempt, r)
  {
    ghost var before := keeper.world;
    var recovered := keeper.Recover(a);
    if recovered.Failure? { return Failed(FailureOf(recovered.error)); }
    if recovered.value {
      outcome := VerifiedResult(keeper, a, r);
      return;
    }
    keeper.Interfere();
    assert Started(before, a) ==> Started(keeper.world, a);
    if |keeper.world.attempts| <= a || keeper.world.attempts[a].status != P.Requested
       || keeper.world.attempts[a].mutationStarted {
      return Failed(RecoveryPending);
    }
    outcome := ExecuteAndVerify(keeper, a, r);
  }

  /** One PR_MERGE job. It sends at most one PUT; none at all once the milestone's mutation may
      have begun; exactly one, undisturbed, for a request that is ready; and it reports success only on
      complete durable evidence, which in a run that began clean means the provider holds the attempt's own head as merged. */
  method RunJob(keeper: Gatekeeper, r: P.Request) returns (outcome: JobOutcome)
    requires keeper.Valid() && keeper.Resting()
    modifies keeper
    ensures keeper.Valid() && keeper.Resting()
    ensures Puts(keeper.history, keeper.me) <= old(Puts(keeper.history, keeper.me)) + 1
    ensures Initial(keeper.start) && StartedFor(old(keeper.world), r.milestone) ==>
      Puts(keeper.history, keeper.me) == old(Puts(keeper.history, keeper.me))
    ensures outcome.Succeeded? ==> VerifiedEvidence(keeper.world, outcome.attempt, r)
    ensures outcome.Succeeded? && Initial(keeper.start) ==> Observed(keeper.world, outcome.attempt, P.Merged)
    ensures old(keeper.Undisturbed()) && ReadyToMerge(Durable(old(keeper.world)), r) ==>
      Puts(keeper.history, keeper.me) == old(Puts(keeper.history, keeper.me)) + 1
  {
    ghost var before := keeper.world;
    keeper.Interfere();
    if StartedFor(before, r.milestone) {
      ghost var a: nat :| StartedAs(before, a, r.milestone);
      assert keeper.Kept(before, a);
      assert StartedAs(keeper.world, a, r.milestone);
    }
    outcome := Route(keeper, r);
    if outcome.Succeeded? && Initial(keeper.start) {
      Reachable(keeper.run, keeper.history, |keeper.history|);
      EvidenceIsObserved(keeper.world, outcome.attempt, r);
    }
  }

  lemma EvidenceIsObserved(w: World, a: nat, r: P.Request)
    requires Invariant(w) && VerifiedEvidence(w, a, r)
    ensures Observed(w, a, P.Merged)
  {
    var b: nat :| Proves(w, r.milestone, b);
    assert a == b;
  }

  /** The route a job takes by its milestone's state. */
  method Route(keeper: Gatekeeper, r: P.Request) returns (outcome: JobOutcome)
    requires keeper.Valid() && keeper.Resting()
    modifies keeper
    ensures keeper.Valid() && keeper.Resting()
    ensures Puts(keeper.history, keeper.me) <= old(Puts(keeper.history, keeper.me)) + 1
    ensures Initial(keeper.start) && StartedFor(old(keeper.world), r.milestone) ==>
      Puts(keeper.history, keeper.me) == old(Puts(keeper.history, keeper.me))
    ensures outcome.Succeeded? ==> VerifiedEvidence(keeper.world, outcome.attempt, r)
    ensures old(keeper.Undisturbed()) && ReadyToMerge(Durable(old(keeper.world)), r) ==>
      Puts(keeper.history, keeper.me) == old(Puts(keeper.history, keeper.me)) + 1
  {
    var t := keeper.world.t;
    if r.project !in t.projects || t.projects[r.project] != P.Building || r.milestone !in t.milestones
       || t.milestones[r.milestone].row.state !in ROUTE {
      return Failed(IdentityJob);
    }
    var state := t.milestones[r.milestone].row.state;
    var latest := LatestAttempt(keeper.world.attempts, r.milestone);
    if state == M.MergeReady {
      if latest.Some? { return Failed(IdentityJob); }
      outcome := MergeFresh(keeper, r);
      return;
    }
    if latest.None? || !ExactAttempt(keeper.world.attempts[latest.value], r) { return Failed(IdentityJob); }
    var a := latest.value;
    if Initial(keeper.start) && StartedFor(keeper.world, r.milestone) { StartedForOnly(keeper, a); }
    if state == M.Complete {
      outcome := VerifiedResult(keeper, a, r);
    } else if state == M.MergeVerify {
      var verified := keeper.Verify(a);
      match verified {
        case Failure(error) => outcome := Failed(FailureOf(error));
        case Success(done) =>
          if !done { return Failed(VerificationPending); }
          outcome := VerifiedResult(keeper, a, r);
      }
    } else {
      outcome := MergeInterrupted(keeper, a, r);
    }
  }

  const RESTING_STATES: set<M.State> := {M.Blocked, M.Failed, M.Cancelled, M.Complete}
  const HELD_PROJECTS: set<P.ProjectState> := {P.BlockedProject, P.Paused}

  /** The project table lets these states become BLOCKED. */
  const BLOCKABLE_PROJECTS: set<P.ProjectState> := {
    P.Designing, P.Provisioning, P.ReadyProject, P.Building, P.WaitingHuman, P.Paused, P.Completing}

  /** What the startup recovery read about its subject. */
  datatype Subject = Subject(project: P.Id, milestone: P.Id, projectState: P.ProjectState, state: M.State)

  predicate MilestoneHeld(w: World, s: Subject) {
    s.milestone in w.t.milestones && w.t.milestones[s.milestone].row.state == M.Blocked
  }

  predicate ProjectHeld(w: World, s: Subject) {
    s.project in w.t.projects && w.t.projects[s.project] == P.BlockedProject
  }

  /** Milestone and project are blocked, unless the recovery found them at rest. */
  predicate Held(w: World, s: Subject) {
    && (MilestoneHeld(w, s) || s.state in RESTING_STATES)
    && (ProjectHeld(w, s) || s.projectState in HELD_PROJECTS)
  }

  /** Each rests, or may be blocked from the state it was found in. */
  predicate Holdable(w: World, s: Subject) {
    && (s.state in RESTING_STATES || MilestoneMayBlock(w, s))
    && (s.projectState in HELD_PROJECTS || ProjectMayBlock(w, s))
  }

  predicate MilestoneMayBlock(w: World, s: Subject) {
    && s.milestone in w.t.milestones && w.t.milestones[s.milestone].project == s.project
    && Transition(w, s.milestone, s.state, M.Blocked).Some?
  }

  predicate ProjectMayBlock(w: World, s: Subject) {
    s.project in w.t.projects && w.t.projects[s.project] == s.projectState && s.projectState in BLOCKABLE_PROJECTS
  }

  /** No milestone, project or attempt is other than it was. */
  ghost predicate Untouched(before: World, after: World) {
    after.t == before.t && after.attempts == before.attempts && after.provider == before.provider
  }

  /** Startup recovery of a merge: observe, and block what stays uncertain. It never sends a PUT. */
  method RecoverMerge(keeper: Gatekeeper, s: Subject) returns (reconciled: Result<bool, Error>)
    requires keeper.Valid() && keeper.Resting()
    modifies keeper
    ensures keeper.Valid() && keeper.Resting()
    ensures Puts(keeper.history, keeper.me) == old(Puts(keeper.history, keeper.me))
    ensures reconciled == Success(true) ==>
      s.milestone in keeper.world.t.milestones && keeper.world.t.milestones[s.milestone].row.state == M.Complete
    ensures reconciled == Success(false) ==> Held(keeper.world, s)
  {
    keeper.Interfere();
    var latest := LatestAttempt(keeper.world.attempts, s.milestone);
    if latest.None? { return Failure(Identity); }
    ghost var before := keeper.world;
    var recovered := keeper.Recover(latest.value);
    assert keeper.Remembers(latest.value, before.attempts[latest.value]);
    if recovered.Failure? { return Failure(recovered.error); }
    if recovered.value { return Success(true); }
    keeper.Interfere();
    var held := BlockUncertain(keeper, s);
    reconciled := if held then Success(false) else Failure(Identity);
  }

  /** A recovery that raises is held too: it ends COMPLETE, held, or with a state that moved on
      meanwhile, and then nothing is written. */
  method ReconcileMerge(keeper: Gatekeeper, s: Subject) returns (reconciled: Result<bool, Error>)
    requires keeper.Valid() && keeper.Resting()
    modifies keeper
    ensures keeper.Valid() && keeper.Resting()
    ensures Puts(keeper.history, keeper.me) == old(Puts(keeper.history, keeper.me))
    ensures reconciled == Success(true) ==>
      s.milestone in keeper.world.t.milestones && keeper.world.t.milestones[s.milestone].row.state == M.Complete
    ensures reconciled == Success(false) ==> Held(keeper.world, s)
    ensures reconciled.Failure? ==> !Holdable(keeper.world, s)
  {
    reconciled := RecoverMerge(keeper, s);
    if reconciled.Success? { return; }
    keeper.Interfere();
    var held := BlockUncertain(keeper, s);
    reconciled := if held then Success(false) else Failure(Identity);
  }

  /** Hold milestone and project for manual recovery, each unless it already rests: one
      transaction, so that both are held or neither is touched. */
  method BlockUncertain(keeper: Gatekeeper, s: Subject) returns (held: bool)
    requires keeper.Valid() && keeper.Resting()
    modifies keeper
    ensures keeper.Valid() && keeper.Resting()
    ensures Puts(keeper.history, keeper.me) == old(Puts(keeper.history, keeper.me))
    ensures held <==> Holdable(old(keeper.world), s)
    ensures held ==> Held(keeper.world, s) && keeper.world.attempts == old(keeper.world).attempts
    ensures !held ==> Untouched(old(keeper.world), keeper.world)
  {
    held := s.projectState in HELD_PROJECTS || ProjectMayBlock(keeper.world, s);
    if held && s.state !in RESTING_STATES {
      held := BlockMilestone(keeper, s);
    }
    if held && s.projectState !in HELD_PROJECTS {
      BlockProject(keeper, s);
    }
  }

  method BlockMilestone(keeper: Gatekeeper, s: Subject) returns (ok: bool)
    requires keeper.Valid() && keeper.Resting()
    modifies keeper
    ensures keeper.Valid() && keeper.Resting()
    ensures Puts(keeper.history, keeper.me) == old(Puts(keeper.history, keeper.me))
    ensures ok <==> MilestoneMayBlock(old(keeper.world), s)
    ensures ok ==> MilestoneHeld(keeper.world, s) && keeper.world.t.projects == old(keeper.world).t.projects
    ensures !ok ==> keeper.world == old(keeper.world)
    ensures keeper.world.attempts == old(keeper.world).attempts
  {
    ghost var before := keeper.world;
    if s.milestone !in keeper.world.t.milestones || keeper.world.t.milestones[s.milestone].project != s.project {
      return false;
    }
    ok := keeper.ApplyTransition(s.milestone, s.state, M.Blocked);
    if ok {
      BlockIsStep(before, s.milestone, s.state);
      keeper.Took(before, Env(MoveMilestone(s.milestone, M.Blocked)));
    }
  }

  method BlockProject(keeper: Gatekeeper, s: Subject)
    requires keeper.Valid() && keeper.Resting() && ProjectMayBlock(keeper.world, s)
    modifies keeper
    ensures keeper.Valid() && keeper.Resting() && ProjectHeld(keeper.world, s)
    ensures Puts(keeper.history, keeper.me) == old(Puts(keeper.history, keeper.me))
    ensures keeper.world.t.milestones == old(keeper.world).t.milestones && keeper.world.attempts == old(keeper.world).attempts
  {
    ghost var before := keeper.world;
    var tables := keeper.world.t.(projects := keeper.world.t.projects[s.project := P.BlockedProject]);
    keeper.world := keeper.world.(t := tables);
    OneStep(before, Env(ChangeTables(tables)));
    keeper.Took(before, Env(ChangeTables(tables)));
  }

  lemma BlockIsStep(w: World, m: P.Id, state: M.State)
    requires Transition(w, m, state, M.Blocked).Some?
    ensures Takes(w, Env(MoveMilestone(m, M.Blocked)), Transition(w, m, state, M.Blocked).value)
  {
    OneStep(w, Env(MoveMilestone(m, M.Blocked)));
  }
}
