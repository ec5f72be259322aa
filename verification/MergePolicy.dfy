/** The deterministic merge policy: the eligibility evaluation before a merge intent exists,
    and the revalidation immediately before the provider mutation. */
module MergePolicy {
  import opened Wrappers
  import M = MilestoneMachine
  import S = SecurityLog

  type Id = nat
  type Sha = string

  datatype ProjectState =
    | New | Designing | DesignApproval | Provisioning | ReadyProject | Building | WaitingHuman
    | Paused | BlockedProject | Completing | CompleteProject | FailedProject | CancelledProject

  datatype PullState = Open | Merged | Closed

  datatype MilestoneRow = MilestoneRow(project: Id, row: M.Row)
  datatype Repository = Repository(project: Id, externalId: int, verified: bool)
  datatype PullRequest = PullRequest(
    project: Id, milestone: Id, repository: Id, number: int, state: PullState,
    headBranch: string, baseBranch: string, headSha: Sha)

  datatype CiStatus = Queued | Running | Passed | FailedCi | CancelledCi | UnknownCi
  datatype CiRun = CiRun(id: Id, pull: Id, headSha: Sha, status: CiStatus)

  datatype Verdict = Approve | ChangesRequired | HumanTestRequired | HumanDecisionRequired | BlockedVerdict
  datatype Review = Review(
    id: Id, project: Id, milestone: Id, pull: Id, createdAt: int,
    verdict: Verdict, reviewedSha: Sha, superseded: bool)
  datatype Finding = Finding(review: Id, open: bool)

  datatype GateType =
    | DesignApprovalGate | ProductDecision | TechnicalDecision | HumanTest | FinalAcceptance | RecoveryDecision
  datatype GateState = Pending | Notified | Responded | Validated | Resolved | Expired | Cancelled
  datatype Gate = Gate(id: Id, project: Id, milestone: Id, kind: GateType, state: GateState)
  datatype Response = Response(gate: Id, validated: bool)
  datatype Binding = Binding(gate: Id, project: Id, milestone: Id, pull: Id, ciRun: Id, testedSha: Sha)
  datatype Outcome = Pass | Fail | BlockedOutcome
  datatype TestResult = TestResult(gate: Id, outcome: Outcome, testedSha: Sha)

  /** The tables the policy reads; sequences are in insertion order. */
  datatype Tables = Tables(
    projects: map<Id, ProjectState>, milestones: map<Id, MilestoneRow>,
    repositories: map<Id, Repository>, pulls: map<Id, PullRequest>,
    ciRuns: seq<CiRun>, reviews: seq<Review>, findings: seq<Finding>,
    gates: seq<Gate>, responses: seq<Response>, bindings: seq<Binding>, results: seq<TestResult>,
    security: S.Log)

  /** A pull request as the provider reports it. */
  datatype Live = Live(
    repository: int, number: int, state: PullState, headBranch: string, baseBranch: string, headSha: Sha)

  datatype Request = Request(
    project: Id, milestone: Id, repository: Id, repositoryNumber: int, pull: Id, number: int,
    headBranch: string, baseBranch: string, head: Sha)

  // ------------------------------------------------------------------ evidence queries

  predicate CiPassed(t: Tables, pull: Id, head: Sha) {
    exists c | c in t.ciRuns :: c.pull == pull && c.headSha == head && c.status == Passed
  }

  predicate ReviewOf(r: Review, project: Id, milestone: Id, pull: Id) {
    r.project == project && r.milestone == milestone && r.pull == pull
  }

  /** Newest by creation time; the later row wins a tie. */
  function LatestReview(reviews: seq<Review>, project: Id, milestone: Id, pull: Id): Option<Review> {
    if reviews == [] then None
    else
      var last := reviews[|reviews| - 1];
      var earlier := LatestReview(reviews[..|reviews| - 1], project, milestone, pull);
      if ReviewOf(last, project, milestone, pull) && (earlier.None? || earlier.value.createdAt <= last.createdAt)
      then Some(last) else earlier
  }

  /** Row `i` is a review of the pull request and no other is newer by time, then position. */
  ghost predicate NewestReview(reviews: seq<Review>, i: nat, project: Id, milestone: Id, pull: Id)
    requires i < |reviews|
  {
    && ReviewOf(reviews[i], project, milestone, pull)
    && forall j :: 0 <= j < |reviews| && ReviewOf(reviews[j], project, milestone, pull) ==>
         reviews[j].createdAt < reviews[i].createdAt
         || (reviews[j].createdAt == reviews[i].createdAt && j <= i)
  }

  /** `LatestReview` is the maximum of its pull request's reviews by time, then position. */
  lemma {:induction false} LatestReviewIsMaximum(reviews: seq<Review>, project: Id, milestone: Id, pull: Id)
    ensures LatestReview(reviews, project, milestone, pull).None? <==>
      forall r :: r in reviews ==> !ReviewOf(r, project, milestone, pull)
    ensures var latest := LatestReview(reviews, project, milestone, pull); latest.Some? ==>
      exists i | 0 <= i < |reviews| :: reviews[i] == latest.value && NewestReview(reviews, i, project, milestone, pull)
  {
    if reviews != [] {
      var front, last := reviews[..|reviews| - 1], reviews[|reviews| - 1];
      LatestReviewIsMaximum(front, project, milestone, pull);
      assert reviews == front + [last];
      var earlier := LatestReview(front, project, milestone, pull);
      var latest := LatestReview(reviews, project, milestone, pull);
      if latest.Some? && latest != earlier {
        assert NewestReview(reviews, |front|, project, milestone, pull);
      } else if latest.Some? {
        var i :| 0 <= i < |front| && front[i] == latest.value && NewestReview(front, i, project, milestone, pull);
        if ReviewOf(last, project, milestone, pull) && earlier.value.createdAt <= last.createdAt {
          assert NewestReview(reviews, |front|, project, milestone, pull);
        } else {
          assert NewestReview(reviews, i, project, milestone, pull);
        }
      }
    }
  }

  predicate OpenFinding(t: Tables, project: Id, milestone: Id, pull: Id) {
    exists f | f in t.findings :: f.open &&
      exists r | r in t.reviews :: r.id == f.review && ReviewOf(r, project, milestone, pull)
  }

  predicate ApprovalCurrent(t: Tables, project: Id, milestone: Id, pull: Id, head: Sha) {
    var latest := LatestReview(t.reviews, project, milestone, pull);
    && pull in t.pulls && t.pulls[pull].project == project && t.pulls[pull].milestone == milestone
    && t.pulls[pull].state == Open && t.pulls[pull].headSha == head
    && latest.Some? && latest.value.verdict == Approve
    && latest.value.reviewedSha == head && !latest.value.superseded
    && CiPassed(t, pull, head)
    && !OpenFinding(t, project, milestone, pull)
  }

  /** A PASS bound, through its gate's binding, to exactly this pull request, head and CI run. */
  predicate TestCurrent(t: Tables, project: Id, milestone: Id, pull: Id, head: Sha) {
    exists b | b in t.bindings :: BindingCurrent(t, b, project, milestone, pull, head)
  }

  predicate BindingCurrent(t: Tables, b: Binding, project: Id, milestone: Id, pull: Id, head: Sha) {
    && b.project == project && b.milestone == milestone && b.pull == pull && b.testedSha == head
    && pull in t.pulls && t.pulls[pull].state == Open && t.pulls[pull].headSha == head
    && (exists r | r in t.results :: r.gate == b.gate && r.outcome == Pass && r.testedSha == head)
    && (exists g | g in t.gates :: g.id == b.gate && g.state == Resolved)
    && (exists c | c in t.ciRuns :: c.id == b.ciRun && c.status == Passed && c.headSha == head)
  }

  predicate GateOf(g: Gate, project: Id, milestone: Id) { g.project == project && g.milestone == milestone }

  /** Every gate of the milestone is resolved by some response. */
  predicate GatesAnswered(t: Tables, project: Id, milestone: Id) {
    forall g | g in t.gates :: GateOf(g, project, milestone) ==>
      g.state == Resolved && exists r | r in t.responses :: r.gate == g.id
  }

  /** The stricter reading used before the mutation: the response was validated. */
  predicate GatesValidated(t: Tables, project: Id, milestone: Id) {
    forall g | g in t.gates :: GateOf(g, project, milestone) ==>
      g.state == Resolved && exists r | r in t.responses :: r.gate == g.id && r.validated
  }

  predicate HumanTestRequiredFor(t: Tables, project: Id, milestone: Id) {
    exists g | g in t.gates :: GateOf(g, project, milestone) && g.kind == HumanTest
  }

  // ------------------------------------------------------------------ what eligibility means

  /** Current proof that this exact head may be merged. */
  predicate HeadProven(t: Tables, project: Id, milestone: Id, pull: Id, head: Sha) {
    && ApprovalCurrent(t, project, milestone, pull, head)
    && (HumanTestRequiredFor(t, project, milestone) ==> TestCurrent(t, project, milestone, pull, head))
    && !S.Blocked(t.security, project, milestone)
  }

  /** The request names one verified repository and its own pull request at its own head. */
  predicate IdentityHolds(t: Tables, r: Request) {
    && r.project in t.projects && t.projects[r.project] == Building
    && r.milestone in t.milestones && t.milestones[r.milestone].project == r.project
    && r.repository in t.repositories
    && t.repositories[r.repository] == Repository(r.project, r.repositoryNumber, true)
    && r.pull in t.pulls
    && t.pulls[r.pull] == PullRequest(r.project, r.milestone, r.repository, r.number,
         t.pulls[r.pull].state, r.headBranch, r.baseBranch, r.head)
  }

  /** Everything the evaluation reads from the database, the milestone's own state aside. */
  predicate PersistedPolicy(t: Tables, r: Request) {
    && IdentityHolds(t, r)
    && HeadProven(t, r.project, r.milestone, r.pull, r.head)
    && GatesAnswered(t, r.project, r.milestone)
  }

  predicate AtMergeReady(t: Tables, r: Request) {
    r.milestone in t.milestones && t.milestones[r.milestone].row.state == M.MergeReady
  }

  predicate LiveIs(live: Option<Live>, r: Request, state: PullState) {
    live == Some(Live(r.repositoryNumber, r.number, state, r.headBranch, r.baseBranch, r.head))
  }

  predicate MayMerge(t: Tables, r: Request, live: Option<Live>) {
    PersistedPolicy(t, r) && AtMergeReady(t, r) && LiveIs(live, r, Open)
  }

  datatype GuardName =
    | ProjectIdentity | ProjectStateGuard | MilestoneIdentity | MilestoneState | RepositoryIdentity
    | RepositoryVerified | PullRequestIdentity | PersistedBranches | PersistedHead | LiveObservation
    | LiveRepository | LivePullRequest | LiveOpen | LiveBranches | LiveHead | RequiredCi
    | ArchitectApproval | BlockingFindings | HumanGates | HumanTestGuard | SecurityGuard

  datatype Guard = Guard(name: GuardName, passed: bool)
  datatype Evaluation = Evaluation(request: Request, guards: seq<Guard>, eligible: bool)

  predicate AllPassed(guards: seq<Guard>) { forall g | g in guards :: g.passed }

  lemma AllPassedAppend(guards: seq<Guard>, more: seq<Guard>)
    ensures AllPassed(guards + more) <==> AllPassed(guards) && AllPassed(more)
  {
    forall g ensures g in guards + more <==> g in guards || g in more {}
  }

  /** The identity guards, in the order they are reported. */
  method IdentityGuards(t: Tables, r: Request) returns (guards: seq<Guard>)
    ensures AllPassed(guards) <==> IdentityHolds(t, r) && AtMergeReady(t, r)
  {
    var milestone := r.milestone in t.milestones && t.milestones[r.milestone].project == r.project;
    var repository := r.repository in t.repositories;
    var ownedPull := r.pull in t.pulls && t.pulls[r.pull].project == r.project
      && t.pulls[r.pull].milestone == r.milestone && t.pulls[r.pull].repository == r.repository;
    guards := [
      Guard(ProjectIdentity, r.project in t.projects),
      Guard(ProjectStateGuard, r.project in t.projects && t.projects[r.project] == Building),
      Guard(MilestoneIdentity, milestone),
      Guard(MilestoneState, r.milestone in t.milestones && t.milestones[r.milestone].row.state == M.MergeReady),
      Guard(RepositoryIdentity, repository && t.repositories[r.repository].project == r.project
        && t.repositories[r.repository].externalId == r.repositoryNumber),
      Guard(RepositoryVerified, repository && t.repositories[r.repository].verified),
      Guard(PullRequestIdentity, ownedPull && t.pulls[r.pull].number == r.number),
      Guard(PersistedBranches, ownedPull && t.pulls[r.pull].headBranch == r.headBranch
        && t.pulls[r.pull].baseBranch == r.baseBranch),
      Guard(PersistedHead, ownedPull && t.pulls[r.pull].headSha == r.head)];
    assert AllPassed(guards) <==> forall i :: 0 <= i < 9 ==> guards[i].passed;
    assert AllPassed(guards) ==>
      (guards[1].passed && guards[2].passed && guards[3].passed && guards[4].passed
      && guards[5].passed && guards[6].passed && guards[7].passed && guards[8].passed);
  }

  method LiveGuards(r: Request, live: Option<Live>) returns (guards: seq<Guard>)
    ensures AllPassed(guards) <==> LiveIs(live, r, Open)
  {
    guards := [
      Guard(LiveObservation, live.Some?),
      Guard(LiveRepository, live.Some? && live.value.repository == r.repositoryNumber),
      Guard(LivePullRequest, live.Some? && live.value.number == r.number),
      Guard(LiveOpen, live.Some? && live.value.state == Open),
      Guard(LiveBranches, live.Some? && live.value.headBranch == r.headBranch && live.value.baseBranch == r.baseBranch),
      Guard(LiveHead, live.Some? && live.value.headSha == r.head)];
    assert AllPassed(guards) ==>
      (guards[0].passed && guards[1].passed && guards[2].passed
      && guards[3].passed && guards[4].passed && guards[5].passed);
  }

  method EvidenceGuards(t: Tables, r: Request) returns (guards: seq<Guard>)
    ensures AllPassed(guards) <==>
      HeadProven(t, r.project, r.milestone, r.pull, r.head) && GatesAnswered(t, r.project, r.milestone)
  {
    var required := HumanTestRequiredFor(t, r.project, r.milestone);
    var current := TestCurrent(t, r.project, r.milestone, r.pull, r.head);
    var blocked := S.Blocked(t.security, r.project, r.milestone);
    guards := [
      Guard(RequiredCi, CiPassed(t, r.pull, r.head)),
      Guard(ArchitectApproval, ApprovalCurrent(t, r.project, r.milestone, r.pull, r.head)),
      Guard(BlockingFindings, !OpenFinding(t, r.project, r.milestone, r.pull)),
      Guard(HumanGates, GatesAnswered(t, r.project, r.milestone)),
      Guard(HumanTestGuard, !required || current),
      Guard(SecurityGuard, !blocked)];
    assert AllPassed(guards) ==> guards[1].passed && guards[3].passed && guards[4].passed && guards[5].passed;
  }

  /** Append every guard and pass only when all do: exactly the declared meaning. */
  method EvaluatePersisted(t: Tables, r: Request, live: Option<Live>) returns (result: Evaluation)
    ensures result.eligible <==> MayMerge(t, r, live)
    ensures result.eligible <==> AllPassed(result.guards)
    ensures result.request == r
  {
    var identity := IdentityGuards(t, r);
    var observed := LiveGuards(r, live);
    var evidence := EvidenceGuards(t, r);
    var guards := identity + observed + evidence;
    AllPassedAppend(identity, observed);
    AllPassedAppend(identity + observed, evidence);
    result := Evaluation(r, guards, AllPassed(guards));
  }

  // ------------------------------------------------------------------ revalidation before the mutation

  datatype MergeStatus = Requested | MergedStatus | NotMerged | Conflict | Rejected | Unknown

  /** A durable merge attempt; all but the last two fields are immutable. */
  datatype Attempt = Attempt(
    project: Id, milestone: Id, pull: Id, head: Sha, headBranch: string, baseBranch: string,
    evaluation: Evaluation, status: MergeStatus, mutationStarted: bool)

  datatype PolicyFailure =
    | ProjectForbids | PullNotOpen | HeadChanged | BranchesChanged | SecurityBlocks
    | CiUnavailable | ApprovalUnavailable | FindingIsOpen | GateUnresolved | TestUnavailable

  /** The order in which the reasons are tried. */
  function Order(f: PolicyFailure): nat {
    match f
    case ProjectForbids => 0
    case PullNotOpen => 1
    case HeadChanged => 2
    case BranchesChanged => 3
    case SecurityBlocks => 4
    case CiUnavailable => 5
    case ApprovalUnavailable => 6
    case FindingIsOpen => 7
    case GateUnresolved => 8
    case TestUnavailable => 9
  }

  /** The rows an attempt is joined with; without them its context is unavailable. */
  predicate Joined(t: Tables, a: Attempt) {
    && a.milestone in t.milestones && a.project in t.projects && a.pull in t.pulls
    && t.pulls[a.pull].repository in t.repositories
    && t.repositories[t.pulls[a.pull].repository].verified
  }

  predicate Clear(t: Tables, a: Attempt, failure: PolicyFailure)
    requires Joined(t, a)
  {
    var pull := t.pulls[a.pull];
    match failure
    case ProjectForbids => t.projects[a.project] == Building
    case PullNotOpen => pull.state == Open
    case HeadChanged => pull.headSha == a.head
    case BranchesChanged => pull.headBranch == a.headBranch && pull.baseBranch == a.baseBranch
    case SecurityBlocks => !S.Blocked(t.security, a.project, a.milestone)
    case CiUnavailable => CiPassed(t, a.pull, a.head)
    case ApprovalUnavailable => ApprovalCurrent(t, a.project, a.milestone, a.pull, a.head)
    case FindingIsOpen => !OpenFinding(t, a.project, a.milestone, a.pull)
    case GateUnresolved => GatesValidated(t, a.project, a.milestone)
    case TestUnavailable => HumanTestRequiredFor(t, a.project, a.milestone) ==>
                            TestCurrent(t, a.project, a.milestone, a.pull, a.head)
  }

  /** The first reason in order that is not clear. */
  method ExecutionPolicyFailure(t: Tables, a: Attempt) returns (failure: Option<PolicyFailure>)
    requires Joined(t, a)
    ensures failure.None? ==> forall f :: Clear(t, a, f)
    ensures failure.Some? ==> !Clear(t, a, failure.value)
    ensures failure.Some? ==> forall f :: Order(f) < Order(failure.value) ==> Clear(t, a, f)
  {
    var pull := t.pulls[a.pull];
    if t.projects[a.project] != Building { return Some(ProjectForbids); }
    if pull.state != Open { return Some(PullNotOpen); }
    if pull.headSha != a.head { return Some(HeadChanged); }
    if pull.headBranch != a.headBranch || pull.baseBranch != a.baseBranch { return Some(BranchesChanged); }
    if S.Blocked(t.security, a.project, a.milestone) { return Some(SecurityBlocks); }
    if !CiPassed(t, a.pull, a.head) { return Some(CiUnavailable); }
    if !ApprovalCurrent(t, a.project, a.milestone, a.pull, a.head) { return Some(ApprovalUnavailable); }
    if OpenFinding(t, a.project, a.milestone, a.pull) { return Some(FindingIsOpen); }
    if !GatesValidated(t, a.project, a.milestone) { return Some(GateUnresolved); }
    if HumanTestRequiredFor(t, a.project, a.milestone)
       && !TestCurrent(t, a.project, a.milestone, a.pull, a.head) {
      return Some(TestUnavailable);
    }
    failure := None;
  }

  /** The mutation may go ahead: the attempt has its rows and every reason is clear. */
  predicate ExecutionPolicy(t: Tables, a: Attempt) {
    Joined(t, a) && forall f :: Clear(t, a, f)
  }

  method Revalidate(t: Tables, a: Attempt) returns (failure: Option<PolicyFailure>)
    requires Joined(t, a)
    ensures failure.None? <==> ExecutionPolicy(t, a)
  {
    failure := ExecutionPolicyFailure(t, a);
  }

  /** The attempt a successful preparation writes down. */
  function AttemptOf(r: Request, evaluation: Evaluation): Attempt {
    Attempt(r.project, r.milestone, r.pull, r.head, r.headBranch, r.baseBranch, evaluation, Requested, false)
  }

  /** What no statement of the program ever updates in the rows a request names. */
  ghost predicate IdentityStable(before: Tables, after: Tables, r: Request) {
    && (r.milestone in before.milestones && r.milestone in after.milestones ==>
         after.milestones[r.milestone].project == before.milestones[r.milestone].project)
    && (r.pull in before.pulls && r.pull in after.pulls ==>
         var p, q := before.pulls[r.pull], after.pulls[r.pull];
         q == p.(state := q.state, headSha := q.headSha))
    && (r.repository in before.repositories && r.repository in after.repositories ==>
         after.repositories[r.repository].(verified := true) == before.repositories[r.repository].(verified := true))
  }

  /** Revalidation refines eligibility: for an attempt that preparation created, and whatever
      happened to the tables since, passing it means every persisted guard of the evaluation
      holds again (the milestone having moved on to MERGING) and, beyond it, that every gate
      was answered by a validated response; and it passes in no other case. */
  lemma ExecutionRefinesEvaluation(before: Tables, after: Tables, r: Request, live: Option<Live>, evaluation: Evaluation)
    requires MayMerge(before, r, live) && IdentityStable(before, after, r)
    ensures ExecutionPolicy(after, AttemptOf(r, evaluation)) <==>
      PersistedPolicy(after, r) && GatesValidated(after, r.project, r.milestone)
  {
    var a := AttemptOf(r, evaluation);
    if ExecutionPolicy(after, a) {
      assert Clear(after, a, ProjectForbids) && Clear(after, a, PullNotOpen) && Clear(after, a, HeadChanged)
        && Clear(after, a, SecurityBlocks) && Clear(after, a, ApprovalUnavailable)
        && Clear(after, a, GateUnresolved) && Clear(after, a, TestUnavailable);
    }
  }

  // ------------------------------------------------------------------ stale evidence

  predicate NamesHead(t: Tables, head: Sha) {
    || (exists c | c in t.ciRuns :: c.headSha == head)
    || (exists r | r in t.reviews :: r.reviewedSha == head)
    || (exists r | r in t.results :: r.testedSha == head)
  }

  function Keep<T>(rows: seq<T>, keep: T -> bool): seq<T> {
    if rows == [] then []
    else Keep(rows[..|rows| - 1], keep) + if keep(rows[|rows| - 1]) then [rows[|rows| - 1]] else []
  }

  lemma {:induction false} KeepMembers<T>(rows: seq<T>, keep: T -> bool)
    ensures forall x :: x in Keep(rows, keep) <==> x in rows && keep(x)
  {
    if rows != [] {
      var front, last := rows[..|rows| - 1], rows[|rows| - 1];
      KeepMembers(front, keep);
      assert rows == front + [last];
    }
  }

  lemma {:induction false} KeepLatestReview(reviews: seq<Review>, head: Sha, project: Id, milestone: Id, pull: Id)
    requires var latest := LatestReview(reviews, project, milestone, pull);
      latest.Some? && latest.value.reviewedSha == head
    ensures LatestReview(Keep(reviews, (r: Review) => r.reviewedSha == head), project, milestone, pull)
         == LatestReview(reviews, project, milestone, pull)
  {
    var keep := (r: Review) => r.reviewedSha == head;
    var front, last := reviews[..|reviews| - 1], reviews[|reviews| - 1];
    var earlier := LatestReview(front, project, milestone, pull);
    var kept := Keep(front, keep);
    assert keep(last) ==> (kept + [last])[..|kept| + 1 - 1] == kept;
    if LatestReview(reviews, project, milestone, pull) == earlier {
      KeepLatestReview(front, head, project, milestone, pull);
      assert !keep(last) ==> Keep(reviews, keep) == kept;
    } else {
      LatestReviewIsMaximum(front, project, milestone, pull);
      LatestReviewIsMaximum(kept, project, milestone, pull);
      KeepMembers(front, keep);
      var newest := LatestReview(kept, project, milestone, pull);
      if newest.Some? {
        assert newest.value in front;
        var i :| 0 <= i < |front| && front[i] == newest.value;
        assert earlier.Some? && newest.value.createdAt <= earlier.value.createdAt;
      }
    }
  }

  /** The tables with every piece of evidence recorded for another head deleted. */
  ghost function EvidenceAt(t: Tables, head: Sha): Tables {
    t.(ciRuns := Keep(t.ciRuns, (c: CiRun) => c.headSha == head),
       reviews := Keep(t.reviews, (r: Review) => r.reviewedSha == head),
       bindings := Keep(t.bindings, (b: Binding) => b.testedSha == head),
       results := Keep(t.results, (r: TestResult) => r.testedSha == head))
  }

  lemma PassedIsKept(t: Tables, pull: Id, head: Sha)
    requires CiPassed(t, pull, head)
    ensures CiPassed(EvidenceAt(t, head), pull, head)
  {
    KeepMembers(t.ciRuns, (c: CiRun) => c.headSha == head);
    var c :| c in t.ciRuns && c.pull == pull && c.headSha == head && c.status == Passed;
    assert c in EvidenceAt(t, head).ciRuns;
  }

  lemma BindingIsKept(t: Tables, b: Binding, project: Id, milestone: Id, pull: Id, head: Sha)
    requires b in t.bindings && BindingCurrent(t, b, project, milestone, pull, head)
    ensures TestCurrent(EvidenceAt(t, head), project, milestone, pull, head)
  {
    var u := EvidenceAt(t, head);
    KeepMembers(t.ciRuns, (c: CiRun) => c.headSha == head);
    KeepMembers(t.bindings, (k: Binding) => k.testedSha == head);
    KeepMembers(t.results, (x: TestResult) => x.testedSha == head);
    var x :| x in t.results && x.gate == b.gate && x.outcome == Pass && x.testedSha == head;
    assert x in u.results;
    var c :| c in t.ciRuns && c.id == b.ciRun && c.status == Passed && c.headSha == head;
    assert c in u.ciRuns;
    assert b in u.bindings && BindingCurrent(u, b, project, milestone, pull, head);
  }

  lemma ApprovalIsKept(t: Tables, project: Id, milestone: Id, pull: Id, head: Sha)
    requires ApprovalCurrent(t, project, milestone, pull, head)
    ensures ApprovalCurrent(EvidenceAt(t, head), project, milestone, pull, head)
  {
    KeepLatestReview(t.reviews, head, project, milestone, pull);
    PassedIsKept(t, pull, head);
    KeepMembers(t.reviews, (v: Review) => v.reviewedSha == head);
  }

  /** Evidence for other heads never helps: an eligible request stays eligible when all of it
      is deleted. */
  lemma OtherHeadsNeverHelp(t: Tables, r: Request, live: Option<Live>)
    requires MayMerge(t, r, live)
    ensures MayMerge(EvidenceAt(t, r.head), r, live)
  {
    ApprovalIsKept(t, r.project, r.milestone, r.pull, r.head);
    if HumanTestRequiredFor(t, r.project, r.milestone) {
      var b :| b in t.bindings && BindingCurrent(t, b, r.project, r.milestone, r.pull, r.head);
      BindingIsKept(t, b, r.project, r.milestone, r.pull, r.head);
    }
    RestIsKept(t, r, live);
  }

  lemma RestIsKept(t: Tables, r: Request, live: Option<Live>)
    requires MayMerge(t, r, live) && ApprovalCurrent(EvidenceAt(t, r.head), r.project, r.milestone, r.pull, r.head)
    requires HumanTestRequiredFor(t, r.project, r.milestone) ==>
      TestCurrent(EvidenceAt(t, r.head), r.project, r.milestone, r.pull, r.head)
    ensures MayMerge(EvidenceAt(t, r.head), r, live)
  {
    var u := EvidenceAt(t, r.head);
    assert u == t.(ciRuns := u.ciRuns, reviews := u.reviews, bindings := u.bindings, results := u.results);
  }

  /** A person passed this very head: the result answers a resolved gate that is bound to this
      milestone and pull request, at this head, through a passing CI run of this head. */
  predicate HumanPass(r: Request, b: Binding, x: TestResult, g: Gate, c: CiRun) {
    && b.project == r.project && b.milestone == r.milestone && b.pull == r.pull && b.testedSha == r.head
    && x.gate == b.gate && x.outcome == Pass && x.testedSha == r.head
    && g.id == b.gate && g.state == Resolved
    && c.id == b.ciRun && c.status == Passed && c.headSha == r.head
  }

  /** A merge of a head needs a passing CI run and the newest review, neither superseded nor
      about another head; and, if any human test was ever gated, a person's PASS of that head
      of this pull request. */
  lemma EligibleMeansProvenHead(t: Tables, r: Request, live: Option<Live>)
    requires MayMerge(t, r, live)
    ensures exists c :: c in t.ciRuns && c.pull == r.pull && c.headSha == r.head && c.status == Passed
    ensures exists i | 0 <= i < |t.reviews| ::
      && NewestReview(t.reviews, i, r.project, r.milestone, r.pull)
      && t.reviews[i].verdict == Approve && t.reviews[i].reviewedSha == r.head && !t.reviews[i].superseded
    ensures (exists g :: g in t.gates && GateOf(g, r.project, r.milestone) && g.kind == HumanTest) ==>
      exists b, x, g, c ::
        b in t.bindings && x in t.results && g in t.gates && c in t.ciRuns && HumanPass(r, b, x, g, c)
    ensures r.pull in t.pulls && t.pulls[r.pull].headSha == r.head
    ensures live.Some? && live.value.headSha == r.head && live.value.state == Open
  {
    LatestReviewIsMaximum(t.reviews, r.project, r.milestone, r.pull);
    if HumanTestRequiredFor(t, r.project, r.milestone) {
      var b :| b in t.bindings && BindingCurrent(t, b, r.project, r.milestone, r.pull, r.head);
      var x :| x in t.results && x.gate == b.gate && x.outcome == Pass && x.testedSha == r.head;
      var g :| g in t.gates && g.id == b.gate && g.state == Resolved;
      var c :| c in t.ciRuns && c.id == b.ciRun && c.status == Passed && c.headSha == r.head;
      assert HumanPass(r, b, x, g, c);
    }
  }

  /** After the head moves, nothing recorded so far authorises either head: not the old one,
      which the pull request no longer has, nor the new one, which no evidence names. */
  lemma MovedHeadIsNotEligible(t: Tables, r: Request, live: Option<Live>, pull: Id, newHead: Sha)
    requires pull in t.pulls && !NamesHead(t, newHead) && r.pull == pull
    ensures !MayMerge(t.(pulls := t.pulls[pull := t.pulls[pull].(headSha := newHead)]), r, live)
  {
    var u := t.(pulls := t.pulls[pull := t.pulls[pull].(headSha := newHead)]);
    if MayMerge(u, r, live) {
      EligibleMeansProvenHead(u, r, live);
    }
  }
}
