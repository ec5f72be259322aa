/** Reconciliation of the CI evidence of one pull request: what one call records, when it moves
    the milestone, and how two budgets and a deadline bound it. */
module CiMonitor {
  import opened Wrappers
  import M = MilestoneMachine
  import opened CiPolicy

  type Sha = string

  datatype Diagnosis =
    | MissingWorkflow | NoApplicableRun | NoRequiredChecks | UnresolvedChecks
    | ProviderAuthentication | ProviderRejection | ProviderMalformed | ProviderUnavailable

  datatype ProviderFailure = Authentication | Rejection | Malformed | Transient

  /** One row of CI evidence; a head has one row for each attempt, the newest last. */
  datatype CiRun = CiRun(
    status: Status, classification: Option<Classification>, workflows: seq<string>,
    startedAt: int, lastCheckedAt: int, retryCount: nat, nextCheckAt: Option<int>,
    unknownSince: Option<int>, unknownDeadline: Option<int>, unknownCount: nat,
    diagnosis: Option<Diagnosis>)

  /** What the provider shows; `cause` is what the wording of failed checks classifies as. */
  datatype Observation = Observation(
    checks: seq<Check>, workflows: seq<string>, workflowStatus: Option<Status>, filesMissing: bool,
    cause: Classification)

  datatype Evidence = Saw(observation: Observation) | Broke(failure: ProviderFailure)

  /** What others may do to the guarded rows while the provider is being asked. */
  datatype Disturbance = Disturbance(head: Sha, open: bool, building: bool, milestone: M.Row)

  /** The world during one reconciliation: the live head before and after the evidence (`None`
      when that read fails or shows another or a closed pull request), the evidence, and how
      many rerun requests get through before one fails. */
  datatype Input = Input(
    now: int, expected: Option<Sha>, live: Option<Sha>, evidence: Evidence, final: Option<Sha>,
    during: Option<Disturbance>, accepted: nat)

  datatype State = State(
    runs: map<Sha, seq<CiRun>>, head: Sha, open: bool, building: bool, milestone: M.Row, reruns: seq<string>)

  // ------------------------------------------------------------------ rows

  predicate Terminal(status: Status) { status in {Passed, Failed, Cancelled} }

  function Latest(runs: map<Sha, seq<CiRun>>, head: Sha): Option<CiRun> {
    if head in runs && runs[head] != [] then Some(runs[head][|runs[head]| - 1]) else None
  }

  /** Replace the newest row of a head, or start its first. */
  function Put(runs: map<Sha, seq<CiRun>>, head: Sha, run: CiRun): map<Sha, seq<CiRun>> {
    if Latest(runs, head).None? then runs[head := [run]]
    else runs[head := runs[head][..|runs[head]| - 1] + [run]]
  }

  function Append(runs: map<Sha, seq<CiRun>>, head: Sha, run: CiRun): map<Sha, seq<CiRun>> {
    runs[head := (if head in runs then runs[head] else []) + [run]]
  }

  predicate Infrastructure(classification: Option<Classification>) {
    classification in {Some(TransientInfrastructure), Some(ExternalDependency), Some(UnknownCause)}
  }

  predicate Retryable(run: CiRun) {
    run.status in {Failed, Cancelled} && (run.classification.None? || Infrastructure(run.classification))
  }

  predicate Undiagnosed(run: CiRun) {
    run.diagnosis !in {Some(MissingWorkflow), Some(NoApplicableRun), Some(NoRequiredChecks), Some(UnresolvedChecks)}
  }

  function MissingDiagnosis(o: Observation): Diagnosis {
    if o.checks != [] then UnresolvedChecks
    else if o.workflows != [] then NoRequiredChecks
    else if o.filesMissing then MissingWorkflow
    else NoApplicableRun
  }

  function StatusOf(o: Observation): Status {
    if o.checks == [] && o.workflows != [] && o.workflowStatus in {Some(Queued), Some(Running)}
    then o.workflowStatus.value else Evaluate(o.checks)
  }

  /** The row an observation leaves. */
  function ObservedRun(p: Policies, prior: Option<CiRun>, o: Observation, now: int): CiRun {
    var status := StatusOf(o);
    var classification := if status == Failed then Some(o.cause) else None;
    var started := if prior.Some? then prior.value.startedAt else now;
    var retries := if prior.Some? then prior.value.retryCount else 0;
    if status == Unknown then
      var since := if prior.Some? && prior.value.unknownSince.Some? then prior.value.unknownSince.value else now;
      var deadline := if prior.Some? && prior.value.unknownDeadline.Some? then prior.value.unknownDeadline.value
                      else DeadlineAt(p.missing, now);
      var before := if prior.Some? then prior.value.unknownCount else 0;
      var count := if before == 0 || prior.None? || prior.value.lastCheckedAt != now || Undiagnosed(prior.value)
                   then before + 1 else before;
      var next := if now < deadline && count < p.missing.maxObservations
                  then Some(Min(PollAt(p.polling, started, now), deadline)) else None;
      CiRun(status, classification, o.workflows, started, now, retries, next,
        Some(since), Some(deadline), count, Some(MissingDiagnosis(o)))
    else
      var next := if status in {Queued, Running} then Some(PollAt(p.polling, started, now))
                  else if status == Cancelled || (status == Failed && Infrastructure(classification))
                  then RetryAt(p.delays, retries, now) else None;
      CiRun(status, classification, o.workflows, started, now, retries, next, None, None, 0, None)
  }

  function FailureDiagnosis(failure: ProviderFailure): Diagnosis {
    match failure
    case Authentication => ProviderAuthentication
    case Rejection => ProviderRejection
    case Malformed => ProviderMalformed
    case Transient => ProviderUnavailable
  }

  /** The row a provider failure leaves; the same failure at the same moment counts once. */
  function FailureRun(p: Policies, prior: Option<CiRun>, failure: ProviderFailure, now: int): CiRun {
    var classification := Some(if failure == Transient then TransientInfrastructure else UnknownCause);
    var diagnosis := Some(FailureDiagnosis(failure));
    match prior
    case None =>
      CiRun(Unknown, classification, [], now, now, 1, RetryAt(p.delays, 0, now), None, None, 0, diagnosis)
    case Some(run) =>
      var again := run.lastCheckedAt == now && run.diagnosis == diagnosis;
      CiRun(Unknown, classification, [], run.startedAt, now,
        if again then run.retryCount else run.retryCount + 1,
        if again then run.nextCheckAt else RetryAt(p.delays, run.retryCount, now),
        run.unknownSince, run.unknownDeadline, run.unknownCount, diagnosis)
  }

  function EvidenceRun(p: Policies, prior: Option<CiRun>, evidence: Evidence, now: int): CiRun {
    match evidence
    case Saw(o) => ObservedRun(p, prior, o, now)
    case Broke(failure) => FailureRun(p, prior, failure, now)
  }

  // ------------------------------------------------------------------ one reconciliation

  predicate Guard(s: State) { s.building && s.milestone.state == M.CiRunning && s.open }

  function Disturbed(s: State, during: Option<Disturbance>): State {
    match during
    case None => s
    case Some(d) => s.(head := d.head, open := d.open, building := d.building, milestone := d.milestone)
  }

  /** The guarded transition out of CI_RUNNING. */
  function Moved(row: M.Row, target: M.State): M.Row {
    match M.Apply(row, M.CiRunning, target)
    case Success(moved) => moved
    case Failure(_) => row
  }

  /** Where conclusive evidence leads. */
  function Target(run: CiRun): Option<M.State> {
    if run.status == Passed then Some(M.ArchitectReview)
    else if run.status == Failed && run.classification in {Some(Implementation), Some(Test), Some(Configuration)}
    then Some(M.CiRework) else None
  }

  function Transited(row: M.Row, run: CiRun): M.Row {
    if Target(run).Some? then Moved(row, Target(run).value) else row
  }

  /** Nothing more is scheduled and nothing is decided: a human must look. */
  predicate Exhausted(run: CiRun, evidence: Evidence) {
    run.nextCheckAt.None? && (evidence.Broke? || run.status == Unknown || Retryable(run))
  }

  function Decided(row: M.Row, run: CiRun, evidence: Evidence): M.Row {
    if Exhausted(run, evidence) then Moved(row, M.Blocked)
    else if evidence.Broke? then row
    else Transited(row, run)
  }

  /** A rerun is recorded as a new queued attempt before any request goes out. */
  function Rerun(p: Policies, s: State, prior: CiRun, i: Input): State {
    if prior.workflows == [] then s.(milestone := Moved(s.milestone, M.Blocked))
    else
      s.(runs := Append(s.runs, s.head, CiRun(Queued, None, prior.workflows, i.now, i.now, prior.retryCount + 1,
                   Some(PollAt(p.polling, i.now, i.now)), None, None, 0, None)),
         reruns := s.reruns + prior.workflows[..if i.accepted < |prior.workflows| then i.accepted else |prior.workflows|])
  }

  /** Terminal evidence is reused, never observed again. */
  function Reused(p: Policies, s: State, prior: CiRun, i: Input): State {
    if Retryable(prior) && prior.nextCheckAt.None? then s.(milestone := Moved(s.milestone, M.Blocked))
    else
      var moved := s.(milestone := Transited(s.milestone, prior));
      if Retryable(prior) && prior.nextCheckAt.value <= i.now then Rerun(p, moved, prior, i) else moved
  }

  function Concluded(p: Policies, s: State, live: Sha, final: Sha, i: Input): State {
    var prior := Latest(s.runs, live);
    if prior.Some? && Terminal(prior.value.status) then
      if final != live then s.(head := final) else Reused(p, s, prior.value, i)
    else
      var run := EvidenceRun(p, prior, i.evidence, i.now);
      var saved := s.(runs := Put(s.runs, live, run));
      if final != live then saved.(head := final)
      else saved.(milestone := Decided(s.milestone, run, i.evidence))
  }

  /** The state one reconciliation leaves. */
  function After(p: Policies, s: State, i: Input): State {
    if !Guard(s) || i.live.None? || (i.expected.Some? && i.expected != i.live) then s
    else
      var adopted := s.(head := i.live.value);
      if i.final.None? then adopted
      else
        var disturbed := Disturbed(adopted, i.during);
        if !Guard(disturbed) || disturbed.head != i.live.value then disturbed
        else Concluded(p, disturbed, i.live.value, i.final.value, i)
  }

  // ------------------------------------------------------------------ the repository

  /** The row's grace period has both ends or neither, in order. */
  predicate GraceOk(run: CiRun) {
    && (run.unknownSince.Some? <==> run.unknownDeadline.Some?)
    && (run.unknownSince.Some? ==> run.unknownSince.value <= run.unknownDeadline.value)
  }

  ghost predicate RowsOk(runs: map<Sha, seq<CiRun>>) {
    forall head :: head in runs ==> forall run :: run in runs[head] ==> GraceOk(run)
  }

  /** What the repository refuses: a broken grace period, a moved one, a count that falls, or
      terminal evidence that regresses. */
  predicate Acceptable(prior: Option<CiRun>, run: CiRun) {
    && GraceOk(run)
    && (prior.Some? && prior.value.unknownSince.Some? && run.unknownSince.Some? ==>
         && run.unknownSince == prior.value.unknownSince && run.unknownDeadline == prior.value.unknownDeadline
         && run.unknownCount >= prior.value.unknownCount)
    && (prior.Some? && Terminal(prior.value.status) ==> run.status == prior.value.status)
  }

  /** The monitor never asks for anything the repository would refuse. */
  lemma EvidenceIsAcceptable(p: Policies, prior: Option<CiRun>, evidence: Evidence, now: int)
    requires p.missing.grace > 0
    requires prior.Some? ==> GraceOk(prior.value) && !Terminal(prior.value.status)
    ensures Acceptable(prior, EvidenceRun(p, prior, evidence, now))
  {
  }

  lemma PutKeepsRows(runs: map<Sha, seq<CiRun>>, head: Sha, run: CiRun)
    requires RowsOk(runs) && GraceOk(run)
    ensures RowsOk(Put(runs, head, run)) && RowsOk(Append(runs, head, run))
    ensures Latest(Put(runs, head, run), head) == Some(run) == Latest(Append(runs, head, run), head)
  {
  }

  class CiMonitor {
    const p: Policies
    var runs: map<Sha, seq<CiRun>>
    var head: Sha
    var open: bool
    var building: bool
    var milestone: M.Row
    var reruns: seq<string>

    ghost predicate Valid()
      reads this
    {
      p.missing.grace > 0 && RowsOk(runs)
    }

    function Snapshot(): State
      reads this
    {
      State(runs, head, open, building, milestone, reruns)
    }

    constructor (p: Policies, s: State)
      requires p.missing.grace > 0 && RowsOk(s.runs)
      ensures Valid() && Snapshot() == s && this.p == p
    {
      this.p, runs, head, open, building, milestone, reruns :=
        p, s.runs, s.head, s.open, s.building, s.milestone, s.reruns;
    }

    predicate Guarded()
      reads this
    {
      building && milestone.state == M.CiRunning && open
    }

    /** What others did while the provider was being asked. */
    method Resume(during: Option<Disturbance>)
      modifies this`head, this`open, this`building, this`milestone
      ensures Snapshot() == Disturbed(old(Snapshot()), during)
    {
      if during.Some? {
        head, open, building, milestone :=
          during.value.head, during.value.open, during.value.building, during.value.milestone;
      }
    }

    method ApplyTransition(target: M.State)
      modifies this`milestone
      ensures milestone == Moved(old(milestone), target)
    {
      var outcome := M.Apply(milestone, M.CiRunning, target);
      if outcome.Success? { milestone := outcome.value; }
    }

    method Transition(run: CiRun)
      modifies this`milestone
      ensures milestone == Transited(old(milestone), run)
    {
      if run.status == Passed {
        ApplyTransition(M.ArchitectReview);
      } else if run.status == Failed && run.classification in {Some(Implementation), Some(Test), Some(Configuration)} {
        ApplyTransition(M.CiRework);
      }
    }

    /** Write the newest row of a head; the repository's checks hold of it. */
    method Save(at: Sha, run: CiRun)
      requires Valid() && Acceptable(Latest(runs, at), run)
      modifies this`runs
      ensures Valid() && runs == Put(old(runs), at, run)
    {
      PutKeepsRows(runs, at, run);
      if Latest(runs, at).None? {
        runs := runs[at := [run]];
      } else {
        runs := runs[at := runs[at][..|runs[at]| - 1] + [run]];
      }
    }

    method Observe(prior: Option<CiRun>, o: Observation, now: int) returns (run: CiRun)
      ensures run == ObservedRun(p, prior, o, now)
    {
      var status := StatusOf(o);
      var classification := if status == Failed then Some(o.cause) else None;
      var started, retries := now, 0;
      if prior.Some? { started, retries := prior.value.startedAt, prior.value.retryCount; }
      var since, deadline, count, diagnosis, next := None, None, 0, None, None;
      if status == Unknown {
        since, deadline := Some(now), Some(DeadlineAt(p.missing, now));
        if prior.Some? && prior.value.unknownSince.Some? { since := prior.value.unknownSince; }
        if prior.Some? && prior.value.unknownDeadline.Some? { deadline := prior.value.unknownDeadline; }
        count := if prior.Some? then prior.value.unknownCount else 0;
        if count == 0 || prior.None? || prior.value.lastCheckedAt != now || Undiagnosed(prior.value) {
          count := count + 1;
        }
        diagnosis := Some(MissingDiagnosis(o));
        if now < deadline.value && count < p.missing.maxObservations {
          next := Some(Min(PollAt(p.polling, started, now), deadline.value));
        }
      } else if status == Queued || status == Running {
        next := Some(PollAt(p.polling, started, now));
      } else if status == Cancelled || (status == Failed && Infrastructure(classification)) {
        next := RetryAt(p.delays, retries, now);
      }
      run := CiRun(status, classification, o.workflows, started, now, retries, next, since, deadline, count, diagnosis);
    }

    method Fail(prior: Option<CiRun>, failure: ProviderFailure, now: int) returns (run: CiRun)
      ensures run == FailureRun(p, prior, failure, now)
    {
      var attempt := if prior.Some? then prior.value.retryCount + 1 else 1;
      var next := RetryAt(p.delays, attempt - 1, now);
      var classification := Some(if failure == Transient then TransientInfrastructure else UnknownCause);
      var diagnosis := Some(FailureDiagnosis(failure));
      var started, since, deadline, count := now, None, None, 0;
      if prior.Some? {
        var run := prior.value;
        started, since, deadline, count := run.startedAt, run.unknownSince, run.unknownDeadline, run.unknownCount;
        if run.lastCheckedAt == now && run.diagnosis == diagnosis {
          attempt, next := run.retryCount, run.nextCheckAt;
        }
      }
      run := CiRun(Unknown, classification, [], started, now, attempt, next, since, deadline, count, diagnosis);
    }

    /** A durable queued attempt first, then one request for each workflow run. */
    method StartRerun(prior: CiRun, i: Input)
      requires Valid() && Guarded()
      modifies this
      ensures Valid() && Snapshot() == Rerun(p, old(Snapshot()), prior, i)
    {
      if prior.workflows == [] {
        ApplyTransition(M.Blocked);
        return;
      }
      var queued := CiRun(Queued, None, prior.workflows, i.now, i.now, prior.retryCount + 1,
        Some(PollAt(p.polling, i.now, i.now)), None, None, 0, None);
      PutKeepsRows(runs, head, queued);
      runs := Append(runs, head, queued);
      var k := 0;
      while k < |prior.workflows| && k < i.accepted
        modifies this`reruns
        invariant 0 <= k <= |prior.workflows| && k <= i.accepted
        invariant reruns == old(reruns) + prior.workflows[..k]
      {
        reruns := reruns + [prior.workflows[k]];
        k := k + 1;
      }
    }

    /** A completed check is immutable evidence: act on it instead of looking again. */
    method Reuse(prior: CiRun, i: Input)
      requires Valid() && Guarded()
      modifies this
      ensures Valid() && Snapshot() == Reused(p, old(Snapshot()), prior, i)
    {
      if Retryable(prior) && prior.nextCheckAt.None? {
        ApplyTransition(M.Blocked);
        return;
      }
      Transition(prior);
      if Retryable(prior) && prior.nextCheckAt.value <= i.now { StartRerun(prior, i); }
    }

    /** Record new evidence and act on it, unless the head moved meanwhile. */
    method RecordEvidence(live: Sha, final: Sha, i: Input)
      requires Valid() && Guarded()
      requires Latest(runs, live).Some? ==> !Terminal(Latest(runs, live).value.status)
      modifies this
      ensures Valid() && Snapshot() == Concluded(p, old(Snapshot()), live, final, i)
    {
      var prior := Latest(runs, live);
      assert prior.Some? ==> GraceOk(prior.value);
      EvidenceIsAcceptable(p, prior, i.evidence, i.now);
      var run;
      match i.evidence {
        case Saw(o) => run := Observe(prior, o, i.now);
        case Broke(failure) => run := Fail(prior, failure, i.now);
      }
      Save(live, run);
      if final != live {
        head := final;
      } else if i.evidence.Broke? {
        if run.nextCheckAt.None? { ApplyTransition(M.Blocked); }
      } else if run.nextCheckAt.None? && (run.status == Unknown || Retryable(run)) {
        ApplyTransition(M.Blocked);
      } else {
        Transition(run);
      }
    }

    /** One reconciliation: the head is read before and after the evidence, and the guards hold
        again in the transaction that acts on it. */
    method Reconcile(i: Input)
      requires Valid()
      modifies this
      ensures Valid() && Snapshot() == After(p, old(Snapshot()), i)
    {
      if !Guarded() || i.live.None? || (i.expected.Some? && i.expected != i.live) { return; }
      var live := i.live.value;
      head := live;
      var prior := Latest(runs, live);
      if i.final.None? { return; }
      Resume(i.during);
      if !Guarded() || head != live { return; }
      if prior.Some? && Terminal(prior.value.status) {
        head := i.final.value;
        if head == live { Reuse(prior.value, i); }
      } else {
        RecordEvidence(live, i.final.value, i);
      }
    }
  }
}
