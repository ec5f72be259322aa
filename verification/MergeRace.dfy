/** Two live workers on one attempt can complete a milestone whose attempt never becomes
    MERGED: a concrete run of the merge protocol from any eligible state. */
module MergeRace {
  import opened Wrappers
  import M = MilestoneMachine
  import P = MergePolicy
  import opened MergeSaga
  import opened MergeTheorems

  /** A run from `start` to `end` by these actions. */
  ghost predicate Leads(start: World, acts: seq<Action>, end: World) {
    exists run :: IsRun(run, acts) && run[0] == start && run[|acts|] == end
  }

  lemma Stays(w: World)
    ensures Leads(w, [], w)
  {
    assert IsRun([w], []);
  }

  /** Extend a run by one step whose effect is known. */
  lemma Then(start: World, acts: seq<Action>, middle: World, act: Action, end: World)
    requires Leads(start, acts, middle) && Step(middle, act) == end
    ensures Leads(start, acts + [act], end)
  {
    var run :| IsRun(run, acts) && run[0] == start && run[|acts|] == middle;
    var longer, more := run + [end], acts + [act];
    forall i | 0 <= i < |more| ensures longer[i + 1] == Step(longer[i], more[i]) {
      if i < |acts| { assert run[i + 1] == Step(run[i], acts[i]); }
    }
    assert IsRun(longer, more);
  }

  /** Every guard of the evaluation and of the revalidation holds, and nothing has begun. */
  ghost predicate Eligible(w: World, r: P.Request, evaluation: P.Evaluation) {
    && Initial(w) && P.MayMerge(w.t, r, Get(w, r)) && P.GatesValidated(w.t, r.project, r.milestone)
    && evaluation.request == r && evaluation.eligible
  }

  function MilestoneAt(t: P.Tables, m: P.Id, row: M.Row): P.Tables
    requires m in t.milestones
  {
    t.(milestones := t.milestones[m := t.milestones[m].(row := row)])
  }

  /** The world just before the intent is committed, and just after. */
  function Fetched(w: World, r: P.Request): World { w.(workers := map[0 := PrepFetched(r, Get(w, r))]) }

  /** The world when its one attempt has got so far. */
  function Scene(w: World, r: P.Request, evaluation: P.Evaluation,
                 state: M.State, status: P.MergeStatus, started: bool, workers: map<WorkerId, Pc>): World
    requires r.milestone in w.t.milestones
  {
    w.(attempts := [P.AttemptOf(r, evaluation).(status := status, mutationStarted := started)],
       t := MilestoneAt(w.t, r.milestone, M.Row(state, None)), workers := workers)
  }

  function Intended(w: World, r: P.Request, evaluation: P.Evaluation): World
    requires r.milestone in w.t.milestones
  {
    Scene(w, r, evaluation, M.Merging, P.Requested, false, map[0 := Idle])
  }

  lemma EvaluateStep(w: World, r: P.Request, evaluation: P.Evaluation)
    requires Eligible(w, r, evaluation)
    ensures Step(w, Prepare(0, Evaluate(r))) == w.(workers := map[0 := PrepEvaluated(r)])
  {
    assert Goto(w, 0, PrepEvaluated(r)).workers == map[0 := PrepEvaluated(r)];
  }

  lemma FetchStep(w: World, r: P.Request)
    ensures Step(w.(workers := map[0 := PrepEvaluated(r)]), Prepare(0, Fetch(true))) == Fetched(w, r)
  {
  }

  lemma InsertStep(w: World, r: P.Request, evaluation: P.Evaluation)
    requires w.attempts == [] && P.AtMergeReady(w.t, r) && M.WellFormed(w.t.milestones[r.milestone].row)
    ensures InsertIntent(Fetched(w, r), r, evaluation) == Intended(w, r, evaluation).(workers := Fetched(w, r).workers)
  {
    assert w.attempts + [P.AttemptOf(r, evaluation)] == [P.AttemptOf(r, evaluation)];
    assert M.Apply(w.t.milestones[r.milestone].row, M.MergeReady, M.Merging) == Success(M.Row(M.Merging, None));
  }

  lemma CommitStep(w: World, r: P.Request, evaluation: P.Evaluation)
    requires P.MayMerge(w.t, r, Get(w, r)) && evaluation.request == r && evaluation.eligible
    ensures Step(Fetched(w, r), Prepare(0, CommitIntent(evaluation)))
         == Goto(InsertIntent(Fetched(w, r), r, evaluation), 0, Idle)
  {
  }

  lemma IntentStep(w: World, r: P.Request, evaluation: P.Evaluation)
    requires Eligible(w, r, evaluation)
    ensures Step(Fetched(w, r), Prepare(0, CommitIntent(evaluation))) == Intended(w, r, evaluation)
  {
    CommitStep(w, r, evaluation);
    InsertStep(w, r, evaluation);
    assert Fetched(w, r).workers[0 := Idle] == map[0 := Idle];
  }

  function Preparing(r: P.Request, evaluation: P.Evaluation): seq<Action> {
    [Prepare(0, Evaluate(r))] + [Prepare(0, Fetch(true))] + [Prepare(0, CommitIntent(evaluation))]
  }

  lemma PrepareStage(w: World, r: P.Request, evaluation: P.Evaluation)
    requires Eligible(w, r, evaluation)
    ensures Leads(w, Preparing(r, evaluation), Intended(w, r, evaluation))
  {
    EvaluateStep(w, r, evaluation);
    FetchStep(w, r);
    IntentStep(w, r, evaluation);
    var w1 := w.(workers := map[0 := PrepEvaluated(r)]);
    Stays(w);
    Then(w, [], w, Prepare(0, Evaluate(r)), w1);
    assert [] + [Prepare(0, Evaluate(r))] == [Prepare(0, Evaluate(r))];
    Then(w, [Prepare(0, Evaluate(r))], w1, Prepare(0, Fetch(true)), Fetched(w, r));
    Then(w, [Prepare(0, Evaluate(r))] + [Prepare(0, Fetch(true))], Fetched(w, r),
      Prepare(0, CommitIntent(evaluation)), Intended(w, r, evaluation));
  }

  /** What the later steps need of the eligible state. */
  predicate Mergeable(w: World, r: P.Request) {
    && r.milestone in w.t.milestones && r.pull in w.t.pulls
    && w.t.pulls[r.pull] == P.PullRequest(r.project, r.milestone, r.repository, r.number,
         w.t.pulls[r.pull].state, r.headBranch, r.baseBranch, r.head)
    && KeyOf(r) in w.provider
    && w.provider[KeyOf(r)] == P.Live(r.repositoryNumber, r.number, P.Open, r.headBranch, r.baseBranch, r.head)
    && w.sent == [] && w.inFlight == {}
  }

  lemma EligibleIsMergeable(w: World, r: P.Request, evaluation: P.Evaluation)
    requires Eligible(w, r, evaluation)
    ensures Mergeable(w, r)
  {
  }

  lemma EligibleIsExecutable(w: World, r: P.Request, evaluation: P.Evaluation)
    requires Eligible(w, r, evaluation)
    ensures var scene := Intended(w, r, evaluation);
      Executable(scene, 0) && P.ExecutionPolicy(scene.t, scene.attempts[0])
  {
    var scene := Intended(w, r, evaluation);
    P.ExecutionRefinesEvaluation(w.t, w.t, r, Get(w, r), evaluation);
    var a := P.AttemptOf(r, evaluation);
    assert P.ExecutionPolicy(w.t, a);
    forall f ensures P.Clear(scene.t, a, f) {
      assert P.Clear(w.t, a, f);
      ClearIgnoresMilestones(w.t, scene.t, a, f);
    }
  }

  lemma ClearIgnoresMilestones(t: P.Tables, u: P.Tables, a: P.Attempt, f: P.PolicyFailure)
    requires P.Joined(t, a) && P.Joined(u, a) && u == t.(milestones := u.milestones) && P.Clear(t, a, f)
    ensures P.Clear(u, a, f)
  {
  }

  lemma ReadStep(w: World, r: P.Request, evaluation: P.Evaluation)
    requires Eligible(w, r, evaluation)
    ensures Step(Intended(w, r, evaluation), Execute(0, ReadAttempt(0)))
         == Scene(w, r, evaluation, M.Merging, P.Requested, false, map[0 := ExecChecked(0)])
  {
    EligibleIsExecutable(w, r, evaluation);
    assert map[0 := Idle][0 := ExecChecked(0)] == map[0 := ExecChecked(0)];
  }

  lemma LookStep(w: World, r: P.Request, evaluation: P.Evaluation)
    requires Mergeable(w, r) && evaluation.request == r
    ensures Step(Scene(w, r, evaluation, M.Merging, P.Requested, false, map[0 := ExecChecked(0)]), Execute(0, ObserveFresh))
         == Scene(w, r, evaluation, M.Merging, P.Requested, false, map[0 := ExecSawOpen(0)])
  {
    assert map[0 := ExecChecked(0)][0 := ExecSawOpen(0)] == map[0 := ExecSawOpen(0)];
  }

  lemma MarkStep(w: World, r: P.Request, evaluation: P.Evaluation)
    requires Mergeable(w, r)
    ensures Step(Scene(w, r, evaluation, M.Merging, P.Requested, false, map[0 := ExecSawOpen(0)]), Execute(0, Mark))
         == Scene(w, r, evaluation, M.Merging, P.Requested, true, map[0 := Armed(0)])
  {
    assert map[0 := ExecSawOpen(0)][0 := Armed(0)] == map[0 := Armed(0)];
  }

  function OwnPut(r: P.Request): Put { Put(0, KeyOf(r), r.head) }

  function PutSent(w: World, r: P.Request): World { w.(sent := [OwnPut(r)], inFlight := {OwnPut(r)}) }

  function PutMerged(w: World, r: P.Request): World
    requires KeyOf(r) in w.provider
  {
    w.(sent := [OwnPut(r)], provider := w.provider[KeyOf(r) := w.provider[KeyOf(r)].(state := P.Merged)])
  }

  lemma SendStep(w: World, r: P.Request, evaluation: P.Evaluation)
    requires Mergeable(w, r) && evaluation.request == r
    ensures Step(Scene(w, r, evaluation, M.Merging, P.Requested, true, map[0 := Armed(0)]), Execute(0, SendPut))
         == Scene(PutSent(w, r), r, evaluation, M.Merging, P.Requested, true, map[0 := Awaiting(0)])
  {
    assert map[0 := Armed(0)][0 := Awaiting(0)] == map[0 := Awaiting(0)];
  }

  lemma EffectStep(w: World, r: P.Request, evaluation: P.Evaluation)
    requires Mergeable(w, r)
    ensures Step(Scene(PutSent(w, r), r, evaluation, M.Merging, P.Requested, true, map[0 := Awaiting(0)]),
                 Env(PutTakesEffect(OwnPut(r))))
         == Scene(PutMerged(w, r), r, evaluation, M.Merging, P.Requested, true, map[0 := Awaiting(0)])
  {
    assert {OwnPut(r)} - {OwnPut(r)} == {};
  }

  /** Worker 0's merge has happened, and it waits for the reply. */
  function Unanswered(w: World, r: P.Request, evaluation: P.Evaluation): World
    requires Mergeable(w, r)
  {
    Scene(PutMerged(w, r), r, evaluation, M.Merging, P.Requested, true, map[0 := Awaiting(0)])
  }

  function Mutating(r: P.Request, evaluation: P.Evaluation): seq<Action> {
    Preparing(r, evaluation) + [Execute(0, ReadAttempt(0))] + [Execute(0, ObserveFresh)] + [Execute(0, Mark)]
    + [Execute(0, SendPut)] + [Env(PutTakesEffect(OwnPut(r)))]
  }

  lemma MutateStage(w: World, r: P.Request, evaluation: P.Evaluation)
    requires Eligible(w, r, evaluation)
    ensures Mergeable(w, r) && Leads(w, Mutating(r, evaluation), Unanswered(w, r, evaluation))
  {
    EligibleIsMergeable(w, r, evaluation);
    PrepareStage(w, r, evaluation);
    ReadStep(w, r, evaluation);
    MutateFrom(w, r, evaluation);
  }

  lemma MutateFrom(w: World, r: P.Request, evaluation: P.Evaluation)
    requires Mergeable(w, r) && evaluation.request == r
    requires Leads(w, Preparing(r, evaluation), Intended(w, r, evaluation))
    requires Step(Intended(w, r, evaluation), Execute(0, ReadAttempt(0)))
          == Scene(w, r, evaluation, M.Merging, P.Requested, false, map[0 := ExecChecked(0)])
    ensures Leads(w, Mutating(r, evaluation), Unanswered(w, r, evaluation))
  {
    var s1 := Scene(w, r, evaluation, M.Merging, P.Requested, false, map[0 := ExecChecked(0)]);
    var s2 := Scene(w, r, evaluation, M.Merging, P.Requested, false, map[0 := ExecSawOpen(0)]);
    var s3 := Scene(w, r, evaluation, M.Merging, P.Requested, true, map[0 := Armed(0)]);
    var s4 := Scene(PutSent(w, r), r, evaluation, M.Merging, P.Requested, true, map[0 := Awaiting(0)]);
    LookStep(w, r, evaluation);
    MarkStep(w, r, evaluation);
    SendStep(w, r, evaluation);
    EffectStep(w, r, evaluation);
    var a0 := Preparing(r, evaluation);
    Then(w, a0, Intended(w, r, evaluation), Execute(0, ReadAttempt(0)), s1);
    var a1 := a0 + [Execute(0, ReadAttempt(0))];
    Then(w, a1, s1, Execute(0, ObserveFresh), s2);
    var a2 := a1 + [Execute(0, ObserveFresh)];
    Then(w, a2, s2, Execute(0, Mark), s3);
    var a3 := a2 + [Execute(0, Mark)];
    Then(w, a3, s3, Execute(0, SendPut), s4);
    var a4 := a3 + [Execute(0, SendPut)];
    Then(w, a4, s4, Env(PutTakesEffect(OwnPut(r))), Unanswered(w, r, evaluation));
  }

  /** After the merge took effect. */
  function Late(w: World, r: P.Request, evaluation: P.Evaluation,
                state: M.State, status: P.MergeStatus, workers: map<WorkerId, Pc>): World
    requires Mergeable(w, r)
  {
    Scene(PutMerged(w, r), r, evaluation, state, status, true, workers)
  }

  lemma LateObservesMerged(w: World, r: P.Request, evaluation: P.Evaluation,
                           state: M.State, status: P.MergeStatus, workers: map<WorkerId, Pc>)
    requires Mergeable(w, r) && evaluation.request == r
    ensures var late := Late(w, r, evaluation, state, status, workers);
      Observed(late, 0, P.Merged) && InState(late, 0, state) && SaveAccepted(late, 0)
  {
  }

  const GAVE_UP: Pc := Replied(0, P.Unknown)

  lemma GiveUpStep(w: World, r: P.Request, evaluation: P.Evaluation)
    requires Mergeable(w, r)
    ensures Step(Unanswered(w, r, evaluation), Execute(0, Reconcile(false)))
         == Late(w, r, evaluation, M.Merging, P.Requested, map[0 := GAVE_UP])
  {
    assert map[0 := Awaiting(0)][0 := GAVE_UP] == map[0 := GAVE_UP];
  }

  lemma BeginRecoverStep(w: World, r: P.Request, evaluation: P.Evaluation)
    requires Mergeable(w, r)
    ensures Step(Late(w, r, evaluation, M.Merging, P.Requested, map[0 := GAVE_UP]), Recover(1, BeginRecover(0)))
         == Late(w, r, evaluation, M.Merging, P.Requested, map[0 := GAVE_UP, 1 := RecoverRead(0, M.Merging)])
  {
  }

  lemma ObserveOnceStep(w: World, r: P.Request, evaluation: P.Evaluation)
    requires Mergeable(w, r) && evaluation.request == r
    ensures Step(Late(w, r, evaluation, M.Merging, P.Requested, map[0 := GAVE_UP, 1 := RecoverRead(0, M.Merging)]),
                 Recover(1, ObserveOnce))
         == Late(w, r, evaluation, M.Merging, P.Requested, map[0 := GAVE_UP, 1 := RecoverSaw(0, M.Merging)])
  {
    LateObservesMerged(w, r, evaluation, M.Merging, P.Requested, map[0 := GAVE_UP, 1 := RecoverRead(0, M.Merging)]);
    assert map[0 := GAVE_UP, 1 := RecoverRead(0, M.Merging)][1 := RecoverSaw(0, M.Merging)]
      == map[0 := GAVE_UP, 1 := RecoverSaw(0, M.Merging)];
  }

  lemma AdvanceStep(w: World, r: P.Request, evaluation: P.Evaluation)
    requires Mergeable(w, r)
    ensures Step(Late(w, r, evaluation, M.Merging, P.Requested, map[0 := GAVE_UP, 1 := RecoverSaw(0, M.Merging)]),
                 Recover(1, Advance))
         == Late(w, r, evaluation, M.MergeVerify, P.Requested, map[0 := GAVE_UP, 1 := RecoverAgain(0)])
  {
    var before := Late(w, r, evaluation, M.Merging, P.Requested, map[0 := GAVE_UP, 1 := RecoverSaw(0, M.Merging)]);
    assert M.Apply(before.t.milestones[r.milestone].row, M.Merging, M.MergeVerify) == Success(M.Row(M.MergeVerify, None));
    assert before.workers[1 := RecoverAgain(0)] == map[0 := GAVE_UP, 1 := RecoverAgain(0)];
  }

  lemma BeginVerifyStep(w: World, r: P.Request, evaluation: P.Evaluation, id: WorkerId, workers: map<WorkerId, Pc>)
    requires Mergeable(w, r) && (id in workers ==> workers[id] == Idle)
    ensures Step(Late(w, r, evaluation, M.MergeVerify, P.Requested, workers), Verify(id, BeginVerify(0)))
         == Late(w, r, evaluation, M.MergeVerify, P.Requested, workers[id := VerifyRead(0)])
  {
  }

  lemma ObserveMergedStep(w: World, r: P.Request, evaluation: P.Evaluation, id: WorkerId, workers: map<WorkerId, Pc>)
    requires Mergeable(w, r) && evaluation.request == r && id in workers && workers[id] == VerifyRead(0)
    ensures Step(Late(w, r, evaluation, M.MergeVerify, P.Requested, workers), Verify(id, ObserveMerged))
         == Late(w, r, evaluation, M.MergeVerify, P.Requested, workers[id := VerifySaw(0)])
  {
    LateObservesMerged(w, r, evaluation, M.MergeVerify, P.Requested, workers);
  }

  lemma FinishUnknownStep(w: World, r: P.Request, evaluation: P.Evaluation, workers: map<WorkerId, Pc>)
    requires Mergeable(w, r) && 0 in workers && workers[0] == GAVE_UP
    ensures Step(Late(w, r, evaluation, M.MergeVerify, P.Requested, workers), Execute(0, Finish))
         == Late(w, r, evaluation, M.MergeVerify, P.Unknown, workers[0 := Idle])
  {
  }

  lemma CommitVerifiedStep(w: World, r: P.Request, evaluation: P.Evaluation,
                           status: P.MergeStatus, id: WorkerId, workers: map<WorkerId, Pc>)
    requires Mergeable(w, r) && evaluation.request == r && id in workers && workers[id] == VerifySaw(0)
    ensures var end := Step(Late(w, r, evaluation, M.MergeVerify, status, workers), Verify(id, CommitVerified));
      && InState(end, 0, M.Complete)
      && end.attempts[0].status == (if status == P.Requested then P.MergedStatus else status)
  {
    var late := Late(w, r, evaluation, M.MergeVerify, status, workers);
    LateObservesMerged(w, r, evaluation, M.MergeVerify, status, workers);
    CommitVerifiedCompletes(late, id);
  }

  lemma CommitVerifiedCompletes(w: World, id: WorkerId)
    requires |w.attempts| == 1 && PcOf(w, id) == VerifySaw(0) && SaveAccepted(w, 0) && InState(w, 0, M.MergeVerify)
    ensures var end := Step(w, Verify(id, CommitVerified));
      && InState(end, 0, M.Complete)
      && end.attempts[0].status == (if w.attempts[0].status == P.Requested then P.MergedStatus else w.attempts[0].status)
  {
    var completed := Completed(w, 0, {P.Requested});
    CompletedIs(w, 0, {P.Requested});
    assert InState(completed, 0, M.Complete);
    assert StepVerify(w, id, VerifySaw(0), CommitVerified) == Goto(completed, id, Idle);
  }

  lemma CrashStep(w: World, r: P.Request, evaluation: P.Evaluation)
    requires Mergeable(w, r)
    ensures Step(Late(w, r, evaluation, M.MergeVerify, P.Requested, map[0 := GAVE_UP, 1 := RecoverAgain(0)]), Env(Crash(1)))
         == Late(w, r, evaluation, M.MergeVerify, P.Requested, STRANDED)
  {
    assert map[0 := GAVE_UP, 1 := RecoverAgain(0)] - {1} == map[0 := GAVE_UP];
  }

  /** Worker 1's recovery is gone, and worker 0 has still to write down what it concluded. */
  const STRANDED: map<WorkerId, Pc> := map[0 := GAVE_UP]
  const RACING: map<WorkerId, Pc> := STRANDED[1 := VerifyRead(0)][1 := VerifySaw(0)][0 := Idle]

  function Recovering(r: P.Request, evaluation: P.Evaluation): seq<Action> {
    Mutating(r, evaluation) + [Execute(0, Reconcile(false))] + [Recover(1, BeginRecover(0))]
    + [Recover(1, ObserveOnce)] + [Recover(1, Advance)] + [Env(Crash(1))]
  }

  function Racing(r: P.Request, evaluation: P.Evaluation): seq<Action> {
    Recovering(r, evaluation) + [Verify(1, BeginVerify(0))] + [Verify(1, ObserveMerged)] + [Execute(0, Finish)]
  }

  lemma RecoverStage(w: World, r: P.Request, evaluation: P.Evaluation)
    requires Mergeable(w, r) && evaluation.request == r
    requires Leads(w, Mutating(r, evaluation), Unanswered(w, r, evaluation))
    ensures Leads(w, Recovering(r, evaluation), Late(w, r, evaluation, M.MergeVerify, P.Requested, STRANDED))
  {
    var s1 := Late(w, r, evaluation, M.Merging, P.Requested, map[0 := GAVE_UP]);
    var s2 := Late(w, r, evaluation, M.Merging, P.Requested, map[0 := GAVE_UP, 1 := RecoverRead(0, M.Merging)]);
    var s3 := Late(w, r, evaluation, M.Merging, P.Requested, map[0 := GAVE_UP, 1 := RecoverSaw(0, M.Merging)]);
    GiveUpStep(w, r, evaluation);
    BeginRecoverStep(w, r, evaluation);
    ObserveOnceStep(w, r, evaluation);
    AdvanceStep(w, r, evaluation);
    CrashStep(w, r, evaluation);
    var s4 := Late(w, r, evaluation, M.MergeVerify, P.Requested, map[0 := GAVE_UP, 1 := RecoverAgain(0)]);
    var a0 := Mutating(r, evaluation);
    Then(w, a0, Unanswered(w, r, evaluation), Execute(0, Reconcile(false)), s1);
    var a1 := a0 + [Execute(0, Reconcile(false))];
    Then(w, a1, s1, Recover(1, BeginRecover(0)), s2);
    var a2 := a1 + [Recover(1, BeginRecover(0))];
    Then(w, a2, s2, Recover(1, ObserveOnce), s3);
    var a3 := a2 + [Recover(1, ObserveOnce)];
    Then(w, a3, s3, Recover(1, Advance), s4);
    Then(w, a3 + [Recover(1, Advance)], s4, Env(Crash(1)), Late(w, r, evaluation, M.MergeVerify, P.Requested, STRANDED));
  }

  lemma RaceStage(w: World, r: P.Request, evaluation: P.Evaluation)
    requires Mergeable(w, r) && evaluation.request == r
    requires Leads(w, Recovering(r, evaluation), Late(w, r, evaluation, M.MergeVerify, P.Requested, STRANDED))
    ensures Leads(w, Racing(r, evaluation), Late(w, r, evaluation, M.MergeVerify, P.Unknown, RACING))
  {
    var one := STRANDED[1 := VerifyRead(0)];
    var two := one[1 := VerifySaw(0)];
    BeginVerifyStep(w, r, evaluation, 1, STRANDED);
    ObserveMergedStep(w, r, evaluation, 1, one);
    FinishUnknownStep(w, r, evaluation, two);
    var s0 := Late(w, r, evaluation, M.MergeVerify, P.Requested, STRANDED);
    var s1 := Late(w, r, evaluation, M.MergeVerify, P.Requested, one);
    var s2 := Late(w, r, evaluation, M.MergeVerify, P.Requested, two);
    var a0 := Recovering(r, evaluation);
    Then(w, a0, s0, Verify(1, BeginVerify(0)), s1);
    var a1 := a0 + [Verify(1, BeginVerify(0))];
    Then(w, a1, s1, Verify(1, ObserveMerged), s2);
    Then(w, a1 + [Verify(1, ObserveMerged)], s2, Execute(0, Finish),
      Late(w, r, evaluation, M.MergeVerify, P.Unknown, RACING));
  }

  function SpoilingRun(r: P.Request, evaluation: P.Evaluation): seq<Action> {
    Racing(r, evaluation) + [Verify(1, CommitVerified)]
  }

  /** The actions of these workers only, besides the world's own. */
  ghost predicate OnlyWorkers(acts: seq<Action>, ids: set<WorkerId>) {
    forall act :: act in acts && !act.Env? ==> act.id in ids
  }

  lemma RunIsOfTwo(r: P.Request, evaluation: P.Evaluation)
    ensures OnlyWorkers(SpoilingRun(r, evaluation), {0, 1})
  {
  }

  /** Without that discipline the agreement fails from every eligible state, and two workers
      are enough: worker 0 gets no reply to a merge that happened; worker 1 recovers it as far
      as MERGE_VERIFY and vanishes; started again, it begins to verify while the attempt is
      still open; worker 0 then gives the attempt up; and worker 1 completes the milestone of
      an attempt that stays UNKNOWN for good. */
  lemma TwoWorkersCanDisagree(w: World, r: P.Request, evaluation: P.Evaluation) returns (end: World)
    requires Eligible(w, r, evaluation)
    ensures Leads(w, SpoilingRun(r, evaluation), end) && OnlyWorkers(SpoilingRun(r, evaluation), {0, 1})
    ensures InState(end, 0, M.Complete) && end.attempts[0].status == P.Unknown && !Exact(end)
  {
    RunIsOfTwo(r, evaluation);
    MutateStage(w, r, evaluation);
    RecoverStage(w, r, evaluation);
    RaceStage(w, r, evaluation);
    var late := Late(w, r, evaluation, M.MergeVerify, P.Unknown, RACING);
    end := Step(late, Verify(1, CommitVerified));
    CommitVerifiedStep(w, r, evaluation, P.Unknown, 1, RACING);
    Then(w, Racing(r, evaluation), late, Verify(1, CommitVerified), end);
  }
}
