/** What must have been true earlier for an attempt to exist and for its PUT to be sent. */
module MergeHistory {
  import opened Wrappers
  import M = MilestoneMachine
  import P = MergePolicy
  import opened MergeSaga
  import opened MergeSafety

  /** Revalidation passes here: MERGING, open, unmarked and every policy clear. */
  ghost predicate Passes(w: World, a: nat) {
    Executable(w, a) && P.ExecutionPolicy(w.t, w.attempts[a])
  }

  ghost predicate PassedBy(run: seq<World>, n: nat, a: nat) {
    exists j | 0 <= j <= n && j < |run| :: Passes(run[j], a)
  }

  /** Revalidation passed, and not earlier the provider showed the attempt's pull request open
      at the attempt's head. */
  ghost predicate PassedThenOpenBy(run: seq<World>, n: nat, a: nat) {
    exists j, k | 0 <= j <= k <= n && k < |run| :: Passes(run[j], a) && Observed(run[k], a, P.Open)
  }

  ghost predicate AnsweredBy(run: seq<World>, n: nat, r: P.Request, live: Option<P.Live>) {
    exists j | 0 <= j <= n && j < |run| :: Get(run[j], r) == live
  }

  /** Every guard held at some moment, with an answer the provider gave no later. */
  ghost predicate EligibleBy(run: seq<World>, n: nat, r: P.Request) {
    exists k | 0 <= k <= n && k < |run| :: EligibleAt(run, k, r)
  }

  ghost predicate EligibleAt(run: seq<World>, k: nat, r: P.Request)
    requires k < |run|
  {
    exists live :: AnsweredBy(run, k, r, live) && P.MayMerge(run[k].t, r, live)
  }

  // ------------------------------------------------------------------ how workers get there

  /** Each place on the way to the PUT is entered only from the one before, on its condition. */
  ghost predicate Entered(before: World, after: World, old': Pc, new': Pc) {
    match new'
    case ExecChecked(a) => Executable(before, a) && P.ExecutionPolicy(before.t, before.attempts[a])
    case ExecSawOpen(a) => old' == ExecChecked(a) && Observed(before, a, P.Open)
    case Armed(a) => old' == ExecSawOpen(a)
    case PrepFetched(r, live) => live == Get(before, r)
    case _ => true
  }

  ghost predicate Progresses(before: World, after: World) {
    forall id :: id in after.workers ==>
      PcOf(before, id) == after.workers[id] || Entered(before, after, PcOf(before, id), after.workers[id])
  }

  lemma EnvProgresses(w: World, act: EnvAction)
    ensures Progresses(w, StepEnv(w, act)) && StepEnv(w, act).sent == w.sent
  {
  }

  lemma PrepareProgresses(w: World, id: WorkerId, act: PrepareAction)
    ensures Progresses(w, StepPrepare(w, id, PcOf(w, id), act)) && StepPrepare(w, id, PcOf(w, id), act).sent == w.sent
  {
  }

  /** Recording an outcome moves no worker. */
  lemma RecordingMovesNobody(w: World, a: nat)
    requires a < |w.attempts|
    ensures forall status :: Reported(w, a, status).workers == w.workers
    ensures forall from :: Completed(w, a, from).workers == w.workers && Completed(w, a, from).sent == w.sent
  {
  }

  lemma ExecuteProgresses(w: World, id: WorkerId, act: ExecuteAction)
    ensures Progresses(w, StepExecute(w, id, PcOf(w, id), act))
  {
    hide Reported;
    var pc := PcOf(w, id);
    if (pc.ExecRejecting? || pc.ExecSawMerged? || pc.Replied?) && pc.a < |w.attempts| {
      RecordingMovesNobody(w, pc.a);
    }
  }

  lemma VerifyProgresses(w: World, id: WorkerId, act: VerifyAction)
    ensures Progresses(w, StepVerify(w, id, PcOf(w, id), act)) && StepVerify(w, id, PcOf(w, id), act).sent == w.sent
  {
    hide Completed;
    if PcOf(w, id).VerifySaw? && PcOf(w, id).a < |w.attempts| { RecordingMovesNobody(w, PcOf(w, id).a); }
  }

  lemma RecoverProgresses(w: World, id: WorkerId, act: RecoverAction)
    ensures Progresses(w, StepRecover(w, id, PcOf(w, id), act)) && StepRecover(w, id, PcOf(w, id), act).sent == w.sent
  {
    hide Completed;
    if PcOf(w, id).RecoverConfirmed? && PcOf(w, id).a < |w.attempts| { RecordingMovesNobody(w, PcOf(w, id).a); }
  }

  lemma StepProgresses(w: World, act: Action)
    ensures Progresses(w, Step(w, act))
  {
    match act
    case Env(env) => EnvProgresses(w, env);
    case Prepare(id, prepare) => PrepareProgresses(w, id, prepare);
    case Execute(id, execute) => ExecuteProgresses(w, id, execute);
    case Verify(id, verify) => VerifyProgresses(w, id, verify);
    case Recover(id, recover) => RecoverProgresses(w, id, recover);
  }

  predicate ArmedWorker(w: World, id: WorkerId, a: nat) { PcOf(w, id) == Armed(a) }

  /** A PUT leaves only from an armed worker. */
  ghost predicate SendsArmed(before: World, after: World) {
    forall put :: put in after.sent ==> put in before.sent || exists id :: ArmedWorker(before, id, put.attempt)
  }

  lemma StepSendsArmed(w: World, act: Action)
    ensures SendsArmed(w, Step(w, act))
  {
    match act
    case Env(env) => EnvProgresses(w, env);
    case Prepare(id, prepare) => PrepareProgresses(w, id, prepare);
    case Execute(id, execute) => ExecuteSends(w, id, execute);
    case Verify(id, verify) => VerifyProgresses(w, id, verify);
    case Recover(id, recover) => RecoverProgresses(w, id, recover);
  }

  lemma ExecuteSends(w: World, id: WorkerId, act: ExecuteAction)
    ensures SendsArmed(w, StepExecute(w, id, PcOf(w, id), act))
  {
    var pc := PcOf(w, id);
    if act.SendPut? && pc.Armed? && pc.a < |w.attempts| {
      assert ArmedWorker(w, id, pc.a);
    } else {
      assert StepExecute(w, id, pc, act).sent == w.sent;
    }
  }

  predicate FetchedWorker(w: World, id: WorkerId, r: P.Request, live: Option<P.Live>) {
    PcOf(w, id) == PrepFetched(r, live)
  }

  /** An attempt is inserted only by a worker that holds a provider answer, and only while
      that answer and the tables together allow the merge. */
  ghost predicate InsertsEligible(before: World, after: World) {
    |after.attempts| > |before.attempts| ==>
      exists id, live :: FetchedWorker(before, id, after.attempts[|before.attempts|].evaluation.request, live)
        && P.MayMerge(before.t, after.attempts[|before.attempts|].evaluation.request, live)
  }

  lemma StepInsertsEligible(w: World, act: Action)
    ensures InsertsEligible(w, Step(w, act))
  {
    if act.Prepare? {
      PrepareInserts(w, act.id, PcOf(w, act.id), act.prepare);
    } else {
      OthersAddNothing(w, act);
    }
  }

  lemma PrepareInserts(w: World, id: WorkerId, pc: Pc, act: PrepareAction)
    requires pc == PcOf(w, id)
    ensures InsertsEligible(w, StepPrepare(w, id, pc, act))
  {
    var after := StepPrepare(w, id, pc, act);
    if |after.attempts| > |w.attempts| {
      assert pc.PrepFetched? && act.CommitIntent?;
      assert FetchedWorker(w, id, pc.r, pc.live);
      assert after.attempts[|w.attempts|].evaluation.request == pc.r;
    }
  }

  // ------------------------------------------------------------------ the past of every reachable state

  ghost predicate PcHistory(run: seq<World>, n: nat, pc: Pc) {
    match pc
    case ExecChecked(a) => PassedBy(run, n, a)
    case ExecSawOpen(a) => PassedThenOpenBy(run, n, a)
    case Armed(a) => PassedThenOpenBy(run, n, a)
    case PrepFetched(r, live) => AnsweredBy(run, n, r, live)
    case _ => true
  }

  ghost predicate WorkersHistory(run: seq<World>, n: nat)
    requires n < |run|
  {
    forall id :: id in run[n].workers ==> PcHistory(run, n, run[n].workers[id])
  }

  ghost predicate SentHistory(run: seq<World>, n: nat)
    requires n < |run|
  {
    forall put :: put in run[n].sent ==> PassedThenOpenBy(run, n, put.attempt)
  }

  ghost predicate AttemptsHistory(run: seq<World>, n: nat)
    requires n < |run|
  {
    forall i :: 0 <= i < |run[n].attempts| ==> EligibleBy(run, n, run[n].attempts[i].evaluation.request)
  }

  lemma PcHistoryStays(run: seq<World>, n: nat, pc: Pc)
    requires n + 1 < |run| && PcHistory(run, n, pc)
    ensures PcHistory(run, n + 1, pc)
  {
  }

  lemma EnteredHasHistory(run: seq<World>, n: nat, old': Pc, new': Pc)
    requires n + 1 < |run| && Entered(run[n], run[n + 1], old', new') && PcHistory(run, n, old')
    ensures PcHistory(run, n + 1, new')
  {
    PcHistoryStays(run, n, old');
    match new'
    case ExecChecked(a) => assert Passes(run[n], a);
    case ExecSawOpen(a) =>
      var j :| 0 <= j <= n && Passes(run[j], a);
      assert Passes(run[j], a) && Observed(run[n], a, P.Open);
    case Armed(a) =>
    case PrepFetched(r, live) => assert Get(run[n], r) == live;
    case _ =>
  }

  lemma WorkersHistoryStep(run: seq<World>, n: nat)
    requires n + 1 < |run| && WorkersHistory(run, n) && Progresses(run[n], run[n + 1])
    ensures WorkersHistory(run, n + 1)
  {
    var next := run[n + 1];
    forall id | id in next.workers ensures PcHistory(run, n + 1, next.workers[id]) {
      var old' := PcOf(run[n], id);
      assert PcHistory(run, n, old');
      if old' == next.workers[id] {
        PcHistoryStays(run, n, old');
      } else {
        EnteredHasHistory(run, n, old', next.workers[id]);
      }
    }
  }

  lemma ArmedHasPassed(run: seq<World>, n: nat, id: WorkerId, a: nat)
    requires n + 1 < |run| && WorkersHistory(run, n) && ArmedWorker(run[n], id, a)
    ensures PassedThenOpenBy(run, n + 1, a)
  {
    assert PcHistory(run, n, run[n].workers[id]);
    PcHistoryStays(run, n, run[n].workers[id]);
  }

  lemma SentHistoryStep(run: seq<World>, n: nat)
    requires n + 1 < |run| && WorkersHistory(run, n) && SentHistory(run, n) && SendsArmed(run[n], run[n + 1])
    ensures SentHistory(run, n + 1)
  {
    forall put | put in run[n + 1].sent ensures PassedThenOpenBy(run, n + 1, put.attempt) {
      if put in run[n].sent {
        PcHistoryStays(run, n, Armed(put.attempt));
      } else {
        var id :| ArmedWorker(run[n], id, put.attempt);
        ArmedHasPassed(run, n, id, put.attempt);
      }
    }
  }

  lemma AnswerIsKept(run: seq<World>, n: nat, id: WorkerId, r: P.Request, live: Option<P.Live>)
    requires n < |run| && WorkersHistory(run, n) && FetchedWorker(run[n], id, r, live)
    ensures AnsweredBy(run, n, r, live)
  {
    assert PcHistory(run, n, run[n].workers[id]);
  }

  lemma InsertedWasEligible(run: seq<World>, n: nat)
    requires n + 1 < |run| && WorkersHistory(run, n) && InsertsEligible(run[n], run[n + 1])
    requires |run[n + 1].attempts| > |run[n].attempts|
    ensures EligibleBy(run, n + 1, run[n + 1].attempts[|run[n].attempts|].evaluation.request)
  {
    var r := run[n + 1].attempts[|run[n].attempts|].evaluation.request;
    var id, live :| FetchedWorker(run[n], id, r, live) && P.MayMerge(run[n].t, r, live);
    AnswerIsKept(run, n, id, r, live);
    assert EligibleAt(run, n, r);
  }

  /** Requests never change and at most one is added. */
  ghost predicate RequestsStay(before: World, after: World) {
    && |before.attempts| <= |after.attempts| <= |before.attempts| + 1
    && forall i :: 0 <= i < |before.attempts| ==>
         after.attempts[i].evaluation.request == before.attempts[i].evaluation.request
  }

  lemma StepRequestsStay(w: World, act: Action)
    ensures RequestsStay(w, Step(w, act))
  {
    StepGrows(w, act);
    StepAdds(w, act);
    GrowingRequestsStay(w, Step(w, act));
  }

  lemma GrowingRequestsStay(before: World, after: World)
    requires Grows(before, after) && |after.attempts| <= |before.attempts| + 1
    ensures RequestsStay(before, after)
  {
    forall i | 0 <= i < |before.attempts|
      ensures after.attempts[i].evaluation.request == before.attempts[i].evaluation.request
    {
      assert SameAttempt(before.attempts[i], after.attempts[i]);
    }
  }

  lemma AttemptsHistoryStep(run: seq<World>, n: nat)
    requires n + 1 < |run| && WorkersHistory(run, n) && AttemptsHistory(run, n)
    requires RequestsStay(run[n], run[n + 1]) && InsertsEligible(run[n], run[n + 1])
    ensures AttemptsHistory(run, n + 1)
  {
    if |run[n + 1].attempts| > |run[n].attempts| { InsertedWasEligible(run, n); }
    var now, next := run[n], run[n + 1];
    forall i | 0 <= i < |next.attempts| ensures EligibleBy(run, n + 1, next.attempts[i].evaluation.request) {
      if i < |now.attempts| {
        var k :| 0 <= k <= n && EligibleAt(run, k, now.attempts[i].evaluation.request);
        assert EligibleAt(run, k, next.attempts[i].evaluation.request);
      }
    }
  }

  lemma {:induction false} HasHistory(run: seq<World>, acts: seq<Action>, n: nat)
    requires IsRun(run, acts) && Initial(run[0]) && n < |run|
    ensures WorkersHistory(run, n) && SentHistory(run, n) && AttemptsHistory(run, n)
  {
    if n > 0 {
      HasHistory(run, acts, n - 1);
      StepProgresses(run[n - 1], acts[n - 1]);
      StepSendsArmed(run[n - 1], acts[n - 1]);
      StepRequestsStay(run[n - 1], acts[n - 1]);
      StepInsertsEligible(run[n - 1], acts[n - 1]);
      assert run[n - 1 + 1] == Step(run[n - 1], acts[n - 1]);
      HistoryStep(run, n - 1);
    }
  }

  lemma HistoryStep(run: seq<World>, n: nat)
    requires n + 1 < |run| && WorkersHistory(run, n) && SentHistory(run, n) && AttemptsHistory(run, n)
    requires Progresses(run[n], run[n + 1]) && SendsArmed(run[n], run[n + 1])
    requires RequestsStay(run[n], run[n + 1]) && InsertsEligible(run[n], run[n + 1])
    ensures WorkersHistory(run, n + 1) && SentHistory(run, n + 1) && AttemptsHistory(run, n + 1)
  {
    WorkersHistoryStep(run, n);
    SentHistoryStep(run, n);
    AttemptsHistoryStep(run, n);
  }

  /** No PUT without fresh proof: for every PUT sent so far, every execution policy was clear at
      some earlier moment of the run while the attempt was unmarked, and then the provider
      showed that pull request open at the attempt's head. */
  lemma PutsWereRevalidated(run: seq<World>, acts: seq<Action>, n: nat)
    requires IsRun(run, acts) && Initial(run[0]) && n < |run|
    ensures forall put :: put in run[n].sent ==> PassedThenOpenBy(run, n, put.attempt)
  {
    HasHistory(run, acts, n);
  }

  /** No attempt without eligibility: every attempt's request once satisfied every guard. */
  lemma AttemptsWereEligible(run: seq<World>, acts: seq<Action>, n: nat)
    requires IsRun(run, acts) && Initial(run[0]) && n < |run|
    ensures forall attempt :: attempt in run[n].attempts ==> EligibleBy(run, n, attempt.evaluation.request)
  {
    HasHistory(run, acts, n);
  }
}
