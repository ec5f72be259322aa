/** With one live worker per attempt COMPLETE and MERGED always agree. */
module MergeSerial {
  import opened Wrappers
  import M = MilestoneMachine
  import P = MergePolicy
  import opened MergeSaga
  import opened MergeSafety
  import opened MergeTheorems

  function Target(pc: Pc): Option<nat> {
    if pc.Idle? || pc.PrepEvaluated? || pc.PrepFetched? then None else Some(pc.a)
  }

  /** No two live workers handle the same attempt. */
  ghost predicate Serial(w: World) {
    forall id, other :: id in w.workers && other in w.workers && id != other && Target(w.workers[id]).Some? ==>
      Target(w.workers[id]) != Target(w.workers[other])
  }

  predicate Verifying(pc: Pc) { pc.VerifyRead? || pc.VerifySaw? }

  predicate Open(w: World, a: nat) { a < |w.attempts| && w.attempts[a].status == P.Requested }

  ghost predicate VerifiersOpen(w: World) {
    forall id :: id in w.workers && Verifying(w.workers[id]) ==> Open(w, w.workers[id].a)
  }

  /** An attempt's status changes only under the worker that handles it, which is then done. */
  ghost predicate OnlyTarget(before: World, after: World, id: WorkerId, pc: Pc) {
    && |before.attempts| <= |after.attempts|
    && forall i :: 0 <= i < |before.attempts| && after.attempts[i].status != before.attempts[i].status ==>
         Target(pc) == Some(i) && id in after.workers && after.workers[id] == Idle
  }

  lemma ReportedOnlyTarget(w: World, id: WorkerId, a: nat, status: P.MergeStatus, pc: Pc)
    requires a < |w.attempts| && Target(pc) == Some(a)
    ensures OnlyTarget(w, Goto(Reported(w, a, status), id, Idle), id, pc)
  {
  }

  lemma CompletedOnlyTarget(w: World, id: WorkerId, a: nat, from: set<P.MergeStatus>, pc: Pc)
    requires a < |w.attempts| && Target(pc) == Some(a)
    ensures OnlyTarget(w, Goto(Completed(w, a, from), id, Idle), id, pc)
  {
    CompletedIs(w, a, from);
  }

  lemma ExecuteOnlyTarget(w: World, id: WorkerId, pc: Pc, act: ExecuteAction)
    ensures OnlyTarget(w, StepExecute(w, id, pc, act), id, pc)
  {
    if act.Reject? {
      if pc.ExecRejecting? && pc.a < |w.attempts| { ReportedOnlyTarget(w, id, pc.a, P.Rejected, pc); }
    } else if act.Adopt? {
      if pc.ExecSawMerged? && pc.a < |w.attempts| { ReportedOnlyTarget(w, id, pc.a, P.MergedStatus, pc); }
    } else if act.Finish? {
      if pc.Replied? && pc.a < |w.attempts| { ReportedOnlyTarget(w, id, pc.a, pc.status, pc); }
    } else {
      ExecuteElsewhere(w, id, pc, act);
    }
  }

  lemma VerifyOnlyTarget(w: World, id: WorkerId, pc: Pc, act: VerifyAction)
    ensures OnlyTarget(w, StepVerify(w, id, pc, act), id, pc)
  {
    if pc.VerifySaw? && act.CommitVerified? && pc.a < |w.attempts| {
      CompletedOnlyTarget(w, id, pc.a, {P.Requested}, pc);
    } else {
      assert StepVerify(w, id, pc, act).attempts == w.attempts;
    }
  }

  lemma RecoverOnlyTarget(w: World, id: WorkerId, pc: Pc, act: RecoverAction)
    ensures OnlyTarget(w, StepRecover(w, id, pc, act), id, pc)
  {
    if pc.RecoverConfirmed? && act.CommitRecovered? && pc.a < |w.attempts| {
      CompletedOnlyTarget(w, id, pc.a, {P.Requested, P.Unknown}, pc);
    } else {
      assert StepRecover(w, id, pc, act).attempts == w.attempts;
    }
  }

  lemma PrepareChangesNoStatus(w: World, id: WorkerId, pc: Pc, act: PrepareAction)
    ensures w.attempts <= StepPrepare(w, id, pc, act).attempts
  {
    PreparePrefix(w, id, pc, act);
  }

  /** Verification starts only on an open attempt. */
  ghost predicate VerifiesOpen(before: World, after: World) {
    forall id :: id in after.workers && Verifying(after.workers[id]) ==>
      || (id in before.workers && before.workers[id] == after.workers[id])
      || Open(after, after.workers[id].a)
  }

  lemma ReportVerifiesOpen(w: World, id: WorkerId, a: nat, status: P.MergeStatus)
    requires a < |w.attempts|
    ensures VerifiesOpen(w, Goto(Reported(w, a, status), id, Idle))
  {
  }

  lemma ExecuteVerifiesOpen(w: World, id: WorkerId, pc: Pc, act: ExecuteAction)
    requires pc == PcOf(w, id)
    ensures VerifiesOpen(w, StepExecute(w, id, pc, act))
  {
    if act.Reject? {
      if pc.ExecRejecting? && pc.a < |w.attempts| { ReportVerifiesOpen(w, id, pc.a, P.Rejected); }
    } else if act.Adopt? {
      if pc.ExecSawMerged? && pc.a < |w.attempts| { ReportVerifiesOpen(w, id, pc.a, P.MergedStatus); }
    } else if act.Finish? {
      if pc.Replied? && pc.a < |w.attempts| { ReportVerifiesOpen(w, id, pc.a, pc.status); }
    } else {
      ExecuteLooksVerifyNothing(w, id, pc, act);
    }
  }

  lemma ExecuteLooksVerifyNothing(w: World, id: WorkerId, pc: Pc, act: ExecuteAction)
    requires pc == PcOf(w, id) && act !in {Reject, Adopt, Finish}
    ensures VerifiesOpen(w, StepExecute(w, id, pc, act))
  {
  }

  lemma VerifyVerifiesOpen(w: World, id: WorkerId, pc: Pc, act: VerifyAction)
    requires pc == PcOf(w, id) && (Verifying(pc) ==> Open(w, pc.a))
    ensures VerifiesOpen(w, StepVerify(w, id, pc, act))
  {
  }

  lemma RecoverVerifiesOpen(w: World, id: WorkerId, pc: Pc, act: RecoverAction)
    requires pc == PcOf(w, id)
    ensures VerifiesOpen(w, StepRecover(w, id, pc, act))
  {
  }

  lemma PrepareVerifiesOpen(w: World, id: WorkerId, pc: Pc, act: PrepareAction)
    requires pc == PcOf(w, id)
    ensures VerifiesOpen(w, StepPrepare(w, id, pc, act))
  {
  }

  lemma EnvVerifiesOpen(w: World, act: EnvAction)
    ensures VerifiesOpen(w, StepEnv(w, act))
  {
  }

  lemma KeepsVerifiersOpen(before: World, after: World, id: WorkerId)
    requires VerifiersOpen(before) && Serial(before) && VerifiesOpen(before, after)
    requires OnlyTarget(before, after, id, PcOf(before, id))
    ensures VerifiersOpen(after)
  {
    forall j | j in after.workers && Verifying(after.workers[j]) ensures Open(after, after.workers[j].a) {
      if j in before.workers && before.workers[j] == after.workers[j] {
        var a := after.workers[j].a;
        assert Open(before, a) && Target(before.workers[j]) == Some(a);
        assert after.attempts[a].status == before.attempts[a].status;
      }
    }
  }

  lemma KeepsVerifiersOpenIfStatusesStay(before: World, after: World)
    requires VerifiersOpen(before) && VerifiesOpen(before, after) && before.attempts <= after.attempts
    ensures VerifiersOpen(after)
  {
  }

  lemma StepKeepsVerifiersOpen(w: World, act: Action)
    requires VerifiersOpen(w) && Serial(w)
    ensures VerifiersOpen(Step(w, act))
  {
    var after := Step(w, act);
    match act
    case Env(env) =>
      EnvStatus(w, env);
      EnvVerifiesOpen(w, env);
      KeepsVerifiersOpenIfStatusesStay(w, after);
    case Prepare(id, prepare) =>
      PrepareChangesNoStatus(w, id, PcOf(w, id), prepare);
      PrepareVerifiesOpen(w, id, PcOf(w, id), prepare);
      KeepsVerifiersOpenIfStatusesStay(w, after);
    case Execute(id, execute) =>
      ExecuteOnlyTarget(w, id, PcOf(w, id), execute);
      ExecuteVerifiesOpen(w, id, PcOf(w, id), execute);
      KeepsVerifiersOpen(w, after, id);
    case Verify(id, verify) =>
      VerifyOnlyTarget(w, id, PcOf(w, id), verify);
      VerifyVerifiesOpen(w, id, PcOf(w, id), verify);
      KeepsVerifiersOpen(w, after, id);
    case Recover(id, recover) =>
      RecoverOnlyTarget(w, id, PcOf(w, id), recover);
      RecoverVerifiesOpen(w, id, PcOf(w, id), recover);
      KeepsVerifiersOpen(w, after, id);
  }

  ghost predicate SerialRun(run: seq<World>) {
    forall k :: 0 <= k < |run| ==> Serial(run[k])
  }

  lemma {:induction false} SerialVerifiersOpen(run: seq<World>, acts: seq<Action>, n: nat)
    requires IsRun(run, acts) && Initial(run[0]) && SerialRun(run) && n < |run|
    ensures VerifiersOpen(run[n])
  {
    if n > 0 {
      SerialVerifiersOpen(run, acts, n - 1);
      StepKeepsVerifiersOpen(run[n - 1], acts[n - 1]);
      assert run[n - 1 + 1] == Step(run[n - 1], acts[n - 1]);
    }
  }

  lemma OpenVerifiersSpoilNothing(w: World, act: Action)
    requires VerifiersOpen(w)
    ensures !Spoils(w, act)
  {
  }

  /** With one live worker per attempt, whatever the crash points, a milestone is COMPLETE
      exactly when its attempt is MERGED, in every reachable state. */
  lemma SerialRunsAreExact(run: seq<World>, acts: seq<Action>, n: nat)
    requires IsRun(run, acts) && Initial(run[0]) && SerialRun(run) && n < |run|
    ensures Exact(run[n])
  {
    forall k | 0 <= k < n ensures !Spoils(run[k], acts[k]) {
      SerialVerifiersOpen(run, acts, k);
      OpenVerifiersSpoilNothing(run[k], acts[k]);
    }
    ExactRuns(run, acts, n);
  }
}
