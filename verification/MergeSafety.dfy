/** Safety of the merge protocol over every run: one attempt and one PUT per milestone, and
    no completion without the provider's own proof. */
module MergeSafety {
  import opened Wrappers
  import M = MilestoneMachine
  import P = MergePolicy
  import opened MergeSaga

  // ------------------------------------------------------------------ what no step undoes

  ghost predicate SameAttempt(before: P.Attempt, after: P.Attempt) {
    && after == before.(status := after.status, mutationStarted := after.mutationStarted)
    && (before.mutationStarted ==> after.mutationStarted)
  }

  /** Attempts are never deleted and keep their identity; a merged pull request stays merged
      at its head; PUTs are never unsent; the milestones stay the same set. */
  ghost predicate Grows(before: World, after: World) {
    && |before.attempts| <= |after.attempts|
    && (forall i :: 0 <= i < |before.attempts| ==> SameAttempt(before.attempts[i], after.attempts[i]))
    && before.provider.Keys <= after.provider.Keys
    && (forall key :: key in before.provider && before.provider[key].state == P.Merged ==>
         after.provider[key] == before.provider[key])
    && before.sent <= after.sent
    && before.t.milestones.Keys == after.t.milestones.Keys
  }

  lemma EnvGrows(w: World, act: EnvAction)
    ensures Grows(w, StepEnv(w, act))
  {
  }

  lemma PrepareGrows(w: World, id: WorkerId, pc: Pc, act: PrepareAction)
    ensures Grows(w, StepPrepare(w, id, pc, act))
  {
  }

  lemma TogetherGrows(w: World, updated: World, a: nat, expected: M.State, target: M.State)
    requires a < |w.attempts| && a < |updated.attempts| && Grows(w, updated)
    ensures Grows(w, Together(w, updated, a, expected, target))
  {
  }

  lemma ReportedGrows(w: World, a: nat, status: P.MergeStatus)
    requires a < |w.attempts|
    ensures Grows(w, Reported(w, a, status))
  {
    var updated := SetStatusIfRequested(w, a, status);
    if status == P.MergedStatus { TogetherGrows(w, w, a, M.Merging, M.MergeVerify); }
    else if status != P.Unknown { TogetherGrows(w, updated, a, M.Merging, M.Blocked); }
  }

  lemma ExecuteGrows(w: World, id: WorkerId, pc: Pc, act: ExecuteAction)
    ensures Grows(w, StepExecute(w, id, pc, act))
  {
    match (act, pc)
    case (Reject, ExecRejecting(a)) => if a < |w.attempts| { ReportedGrows(w, a, P.Rejected); }
    case (Adopt, ExecSawMerged(a)) => if a < |w.attempts| { ReportedGrows(w, a, P.MergedStatus); }
    case (Finish, Replied(a, status)) => if a < |w.attempts| { ReportedGrows(w, a, status); }
    case _ =>
  }

  lemma CompletedGrows(w: World, a: nat, from: set<P.MergeStatus>)
    requires a < |w.attempts|
    ensures Grows(w, Completed(w, a, from))
  {
    if SaveAccepted(w, a) {
      var pull := w.attempts[a].evaluation.request.pull;
      var saved := w.(t := w.t.(pulls := w.t.pulls[pull :=
        w.t.pulls[pull].(state := P.Merged, headSha := w.attempts[a].head)]));
      var marked := if w.attempts[a].status in from then SetStatus(saved, a, P.MergedStatus) else saved;
      assert Grows(w, marked);
      TogetherGrows(w, marked, a, M.MergeVerify, M.Complete);
    }
  }

  lemma VerifyGrows(w: World, id: WorkerId, pc: Pc, act: VerifyAction)
    ensures Grows(w, StepVerify(w, id, pc, act))
  {
    if pc.VerifySaw? && act.CommitVerified? && pc.a < |w.attempts| { CompletedGrows(w, pc.a, {P.Requested}); }
  }

  lemma AdvanceGrows(w: World, a: nat)
    requires a < |w.attempts|
    ensures var moved := Transition(w, w.attempts[a].milestone, M.Merging, M.MergeVerify);
      moved.Some? ==> Grows(w, moved.value)
  {
  }

  lemma RecoverGrows(w: World, id: WorkerId, pc: Pc, act: RecoverAction)
    ensures Grows(w, StepRecover(w, id, pc, act))
  {
    if act.CommitRecovered? {
      if pc.RecoverConfirmed? && pc.a < |w.attempts| { CompletedGrows(w, pc.a, {P.Requested, P.Unknown}); }
    } else if act.Advance? {
      if pc.RecoverSaw? && pc.a < |w.attempts| { AdvanceGrows(w, pc.a); }
    } else {
      var after := StepRecover(w, id, pc, act);
      assert after == w.(workers := after.workers);
    }
  }

  lemma StepGrows(w: World, act: Action)
    ensures Grows(w, Step(w, act))
  {
    match act
    case Env(env) => EnvGrows(w, env);
    case Prepare(id, prepare) => PrepareGrows(w, id, PcOf(w, id), prepare);
    case Execute(id, execute) => ExecuteGrows(w, id, PcOf(w, id), execute);
    case Verify(id, verify) => VerifyGrows(w, id, PcOf(w, id), verify);
    case Recover(id, recover) => RecoverGrows(w, id, PcOf(w, id), recover);
  }

  // ------------------------------------------------------------------ milestones and attempts

  ghost predicate RowsWellFormed(w: World) {
    forall m :: m in w.t.milestones ==> M.WellFormed(w.t.milestones[m].row)
  }

  /** The only ways a step moves a milestone. */
  ghost predicate RowMoves(before: M.Row, after: M.Row) {
    after == before || M.Step(before, after)
  }

  ghost predicate Moves(before: World, after: World) {
    forall m :: m in before.t.milestones ==>
      m in after.t.milestones && RowMoves(before.t.milestones[m].row, after.t.milestones[m].row)
  }

  lemma TransitionMoves(w: World, m: P.Id, expected: M.State, target: M.State)
    ensures var after := Transition(w, m, expected, target); after.Some? ==>
      && Moves(w, after.value)
      && after.value == w.(t := after.value.t)
      && m in w.t.milestones && m in after.value.t.milestones
      && w.t.milestones[m].row.state == expected && after.value.t.milestones[m].row.state == target
  {
  }

  lemma TogetherMoves(w: World, updated: World, a: nat, expected: M.State, target: M.State)
    requires a < |w.attempts| && a < |updated.attempts| && updated.t.milestones == w.t.milestones
    ensures Moves(w, Together(w, updated, a, expected, target))
  {
    TransitionMoves(updated, updated.attempts[a].milestone, expected, target);
  }

  lemma CompletedMoves(w: World, a: nat, from: set<P.MergeStatus>)
    requires a < |w.attempts|
    ensures Moves(w, Completed(w, a, from))
  {
    if SaveAccepted(w, a) {
      var pull := w.attempts[a].evaluation.request.pull;
      var saved := w.(t := w.t.(pulls := w.t.pulls[pull :=
        w.t.pulls[pull].(state := P.Merged, headSha := w.attempts[a].head)]));
      var marked := if w.attempts[a].status in from then SetStatus(saved, a, P.MergedStatus) else saved;
      TransitionMoves(marked, marked.attempts[a].milestone, M.MergeVerify, M.Complete);
    }
  }

  lemma ReportedMoves(w: World, a: nat, status: P.MergeStatus)
    requires a < |w.attempts|
    ensures Moves(w, Reported(w, a, status))
  {
    var updated := SetStatusIfRequested(w, a, status);
    if status == P.MergedStatus { TogetherMoves(w, w, a, M.Merging, M.MergeVerify); }
    else if status != P.Unknown { TogetherMoves(w, updated, a, M.Merging, M.Blocked); }
  }

  lemma EnvMoves(w: World, act: EnvAction)
    ensures Moves(w, StepEnv(w, act))
  {
    if act.MoveMilestone? && act.m in w.t.milestones {
      TransitionMoves(w, act.m, w.t.milestones[act.m].row.state, act.target);
    }
  }

  lemma PrepareMoves(w: World, id: WorkerId, pc: Pc, act: PrepareAction)
    ensures Moves(w, StepPrepare(w, id, pc, act))
  {
    if pc.PrepFetched? && act.CommitIntent? {
      TransitionMoves(w.(attempts := w.attempts + [P.AttemptOf(pc.r, act.evaluation)]),
        pc.r.milestone, M.MergeReady, M.Merging);
    }
  }

  lemma ReportMoves(w: World, id: WorkerId, a: nat, status: P.MergeStatus)
    requires a < |w.attempts|
    ensures Moves(w, Goto(Reported(w, a, status), id, Idle))
  {
    ReportedMoves(w, a, status);
  }

  lemma ExecuteMoves(w: World, id: WorkerId, pc: Pc, act: ExecuteAction)
    ensures Moves(w, StepExecute(w, id, pc, act))
  {
    if act.Reject? {
      if pc.ExecRejecting? && pc.a < |w.attempts| { ReportMoves(w, id, pc.a, P.Rejected); }
    } else if act.Adopt? {
      if pc.ExecSawMerged? && pc.a < |w.attempts| { ReportMoves(w, id, pc.a, P.MergedStatus); }
    } else if act.Finish? {
      if pc.Replied? && pc.a < |w.attempts| { ReportMoves(w, id, pc.a, pc.status); }
    } else {
      assert StepExecute(w, id, pc, act).t == w.t;
    }
  }

  lemma VerifyMoves(w: World, id: WorkerId, pc: Pc, act: VerifyAction)
    ensures Moves(w, StepVerify(w, id, pc, act))
  {
    if pc.VerifySaw? && act.CommitVerified? && pc.a < |w.attempts| { CompletedMoves(w, pc.a, {P.Requested}); }
  }

  lemma RecoverMoves(w: World, id: WorkerId, pc: Pc, act: RecoverAction)
    ensures Moves(w, StepRecover(w, id, pc, act))
  {
    if pc.RecoverConfirmed? && pc.a < |w.attempts| { CompletedMoves(w, pc.a, {P.Requested, P.Unknown}); }
    if pc.RecoverSaw? && pc.a < |w.attempts| {
      TransitionMoves(w, w.attempts[pc.a].milestone, M.Merging, M.MergeVerify);
    }
  }

  lemma StepMoves(w: World, act: Action)
    ensures Moves(w, Step(w, act))
  {
    match act
    case Env(env) => EnvMoves(w, env);
    case Prepare(id, prepare) => PrepareMoves(w, id, PcOf(w, id), prepare);
    case Execute(id, execute) => ExecuteMoves(w, id, PcOf(w, id), execute);
    case Verify(id, verify) => VerifyMoves(w, id, PcOf(w, id), verify);
    case Recover(id, recover) => RecoverMoves(w, id, PcOf(w, id), recover);
  }

  lemma KeepsRows(before: World, after: World)
    requires RowsWellFormed(before) && Moves(before, after) && Grows(before, after)
    ensures RowsWellFormed(after)
  {
    forall m | m in after.t.milestones ensures M.WellFormed(after.t.milestones[m].row) {
      var r, s := before.t.milestones[m].row, after.t.milestones[m].row;
      if s != r { M.StepKeepsWellFormed(r, s); }
    }
  }

  /** Every attempt records an eligible evaluation of its own head, and its milestone has
      left MERGE_READY for good. */
  ghost predicate AttemptOk(w: World, i: nat)
    requires i < |w.attempts|
  {
    && Known(w, i) && M.Effective(RowOf(w, i)) in M.MERGE_TAIL
    && w.attempts[i].evaluation.eligible
    && w.attempts[i].evaluation.request.milestone == w.attempts[i].milestone
    && w.attempts[i].evaluation.request.head == w.attempts[i].head
  }

  ghost predicate AttemptsOk(w: World) {
    && RowsWellFormed(w)
    && (forall i :: 0 <= i < |w.attempts| ==> AttemptOk(w, i))
    && (forall i, j :: 0 <= i < j < |w.attempts| ==> w.attempts[i].milestone != w.attempts[j].milestone)
  }

  lemma KeepsAttemptOk(before: World, after: World, i: nat)
    requires RowsWellFormed(before) && i < |before.attempts| && AttemptOk(before, i)
    requires Grows(before, after) && Moves(before, after)
    ensures AttemptOk(after, i)
  {
    assert SameAttempt(before.attempts[i], after.attempts[i]);
    var r, s := RowOf(before, i), RowOf(after, i);
    if s != r { M.MergeTailIsClosed(r, s); }
  }

  /** An attempt is only ever added for a milestone in MERGE_READY, which it takes out of
      that state, and only while no other attempt is open. */
  ghost predicate Adds(before: World, after: World) {
    && |after.attempts| <= |before.attempts| + 1
    && (|after.attempts| == |before.attempts| + 1 ==>
         var added := after.attempts[|before.attempts|];
         && added.milestone in before.t.milestones
         && before.t.milestones[added.milestone].row.state == M.MergeReady
         && added.status == P.Requested && !added.mutationStarted && !SlotTaken(before)
         && AttemptOk(after, |before.attempts|)
         && after.attempts[..|before.attempts|] == before.attempts)
  }

  lemma InsertIntentAdds(w: World, r: P.Request, evaluation: P.Evaluation)
    requires evaluation.eligible && evaluation.request == r
    ensures Adds(w, InsertIntent(w, r, evaluation))
  {
    TransitionMoves(w.(attempts := w.attempts + [P.AttemptOf(r, evaluation)]), r.milestone, M.MergeReady, M.Merging);
  }

  lemma StepAdds(w: World, act: Action)
    ensures Adds(w, Step(w, act))
  {
    if act.Prepare? {
      PrepareAdds(w, act.id, PcOf(w, act.id), act.prepare);
    } else {
      OthersAddNothing(w, act);
    }
  }

  lemma PrepareAdds(w: World, id: WorkerId, pc: Pc, act: PrepareAction)
    ensures Adds(w, StepPrepare(w, id, pc, act))
  {
    if pc.PrepFetched? && act.CommitIntent? && act.evaluation.request == pc.r && act.evaluation.eligible {
      InsertIntentAdds(w, pc.r, act.evaluation);
    }
  }

  lemma ReportedAddsNothing(w: World, a: nat, status: P.MergeStatus)
    requires a < |w.attempts|
    ensures |Reported(w, a, status).attempts| == |w.attempts|
  {
  }

  lemma ExecuteAddsNothing(w: World, id: WorkerId, pc: Pc, act: ExecuteAction)
    ensures |StepExecute(w, id, pc, act).attempts| == |w.attempts|
  {
    if (pc.ExecRejecting? || pc.ExecSawMerged?) && pc.a < |w.attempts| {
      ReportedAddsNothing(w, pc.a, P.Rejected);
      ReportedAddsNothing(w, pc.a, P.MergedStatus);
    }
    if pc.Replied? && pc.a < |w.attempts| { ReportedAddsNothing(w, pc.a, pc.status); }
  }

  lemma OthersAddNothing(w: World, act: Action)
    requires !act.Prepare?
    ensures |Step(w, act).attempts| == |w.attempts|
  {
    match act
    case Env(env) =>
    case Execute(id, execute) => ExecuteAddsNothing(w, id, PcOf(w, id), execute);
    case Verify(id, verify) =>
    case Recover(id, recover) =>
  }

  lemma KeepsDistinct(before: World, after: World, i: nat, j: nat)
    requires AttemptsOk(before) && Grows(before, after) && Adds(before, after) && i < j < |after.attempts|
    ensures after.attempts[i].milestone != after.attempts[j].milestone
  {
    assert i < |before.attempts| && SameAttempt(before.attempts[i], after.attempts[i]);
    if j < |before.attempts| {
      assert SameAttempt(before.attempts[j], after.attempts[j]);
    } else {
      assert AttemptOk(before, i);
    }
  }

  lemma KeepsAttempts(before: World, after: World)
    requires AttemptsOk(before) && Grows(before, after) && Moves(before, after) && Adds(before, after)
    ensures AttemptsOk(after)
  {
    KeepsRows(before, after);
    forall i | 0 <= i < |after.attempts| ensures AttemptOk(after, i) {
      if i < |before.attempts| {
        KeepsAttemptOk(before, after, i);
      } else {
        AddedIsOk(before, after);
      }
    }
    forall i, j | 0 <= i < j < |after.attempts| ensures after.attempts[i].milestone != after.attempts[j].milestone {
      KeepsDistinct(before, after, i, j);
    }
  }

  lemma AddedIsOk(before: World, after: World)
    requires Adds(before, after) && |after.attempts| > |before.attempts|
    ensures |after.attempts| == |before.attempts| + 1 && AttemptOk(after, |before.attempts|)
  {
  }
}
