/** What holds in every reachable state of the merge protocol: one attempt and one PUT per
    milestone, at the attempt's own head, and no completion without the provider's proof. */
module MergeTheorems {
  import opened Wrappers
  import M = MilestoneMachine
  import P = MergePolicy
  import opened MergeSaga
  import opened MergeSafety

  // ------------------------------------------------------------------ how statuses move

  /** A recorded outcome is final, except that an unknown one may still turn out merged; a
      failure is recorded only while leaving MERGING for BLOCKED, a merge only while leaving
      MERGE_VERIFY for COMPLETE. */
  ghost predicate StatusMove(before: World, after: World, i: nat)
    requires i < |before.attempts| && i < |after.attempts|
  {
    var old', new' := before.attempts[i].status, after.attempts[i].status;
    || new' == old'
    || (old' == P.Requested && new' == P.Unknown)
    || (old' == P.Requested && new' !in {P.Unknown, P.MergedStatus} && InState(before, i, M.Merging) && InState(after, i, M.Blocked))
    || (Recoverable(old') && new' == P.MergedStatus && InState(before, i, M.MergeVerify) && InState(after, i, M.Complete))
  }

  ghost predicate StatusMoves(before: World, after: World) {
    && |before.attempts| <= |after.attempts|
    && forall i :: 0 <= i < |before.attempts| ==> StatusMove(before, after, i)
  }

  /** What the completing transaction does when it commits. */
  ghost predicate CompletedBy(before: World, after: World, a: nat, from: set<P.MergeStatus>)
    requires a < |before.attempts|
  {
    && SaveAccepted(before, a) && after.provider == before.provider
    && InState(before, a, M.MergeVerify) && InState(after, a, M.Complete)
    && after.attempts == (if before.attempts[a].status in from
         then before.attempts[a := before.attempts[a].(status := P.MergedStatus)] else before.attempts)
    && (forall m :: m in before.t.milestones && m != before.attempts[a].milestone ==>
         m in after.t.milestones && after.t.milestones[m] == before.t.milestones[m])
  }

  lemma CompletedIs(w: World, a: nat, from: set<P.MergeStatus>)
    requires a < |w.attempts|
    ensures Completed(w, a, from) == w || CompletedBy(w, Completed(w, a, from), a, from)
    ensures Completed(w, a, from) == w ==> !(SaveAccepted(w, a) && InState(w, a, M.MergeVerify))
  {
  }

  lemma CompletedStatus(w: World, after: World, a: nat, from: set<P.MergeStatus>)
    requires a < |w.attempts| && from <= {P.Requested, P.Unknown}
    requires CompletedBy(w, after, a, from)
    ensures StatusMoves(w, after)
  {
    forall i | 0 <= i < |w.attempts| ensures StatusMove(w, after, i) {}
  }

  lemma RefusedStatus(w: World, a: nat, status: P.MergeStatus)
    requires a < |w.attempts| && status !in {P.MergedStatus, P.Unknown}
    ensures StatusMoves(w, Reported(w, a, status))
  {
    var updated := SetStatusIfRequested(w, a, status);
    TransitionMoves(updated, w.attempts[a].milestone, M.Merging, M.Blocked);
    var after := Reported(w, a, status);
    forall i | 0 <= i < |w.attempts| ensures StatusMove(w, after, i) {}
  }

  lemma ReportedStatus(w: World, a: nat, status: P.MergeStatus)
    requires a < |w.attempts|
    ensures StatusMoves(w, Reported(w, a, status))
  {
    if status == P.MergedStatus {
      TransitionMoves(w, w.attempts[a].milestone, M.Merging, M.MergeVerify);
      assert Reported(w, a, status).attempts == w.attempts;
    } else if status != P.Unknown {
      RefusedStatus(w, a, status);
    }
  }

  lemma EnvStatus(w: World, act: EnvAction)
    ensures StepEnv(w, act).attempts == w.attempts
  {
  }

  lemma PrepareStatus(w: World, id: WorkerId, pc: Pc, act: PrepareAction)
    ensures StatusMoves(w, StepPrepare(w, id, pc, act))
  {
    PreparePrefix(w, id, pc, act);
    PrefixStatus(w, StepPrepare(w, id, pc, act));
  }

  lemma PrefixStatus(w: World, after: World)
    requires w.attempts <= after.attempts
    ensures StatusMoves(w, after)
  {
    forall i | 0 <= i < |w.attempts| ensures StatusMove(w, after, i) {}
  }

  lemma PreparePrefix(w: World, id: WorkerId, pc: Pc, act: PrepareAction)
    ensures w.attempts <= StepPrepare(w, id, pc, act).attempts
  {
  }

  lemma GotoStatus(w: World, after: World, id: WorkerId, pc: Pc)
    requires StatusMoves(w, after)
    ensures StatusMoves(w, Goto(after, id, pc))
  {
    forall i | 0 <= i < |w.attempts| ensures StatusMove(w, Goto(after, id, pc), i) {
      assert StatusMove(w, after, i);
    }
  }

  lemma CompletionStatus(w: World, id: WorkerId, a: nat, from: set<P.MergeStatus>)
    requires a < |w.attempts| && from <= {P.Requested, P.Unknown}
    ensures StatusMoves(w, Goto(Completed(w, a, from), id, Idle))
  {
    CompletedIs(w, a, from);
    var after := Completed(w, a, from);
    if after != w { CompletedStatus(w, after, a, from); }
    GotoStatus(w, after, id, Idle);
  }

  lemma VerifyStatus(w: World, id: WorkerId, pc: Pc, act: VerifyAction)
    ensures StatusMoves(w, StepVerify(w, id, pc, act))
  {
    if pc.VerifySaw? && act.CommitVerified? && pc.a < |w.attempts| {
      CompletionStatus(w, id, pc.a, {P.Requested});
    } else {
      assert StepVerify(w, id, pc, act).attempts == w.attempts;
    }
  }

  lemma RecoverStatus(w: World, id: WorkerId, pc: Pc, act: RecoverAction)
    ensures StatusMoves(w, StepRecover(w, id, pc, act))
  {
    if pc.RecoverConfirmed? && act.CommitRecovered? && pc.a < |w.attempts| {
      CompletionStatus(w, id, pc.a, {P.Requested, P.Unknown});
    } else {
      assert StepRecover(w, id, pc, act).attempts == w.attempts;
    }
  }

  lemma ReportStatus(w: World, id: WorkerId, a: nat, status: P.MergeStatus)
    requires a < |w.attempts|
    ensures StatusMoves(w, Goto(Reported(w, a, status), id, Idle))
  {
    ReportedStatus(w, a, status);
    GotoStatus(w, Reported(w, a, status), id, Idle);
  }

  lemma ExecuteStatus(w: World, id: WorkerId, pc: Pc, act: ExecuteAction)
    ensures StatusMoves(w, StepExecute(w, id, pc, act))
  {
    if act.Reject? {
      if pc.ExecRejecting? && pc.a < |w.attempts| { ReportStatus(w, id, pc.a, P.Rejected); }
    } else if act.Adopt? {
      if pc.ExecSawMerged? && pc.a < |w.attempts| { ReportStatus(w, id, pc.a, P.MergedStatus); }
    } else if act.Finish? {
      if pc.Replied? && pc.a < |w.attempts| { ReportStatus(w, id, pc.a, pc.status); }
    } else {
      ExecuteElsewhere(w, id, pc, act);
    }
  }

  lemma ExecuteElsewhere(w: World, id: WorkerId, pc: Pc, act: ExecuteAction)
    requires act !in {Reject, Adopt, Finish}
    ensures var after := StepExecute(w, id, pc, act);
      && after.t == w.t && |after.attempts| == |w.attempts|
      && forall i :: 0 <= i < |w.attempts| ==> after.attempts[i].status == w.attempts[i].status
  {
  }

  lemma StepStatus(w: World, act: Action)
    ensures StatusMoves(w, Step(w, act))
  {
    match act
    case Env(env) => EnvStatus(w, env);
    case Prepare(id, prepare) => PrepareStatus(w, id, PcOf(w, id), prepare);
    case Execute(id, execute) => ExecuteStatus(w, id, PcOf(w, id), execute);
    case Verify(id, verify) => VerifyStatus(w, id, PcOf(w, id), verify);
    case Recover(id, recover) => RecoverStatus(w, id, PcOf(w, id), recover);
  }

  // ------------------------------------------------------------------ one open merge

  /** At most one merge is open in the whole system. */
  ghost predicate OneSlot(w: World) {
    forall i, j :: 0 <= i < j < |w.attempts| ==> !(w.attempts[i].status == P.Requested && w.attempts[j].status == P.Requested)
  }

  lemma KeepsSlot(before: World, after: World)
    requires OneSlot(before) && StatusMoves(before, after) && Adds(before, after)
    ensures OneSlot(after)
  {
    forall i, j | 0 <= i < j < |after.attempts|
      ensures !(after.attempts[i].status == P.Requested && after.attempts[j].status == P.Requested)
    {
      assert StatusMove(before, after, i);
      assert j < |before.attempts| ==> StatusMove(before, after, j);
    }
  }

  // ------------------------------------------------------------------ PUTs

  ghost predicate Sent(w: World, a: nat) {
    exists k | 0 <= k < |w.sent| :: w.sent[k].attempt == a
  }

  ghost predicate ArmedAt(w: World, id: WorkerId, a: nat) {
    id in w.workers && w.workers[id] == Armed(a)
  }

  /** Every PUT is its attempt's own and no attempt has two; a worker about to send one is
      the only such worker, past the durable marker, and none has been sent yet. */
  ghost predicate PutsOk(w: World) {
    && (forall k :: 0 <= k < |w.sent| ==>
         && w.sent[k].attempt < |w.attempts| && w.sent[k] == PutOf(w, w.sent[k].attempt)
         && w.attempts[w.sent[k].attempt].mutationStarted)
    && (forall k, l :: 0 <= k < l < |w.sent| ==> w.sent[k].attempt != w.sent[l].attempt)
    && (forall put :: put in w.inFlight ==> put in w.sent)
    && (forall id, a: nat :: ArmedAt(w, id, a) ==> a < |w.attempts| && w.attempts[a].mutationStarted && !Sent(w, a))
    && (forall id, other, a: nat :: ArmedAt(w, id, a) && ArmedAt(w, other, a) ==> id == other)
  }

  /** No PUT is sent and no worker becomes armed. */
  ghost predicate Quiet(before: World, after: World) {
    && after.sent == before.sent && after.inFlight <= before.inFlight
    && forall id :: id in after.workers && after.workers[id].Armed? ==>
         id in before.workers && before.workers[id] == after.workers[id]
  }

  lemma StepQuiet(w: World, act: Action)
    requires act.Execute? ==> act.execute !in {Mark, SendPut}
    ensures Quiet(w, Step(w, act))
  {
    match act
    case Env(env) => EnvQuiet(w, env);
    case Prepare(id, prepare) => PrepareQuiet(w, id, PcOf(w, id), prepare);
    case Execute(id, execute) => ExecuteQuiet(w, id, PcOf(w, id), execute);
    case Verify(id, verify) => VerifyQuiet(w, id, PcOf(w, id), verify);
    case Recover(id, recover) => RecoverQuiet(w, id, PcOf(w, id), recover);
  }

  lemma EnvQuiet(w: World, act: EnvAction)
    ensures Quiet(w, StepEnv(w, act))
  {
  }

  lemma VerifyQuiet(w: World, id: WorkerId, pc: Pc, act: VerifyAction)
    ensures Quiet(w, StepVerify(w, id, pc, act))
  {
  }

  lemma RecoverQuiet(w: World, id: WorkerId, pc: Pc, act: RecoverAction)
    ensures Quiet(w, StepRecover(w, id, pc, act))
  {
  }

  lemma PrepareQuiet(w: World, id: WorkerId, pc: Pc, act: PrepareAction)
    ensures Quiet(w, StepPrepare(w, id, pc, act))
  {
  }

  lemma ReportQuiet(w: World, id: WorkerId, a: nat, status: P.MergeStatus)
    requires a < |w.attempts|
    ensures Quiet(w, Goto(Reported(w, a, status), id, Idle))
  {
  }

  lemma ExecuteQuiet(w: World, id: WorkerId, pc: Pc, act: ExecuteAction)
    requires act !in {Mark, SendPut}
    ensures Quiet(w, StepExecute(w, id, pc, act))
  {
    if act.Reject? {
      if pc.ExecRejecting? && pc.a < |w.attempts| { ReportQuiet(w, id, pc.a, P.Rejected); }
    } else if act.Adopt? {
      if pc.ExecSawMerged? && pc.a < |w.attempts| { ReportQuiet(w, id, pc.a, P.MergedStatus); }
    } else if act.Finish? {
      if pc.Replied? && pc.a < |w.attempts| { ReportQuiet(w, id, pc.a, pc.status); }
    } else {
      var after := StepExecute(w, id, pc, act);
      assert after == w.(workers := after.workers);
    }
  }

  lemma KeepsPutsWhenQuiet(before: World, after: World)
    requires PutsOk(before) && Quiet(before, after) && Grows(before, after)
    ensures PutsOk(after)
  {
    forall k | 0 <= k < |after.sent|
      ensures after.sent[k].attempt < |after.attempts| && after.sent[k] == PutOf(after, after.sent[k].attempt)
      ensures after.attempts[after.sent[k].attempt].mutationStarted
    {
      var a := before.sent[k].attempt;
      assert SameAttempt(before.attempts[a], after.attempts[a]);
    }
    forall id, a: nat | ArmedAt(after, id, a)
      ensures a < |after.attempts| && after.attempts[a].mutationStarted && !Sent(after, a)
    {
      assert ArmedAt(before, id, a);
      assert SameAttempt(before.attempts[a], after.attempts[a]);
    }
    forall id, other, a: nat | ArmedAt(after, id, a) && ArmedAt(after, other, a) ensures id == other {
      assert ArmedAt(before, id, a) && ArmedAt(before, other, a);
    }
  }

  /** Worker `id` becomes armed for an attempt it has just marked. */
  ghost predicate Arms(before: World, after: World, id: WorkerId, a: nat) {
    && after.sent == before.sent && after.inFlight == before.inFlight
    && a < |before.attempts| == |after.attempts|
    && !before.attempts[a].mutationStarted && after.attempts[a].mutationStarted
    && after.workers == before.workers[id := Armed(a)]
  }

  lemma MarkArms(w: World, id: WorkerId)
    ensures var after := StepExecute(w, id, PcOf(w, id), Mark);
      Quiet(w, after) || (PcOf(w, id).ExecSawOpen? && Arms(w, after, id, PcOf(w, id).a))
  {
  }

  lemma ArmingKeepsArmed(before: World, after: World, id: WorkerId, a: nat, other: WorkerId, b: nat)
    requires PutsOk(before) && Arms(before, after, id, a) && Grows(before, after) && ArmedAt(after, other, b)
    ensures b < |after.attempts| && after.attempts[b].mutationStarted && !Sent(after, b)
    ensures other == id <==> b == a
  {
    if other != id {
      assert ArmedAt(before, other, b);
      assert SameAttempt(before.attempts[b], after.attempts[b]);
    }
  }

  lemma ArmingKeepsPuts(before: World, after: World, id: WorkerId, a: nat)
    requires PutsOk(before) && Arms(before, after, id, a) && Grows(before, after)
    ensures PutsOk(after)
  {
    forall other, b: nat | ArmedAt(after, other, b)
      ensures b < |after.attempts| && after.attempts[b].mutationStarted && !Sent(after, b)
    {
      ArmingKeepsArmed(before, after, id, a, other, b);
    }
    forall one, other, b: nat | ArmedAt(after, one, b) && ArmedAt(after, other, b) ensures one == other {
      ArmingKeepsArmed(before, after, id, a, one, b);
      ArmingKeepsArmed(before, after, id, a, other, b);
      if one != id { assert ArmedAt(before, one, b) && ArmedAt(before, other, b); }
    }
    forall k | 0 <= k < |after.sent|
      ensures after.sent[k].attempt < |after.attempts| && after.sent[k] == PutOf(after, after.sent[k].attempt)
      ensures after.attempts[after.sent[k].attempt].mutationStarted
    {
      var b := before.sent[k].attempt;
      assert SameAttempt(before.attempts[b], after.attempts[b]);
    }
  }

  lemma MarkKeepsPuts(w: World, id: WorkerId)
    requires PutsOk(w)
    ensures PutsOk(StepExecute(w, id, PcOf(w, id), Mark))
  {
    MarkArms(w, id);
    ExecuteGrows(w, id, PcOf(w, id), Mark);
    var after := StepExecute(w, id, PcOf(w, id), Mark);
    if Quiet(w, after) {
      KeepsPutsWhenQuiet(w, after);
    } else {
      ArmingKeepsPuts(w, after, id, PcOf(w, id).a);
    }
  }

  lemma SendKeepsPuts(w: World, id: WorkerId)
    requires PutsOk(w)
    ensures PutsOk(StepExecute(w, id, PcOf(w, id), SendPut))
  {
    var pc, after := PcOf(w, id), StepExecute(w, id, PcOf(w, id), SendPut);
    if pc.Armed? {
      assert ArmedAt(w, id, pc.a);
      assert !Sent(w, pc.a);
      forall other, a: nat | ArmedAt(after, other, a)
        ensures a < |after.attempts| && after.attempts[a].mutationStarted && !Sent(after, a)
      {
        assert ArmedAt(w, other, a);
        assert !Sent(w, a) && a != pc.a;
      }
      forall one, other, a: nat | ArmedAt(after, one, a) && ArmedAt(after, other, a) ensures one == other {
        assert ArmedAt(w, one, a) && ArmedAt(w, other, a);
      }
    }
  }

  lemma KeepsPuts(w: World, act: Action)
    requires PutsOk(w)
    ensures PutsOk(Step(w, act))
  {
    if act.Execute? && act.execute.Mark? {
      MarkKeepsPuts(w, act.id);
    } else if act.Execute? && act.execute.SendPut? {
      SendKeepsPuts(w, act.id);
    } else {
      StepQuiet(w, act);
      StepGrows(w, act);
      KeepsPutsWhenQuiet(w, Step(w, act));
    }
  }

  // ------------------------------------------------------------------ what a worker may rely on

  const VERIFY_TAIL: set<M.State> := {M.MergeVerify, M.Complete, M.Failed, M.Cancelled}

  /** The milestone has left MERGING for good and the attempt has not failed. */
  ghost predicate PastMerging(w: World, a: nat) {
    && Known(w, a) && M.Effective(RowOf(w, a)) in VERIFY_TAIL
    && w.attempts[a].status in {P.Requested, P.Unknown, P.MergedStatus}
  }

  /** What a worker learnt stays true, however long it takes to act on it. */
  ghost predicate PcOk(w: World, pc: Pc) {
    match pc
    case ExecSawMerged(a) => Observed(w, a, P.Merged)
    case Awaiting(a) => Sent(w, a)
    case Replied(a, _) => Sent(w, a)
    case VerifyRead(a) => PastMerging(w, a)
    case VerifySaw(a) => PastMerging(w, a) && Observed(w, a, P.Merged)
    case RecoverSaw(a, _) => Observed(w, a, P.Merged)
    case RecoverAgain(a) => Observed(w, a, P.Merged)
    case RecoverSecond(a) => PastMerging(w, a) && Observed(w, a, P.Merged)
    case RecoverConfirmed(a) => PastMerging(w, a) && Observed(w, a, P.Merged)
    case _ => true
  }

  ghost predicate PcsOk(w: World) {
    forall id :: id in w.workers ==> PcOk(w, w.workers[id])
  }

  lemma ObservedStays(before: World, after: World, a: nat)
    requires Grows(before, after) && Observed(before, a, P.Merged)
    ensures Observed(after, a, P.Merged)
  {
    assert SameAttempt(before.attempts[a], after.attempts[a]);
  }

  lemma SentStays(before: World, after: World, a: nat)
    requires Grows(before, after) && Sent(before, a)
    ensures Sent(after, a)
  {
    var k :| 0 <= k < |before.sent| && before.sent[k].attempt == a;
    assert after.sent[k].attempt == a;
  }

  lemma VerifyTailIsClosed(before: M.Row, after: M.Row)
    requires M.WellFormed(before) && RowMoves(before, after) && M.Effective(before) in VERIFY_TAIL
    ensures M.Effective(after) in VERIFY_TAIL
  {
    if after != before { M.StepKeepsWellFormed(before, after); }
  }

  lemma PastMergingStays(before: World, after: World, a: nat)
    requires Grows(before, after) && Moves(before, after) && StatusMoves(before, after) && RowsWellFormed(before)
    requires PastMerging(before, a)
    ensures PastMerging(after, a)
  {
    assert SameAttempt(before.attempts[a], after.attempts[a]) && StatusMove(before, after, a);
    var m := before.attempts[a].milestone;
    VerifyTailIsClosed(before.t.milestones[m].row, after.t.milestones[m].row);
    if before.attempts[a].status == P.Requested { assert !InState(before, a, M.Merging); }
  }

  lemma PcStays(before: World, after: World, pc: Pc)
    requires Grows(before, after) && Moves(before, after) && StatusMoves(before, after) && RowsWellFormed(before)
    requires PcOk(before, pc)
    ensures PcOk(after, pc)
  {
    match pc
    case ExecSawMerged(a) => ObservedStays(before, after, a);
    case Awaiting(a) => SentStays(before, after, a);
    case Replied(a, _) => SentStays(before, after, a);
    case VerifyRead(a) => PastMergingStays(before, after, a);
    case VerifySaw(a) => PastMergingStays(before, after, a); ObservedStays(before, after, a);
    case RecoverSaw(a, _) => ObservedStays(before, after, a);
    case RecoverAgain(a) => ObservedStays(before, after, a);
    case RecoverSecond(a) => PastMergingStays(before, after, a); ObservedStays(before, after, a);
    case RecoverConfirmed(a) => PastMergingStays(before, after, a); ObservedStays(before, after, a);
    case _ =>
  }

  /** Only the acting worker moves, and to a place it has the right to be in. */
  ghost predicate Arrives(before: World, after: World) {
    forall id :: id in after.workers ==>
      || (id in before.workers && before.workers[id] == after.workers[id])
      || PcOk(after, after.workers[id])
  }

  lemma EnvArrives(w: World, act: EnvAction)
    ensures Arrives(w, StepEnv(w, act))
  {
  }

  lemma PrepareArrives(w: World, id: WorkerId, pc: Pc, act: PrepareAction)
    ensures Arrives(w, StepPrepare(w, id, pc, act))
  {
  }

  lemma SendArrives(w: World, id: WorkerId, a: nat)
    requires PcOf(w, id) == Armed(a) && a < |w.attempts|
    ensures Arrives(w, StepExecute(w, id, Armed(a), SendPut))
  {
    var after := StepExecute(w, id, Armed(a), SendPut);
    assert after.sent[|w.sent|].attempt == a;
  }

  lemma ReportArrives(w: World, id: WorkerId, a: nat, status: P.MergeStatus)
    requires a < |w.attempts|
    ensures Arrives(w, Goto(Reported(w, a, status), id, Idle))
  {
  }

  lemma ExecuteArrives(w: World, id: WorkerId, pc: Pc, act: ExecuteAction)
    requires PcOk(w, pc) && pc == PcOf(w, id)
    ensures Arrives(w, StepExecute(w, id, pc, act))
  {
    if act.SendPut? {
      if pc.Armed? && pc.a < |w.attempts| { SendArrives(w, id, pc.a); }
    } else if act.Reject? {
      if pc.ExecRejecting? && pc.a < |w.attempts| { ReportArrives(w, id, pc.a, P.Rejected); }
    } else if act.Adopt? {
      if pc.ExecSawMerged? && pc.a < |w.attempts| { ReportArrives(w, id, pc.a, P.MergedStatus); }
    } else if act.Finish? {
      if pc.Replied? && pc.a < |w.attempts| { ReportArrives(w, id, pc.a, pc.status); }
    } else {
      ExecuteLooksArrive(w, id, pc, act);
    }
  }

  lemma ExecuteLooksArrive(w: World, id: WorkerId, pc: Pc, act: ExecuteAction)
    requires PcOk(w, pc) && pc == PcOf(w, id) && act !in {SendPut, Reject, Adopt, Finish}
    ensures Arrives(w, StepExecute(w, id, pc, act))
  {
    var after := StepExecute(w, id, pc, act);
    assert after == w.(workers := after.workers, attempts := after.attempts);
  }

  lemma VerifyArrives(w: World, id: WorkerId, pc: Pc, act: VerifyAction)
    requires PcOk(w, pc) && pc == PcOf(w, id)
    ensures Arrives(w, StepVerify(w, id, pc, act))
  {
  }

  lemma GotoArrives(w: World, changed: World, id: WorkerId, pc: Pc)
    requires changed.workers == w.workers && PcOk(Goto(changed, id, pc), pc)
    ensures Arrives(w, Goto(changed, id, pc))
  {
  }

  lemma AdvanceArrives(w: World, id: WorkerId, a: nat)
    requires Observed(w, a, P.Merged)
    ensures var moved := Transition(w, w.attempts[a].milestone, M.Merging, M.MergeVerify);
      moved.Some? ==> Arrives(w, Goto(moved.value, id, RecoverAgain(a)))
  {
    TransitionMoves(w, w.attempts[a].milestone, M.Merging, M.MergeVerify);
    var moved := Transition(w, w.attempts[a].milestone, M.Merging, M.MergeVerify);
    if moved.Some? {
      assert Observed(Goto(moved.value, id, RecoverAgain(a)), a, P.Merged);
      GotoArrives(w, moved.value, id, RecoverAgain(a));
    }
  }

  lemma RecoverLooksArrive(w: World, id: WorkerId, pc: Pc, act: RecoverAction)
    requires PcOk(w, pc) && pc == PcOf(w, id) && act !in {Advance, CommitRecovered}
    ensures Arrives(w, StepRecover(w, id, pc, act))
  {
    var after := StepRecover(w, id, pc, act);
    assert after == w.(workers := after.workers);
  }

  lemma RecoverArrives(w: World, id: WorkerId, pc: Pc, act: RecoverAction)
    requires PcOk(w, pc) && pc == PcOf(w, id)
    ensures Arrives(w, StepRecover(w, id, pc, act))
  {
    if act.Advance? {
      if pc.RecoverSaw? {
        AdvanceArrives(w, id, pc.a);
        GotoArrives(w, w, id, RecoverAgain(pc.a));
        GotoArrives(w, w, id, Idle);
      }
    } else if act.CommitRecovered? {
      if pc.RecoverConfirmed? { GotoArrives(w, Completed(w, pc.a, {P.Requested, P.Unknown}), id, Idle); }
    } else {
      RecoverLooksArrive(w, id, pc, act);
    }
  }

  lemma StepArrives(w: World, act: Action)
    requires PcsOk(w)
    ensures Arrives(w, Step(w, act))
  {
    match act
    case Env(env) => EnvArrives(w, env);
    case Prepare(id, prepare) => PrepareArrives(w, id, PcOf(w, id), prepare);
    case Execute(id, execute) => ExecuteArrives(w, id, PcOf(w, id), execute);
    case Verify(id, verify) => VerifyArrives(w, id, PcOf(w, id), verify);
    case Recover(id, recover) => RecoverArrives(w, id, PcOf(w, id), recover);
  }

  lemma KeepsPcs(before: World, after: World)
    requires Grows(before, after) && Moves(before, after) && StatusMoves(before, after) && RowsWellFormed(before)
    requires PcsOk(before) && Arrives(before, after)
    ensures PcsOk(after)
  {
    forall id | id in after.workers ensures PcOk(after, after.workers[id]) {
      if id in before.workers && before.workers[id] == after.workers[id] {
        PcStays(before, after, after.workers[id]);
      }
    }
  }

  // ------------------------------------------------------------------ completion

  /** The provider holds exactly this attempt's pull request as merged at its head. */
  ghost predicate Proves(w: World, m: P.Id, a: nat) {
    && a < |w.attempts| && w.attempts[a].milestone == m && Observed(w, a, P.Merged)
    && w.attempts[a].status in {P.MergedStatus, P.Unknown}
  }

  predicate Newly(before: World, after: World, m: P.Id) {
    && m in before.t.milestones && m in after.t.milestones
    && after.t.milestones[m].row.state == M.Complete && before.t.milestones[m].row.state != M.Complete
  }

  /** A step completes a milestone only with such a proof. */
  ghost predicate Completes(before: World, after: World) {
    forall m :: Newly(before, after, m) ==> exists a: nat :: Proves(after, m, a)
  }

  ghost predicate CompletesNothing(before: World, after: World) {
    forall m :: !Newly(before, after, m)
  }

  lemma TransitionCompletesNothing(w: World, m: P.Id, expected: M.State, target: M.State)
    requires target != M.Complete
    ensures var after := Transition(w, m, expected, target);
      after.Some? ==> CompletesNothing(w, after.value)
  {
  }

  lemma EnvCompletesNothing(w: World, act: EnvAction)
    requires RowsWellFormed(w)
    ensures CompletesNothing(w, StepEnv(w, act))
  {
    if act.MoveMilestone? {
      if act.m in w.t.milestones {
        var row := w.t.milestones[act.m].row;
        if act.target == M.Complete {
          assert M.WellFormed(row);
          assert M.Apply(row, row.state, M.Complete).Success? ==> row.state == M.MergeVerify;
        } else {
          TransitionCompletesNothing(w, act.m, row.state, act.target);
        }
      }
    } else {
      assert StepEnv(w, act).t.milestones == w.t.milestones;
    }
  }

  lemma PrepareCompletesNothing(w: World, id: WorkerId, pc: Pc, act: PrepareAction)
    ensures CompletesNothing(w, StepPrepare(w, id, pc, act))
  {
    if pc.PrepFetched? && act.CommitIntent? {
      InsertIntentCompletesNothing(w, pc.r, act.evaluation);
    } else {
      assert StepPrepare(w, id, pc, act).t == w.t;
    }
  }

  lemma InsertIntentCompletesNothing(w: World, r: P.Request, evaluation: P.Evaluation)
    ensures CompletesNothing(w, InsertIntent(w, r, evaluation))
  {
    var inserted := w.(attempts := w.attempts + [P.AttemptOf(r, evaluation)]);
    TransitionCompletesNothing(inserted, r.milestone, M.MergeReady, M.Merging);
  }

  lemma ReportedCompletesNothing(w: World, a: nat, status: P.MergeStatus)
    requires a < |w.attempts|
    ensures CompletesNothing(w, Reported(w, a, status))
  {
    if status == P.MergedStatus {
      TransitionCompletesNothing(w, w.attempts[a].milestone, M.Merging, M.MergeVerify);
    } else if status != P.Unknown {
      var updated := SetStatusIfRequested(w, a, status);
      TransitionCompletesNothing(updated, w.attempts[a].milestone, M.Merging, M.Blocked);
      assert updated.t == w.t;
    }
  }

  lemma ReportCompletesNothing(w: World, id: WorkerId, a: nat, status: P.MergeStatus)
    requires a < |w.attempts|
    ensures CompletesNothing(w, Goto(Reported(w, a, status), id, Idle))
  {
    ReportedCompletesNothing(w, a, status);
    forall m ensures !Newly(w, Goto(Reported(w, a, status), id, Idle), m) {
      assert !Newly(w, Reported(w, a, status), m);
    }
  }

  lemma ExecuteCompletesNothing(w: World, id: WorkerId, pc: Pc, act: ExecuteAction)
    ensures CompletesNothing(w, StepExecute(w, id, pc, act))
  {
    if act.Reject? {
      if pc.ExecRejecting? && pc.a < |w.attempts| { ReportCompletesNothing(w, id, pc.a, P.Rejected); }
    } else if act.Adopt? {
      if pc.ExecSawMerged? && pc.a < |w.attempts| { ReportCompletesNothing(w, id, pc.a, P.MergedStatus); }
    } else if act.Finish? {
      if pc.Replied? && pc.a < |w.attempts| { ReportCompletesNothing(w, id, pc.a, pc.status); }
    } else {
      ExecuteElsewhere(w, id, pc, act);
    }
  }

  lemma CompletionProves(w: World, id: WorkerId, a: nat, from: set<P.MergeStatus>)
    requires a < |w.attempts| && P.Requested in from && from <= {P.Requested, P.Unknown}
    requires PastMerging(w, a) && Observed(w, a, P.Merged)
    ensures Completes(w, Goto(Completed(w, a, from), id, Idle))
  {
    CompletedIs(w, a, from);
    var after := Goto(Completed(w, a, from), id, Idle);
    if Completed(w, a, from) != w {
      assert after.provider == w.provider;
      assert Proves(after, w.attempts[a].milestone, a);
    }
  }

  lemma VerifyCompletes(w: World, id: WorkerId, pc: Pc, act: VerifyAction)
    requires PcOk(w, pc)
    ensures Completes(w, StepVerify(w, id, pc, act))
  {
    if pc.VerifySaw? && act.CommitVerified? {
      CompletionProves(w, id, pc.a, {P.Requested});
    } else {
      assert StepVerify(w, id, pc, act).t == w.t;
    }
  }

  lemma AdvanceCompletesNothing(w: World, id: WorkerId, pc: Pc)
    requires pc.RecoverSaw?
    ensures CompletesNothing(w, StepRecover(w, id, pc, Advance))
  {
    if pc.a < |w.attempts| { TransitionCompletesNothing(w, w.attempts[pc.a].milestone, M.Merging, M.MergeVerify); }
  }

  lemma RecoverCompletes(w: World, id: WorkerId, pc: Pc, act: RecoverAction)
    requires PcOk(w, pc)
    ensures Completes(w, StepRecover(w, id, pc, act))
  {
    if pc.RecoverConfirmed? && act.CommitRecovered? {
      CompletionProves(w, id, pc.a, {P.Requested, P.Unknown});
    } else if pc.RecoverSaw? && act.Advance? {
      AdvanceCompletesNothing(w, id, pc);
    } else {
      assert StepRecover(w, id, pc, act).t == w.t;
    }
  }

  lemma StepCompletes(w: World, act: Action)
    requires PcsOk(w) && RowsWellFormed(w)
    ensures Completes(w, Step(w, act))
  {
    match act
    case Env(env) => EnvCompletesNothing(w, env);
    case Prepare(id, prepare) => PrepareCompletesNothing(w, id, PcOf(w, id), prepare);
    case Execute(id, execute) => ExecuteCompletesNothing(w, id, PcOf(w, id), execute);
    case Verify(id, verify) => VerifyCompletes(w, id, PcOf(w, id), verify);
    case Recover(id, recover) => RecoverCompletes(w, id, PcOf(w, id), recover);
  }

  /** COMPLETE means proven merged; MERGED means COMPLETE. */
  ghost predicate OutcomesOk(w: World) {
    && (forall m :: m in w.t.milestones && w.t.milestones[m].row.state == M.Complete ==>
         exists a: nat :: Proves(w, m, a))
    && (forall a :: 0 <= a < |w.attempts| && w.attempts[a].status == P.MergedStatus ==> InState(w, a, M.Complete))
  }

  lemma ProofStays(before: World, after: World, m: P.Id, a: nat)
    requires Grows(before, after) && StatusMoves(before, after) && Proves(before, m, a)
    ensures Proves(after, m, a)
  {
    ObservedStays(before, after, a);
    assert SameAttempt(before.attempts[a], after.attempts[a]) && StatusMove(before, after, a);
  }

  lemma CompleteIsFinal(before: World, after: World, m: P.Id)
    requires Moves(before, after) && m in before.t.milestones && before.t.milestones[m].row.state == M.Complete
    ensures m in after.t.milestones && after.t.milestones[m].row.state == M.Complete
  {
    assert RowMoves(before.t.milestones[m].row, after.t.milestones[m].row);
  }

  lemma KeepsMerged(before: World, after: World, a: nat)
    requires OutcomesOk(before) && a < |before.attempts| && a < |after.attempts|
    requires Moves(before, after) && StatusMove(before, after, a)
    requires before.attempts[a].milestone == after.attempts[a].milestone
    requires after.attempts[a].status == P.MergedStatus
    ensures InState(after, a, M.Complete)
  {
    if before.attempts[a].status == P.MergedStatus {
      assert InState(before, a, M.Complete);
      CompleteIsFinal(before, after, before.attempts[a].milestone);
    }
  }

  lemma KeepsProven(before: World, after: World, m: P.Id)
    requires OutcomesOk(before) && Completes(before, after) && Grows(before, after) && StatusMoves(before, after)
    requires m in after.t.milestones && after.t.milestones[m].row.state == M.Complete
    ensures exists a: nat :: Proves(after, m, a)
  {
    if !Newly(before, after, m) {
      var a: nat :| Proves(before, m, a);
      ProofStays(before, after, m, a);
    }
  }

  lemma MergedIsOld(before: World, after: World, a: nat)
    requires Adds(before, after) && a < |after.attempts| && after.attempts[a].status == P.MergedStatus
    ensures a < |before.attempts|
  {
  }

  lemma SameMilestone(before: World, after: World, a: nat)
    requires Grows(before, after) && a < |before.attempts|
    ensures a < |after.attempts| && after.attempts[a].milestone == before.attempts[a].milestone
  {
    assert SameAttempt(before.attempts[a], after.attempts[a]);
  }

  lemma KeepsOutcomes(before: World, after: World)
    requires OutcomesOk(before) && Completes(before, after)
    requires Grows(before, after) && Moves(before, after) && StatusMoves(before, after) && Adds(before, after)
    ensures OutcomesOk(after)
  {
    forall m | m in after.t.milestones && after.t.milestones[m].row.state == M.Complete
      ensures exists a: nat :: Proves(after, m, a)
    {
      KeepsProven(before, after, m);
    }
    forall a | 0 <= a < |after.attempts| && after.attempts[a].status == P.MergedStatus
      ensures InState(after, a, M.Complete)
    {
      MergedIsOld(before, after, a);
      SameMilestone(before, after, a);
      assert StatusMove(before, after, a);
      KeepsMerged(before, after, a);
    }
  }

  // ------------------------------------------------------------------ every reachable state

  ghost predicate Invariant(w: World) {
    AttemptsOk(w) && OneSlot(w) && PutsOk(w) && PcsOk(w) && OutcomesOk(w)
  }

  lemma StepKeepsInvariant(w: World, act: Action)
    requires Invariant(w)
    ensures Invariant(Step(w, act))
  {
    var after := Step(w, act);
    StepGrows(w, act);
    StepMoves(w, act);
    StepAdds(w, act);
    StepStatus(w, act);
    StepArrives(w, act);
    StepCompletes(w, act);
    KeepsPuts(w, act);
    KeepsFromRelations(w, after);
  }

  lemma KeepsFromRelations(before: World, after: World)
    requires Invariant(before) && PutsOk(after)
    requires Grows(before, after) && Moves(before, after) && Adds(before, after)
    requires StatusMoves(before, after) && Arrives(before, after) && Completes(before, after)
    ensures Invariant(after)
  {
    KeepsAttempts(before, after);
    KeepsSlot(before, after);
    KeepsPcs(before, after);
    KeepsOutcomes(before, after);
  }

  lemma {:induction false} Reachable(run: seq<World>, acts: seq<Action>, n: nat)
    requires IsRun(run, acts) && Initial(run[0]) && n < |run|
    ensures Invariant(run[n])
  {
    if n > 0 {
      Reachable(run, acts, n - 1);
      StepKeepsInvariant(run[n - 1], acts[n - 1]);
      assert run[n - 1 + 1] == Step(run[n - 1], acts[n - 1]);
    }
  }

  // ------------------------------------------------------------------ the safety theorems

  /** Over every run, with crashes, replays, concurrent workers, and late, lost or lying
      provider replies: one merge attempt per milestone, and one open merge overall. */
  lemma OneAttemptPerMilestone(run: seq<World>, acts: seq<Action>, n: nat)
    requires IsRun(run, acts) && Initial(run[0]) && n < |run|
    ensures forall i, j :: 0 <= i < j < |run[n].attempts| ==>
      run[n].attempts[i].milestone != run[n].attempts[j].milestone
    ensures OneSlot(run[n])
  {
    Reachable(run, acts, n);
  }

  /** The PUT is its attempt's own: its pull request, and the head of its eligible evaluation. */
  ghost predicate OwnPut(w: World, put: Put) {
    && put.attempt < |w.attempts| && w.attempts[put.attempt].evaluation.eligible
    && put.key == KeyOf(w.attempts[put.attempt].evaluation.request)
    && put.head == w.attempts[put.attempt].evaluation.request.head
  }

  ghost predicate DifferentMilestones(w: World, put: Put, other: Put) {
    && put.attempt < |w.attempts| && other.attempt < |w.attempts|
    && w.attempts[put.attempt].milestone != w.attempts[other.attempt].milestone
  }

  /** At most one PUT is ever sent per milestone, and it names that attempt's pull request
      and the head its eligible evaluation was made for. */
  lemma OnePutPerMilestone(run: seq<World>, acts: seq<Action>, n: nat)
    requires IsRun(run, acts) && Initial(run[0]) && n < |run|
    ensures forall k :: 0 <= k < |run[n].sent| ==> OwnPut(run[n], run[n].sent[k])
    ensures forall k, l :: 0 <= k < l < |run[n].sent| ==> DifferentMilestones(run[n], run[n].sent[k], run[n].sent[l])
    ensures forall put :: put in run[n].inFlight ==> put in run[n].sent
  {
    Reachable(run, acts, n);
    var w := run[n];
    forall k | 0 <= k < |w.sent| ensures OwnPut(w, w.sent[k]) {
      assert AttemptOk(w, w.sent[k].attempt);
    }
  }

  /** A completed milestone has its one attempt, whose pull request the provider holds as
      merged at exactly the attempt's head; and an attempt marked merged has completed. */
  lemma CompletionIsProven(run: seq<World>, acts: seq<Action>, n: nat, m: P.Id)
    requires IsRun(run, acts) && Initial(run[0]) && n < |run| && m in run[n].t.milestones
    ensures run[n].t.milestones[m].row.state == M.Complete ==> exists a: nat :: Proves(run[n], m, a)
    ensures forall attempt :: attempt in run[n].attempts && attempt.milestone == m ==>
      (attempt.status == P.MergedStatus ==> run[n].t.milestones[m].row.state == M.Complete)
  {
    Reachable(run, acts, n);
  }

  // ------------------------------------------------------------------ COMPLETE exactly when MERGED

  /** A milestone is complete exactly when its attempt is marked merged. */
  ghost predicate Exact(w: World) {
    forall a :: 0 <= a < |w.attempts| ==> (w.attempts[a].status == P.MergedStatus <==> InState(w, a, M.Complete))
  }

  /** The one way to lose that: `verify` commits after another worker gave up on the attempt,
      so its guarded update touches no row while the milestone still completes. */
  ghost predicate Spoils(w: World, act: Action) {
    && act.Verify? && act.verify.CommitVerified? && PcOf(w, act.id).VerifySaw?
    && var a := PcOf(w, act.id).a;
       a < |w.attempts| && w.attempts[a].status != P.Requested && SaveAccepted(w, a) && InState(w, a, M.MergeVerify)
  }

  ghost predicate CompletesExactly(before: World, after: World) {
    forall m :: Newly(before, after, m) ==>
      exists a: nat :: Proves(after, m, a) && after.attempts[a].status == P.MergedStatus
  }

  lemma CompletionIsExact(w: World, id: WorkerId, a: nat, from: set<P.MergeStatus>)
    requires a < |w.attempts| && P.Requested in from && from <= {P.Requested, P.Unknown}
    requires PastMerging(w, a) && Observed(w, a, P.Merged)
    requires w.attempts[a].status in from + {P.MergedStatus}
    ensures CompletesExactly(w, Goto(Completed(w, a, from), id, Idle))
  {
    CompletedIs(w, a, from);
    if Completed(w, a, from) != w { CompletedByIsExact(w, Completed(w, a, from), id, a, from); }
  }

  lemma CompletedByIsExact(w: World, completed: World, id: WorkerId, a: nat, from: set<P.MergeStatus>)
    requires a < |w.attempts| && CompletedBy(w, completed, a, from)
    requires Known(w, a) && Observed(w, a, P.Merged) && w.attempts[a].status in from + {P.MergedStatus}
    ensures CompletesExactly(w, Goto(completed, id, Idle))
  {
    var after := Goto(completed, id, Idle);
    assert Observed(after, a, P.Merged);
    assert Proves(after, w.attempts[a].milestone, a);
  }

  lemma StepCompletesExactly(w: World, act: Action)
    requires PcsOk(w) && RowsWellFormed(w) && OutcomesOk(w) && !Spoils(w, act)
    ensures CompletesExactly(w, Step(w, act))
  {
    match act
    case Env(env) => EnvCompletesNothing(w, env);
    case Prepare(id, prepare) => PrepareCompletesNothing(w, id, PcOf(w, id), prepare);
    case Execute(id, execute) => ExecuteCompletesNothing(w, id, PcOf(w, id), execute);
    case Verify(id, verify) => VerifyCompletesExactly(w, id, PcOf(w, id), verify);
    case Recover(id, recover) => RecoverCompletesExactly(w, id, PcOf(w, id), recover);
  }

  lemma VerifyCompletesExactly(w: World, id: WorkerId, pc: Pc, act: VerifyAction)
    requires PcOk(w, pc) && pc == PcOf(w, id) && !Spoils(w, Verify(id, act))
    ensures CompletesExactly(w, StepVerify(w, id, pc, act))
  {
    if pc.VerifySaw? && act.CommitVerified? {
      CommitCompletesExactly(w, id, pc.a);
    } else {
      assert StepVerify(w, id, pc, act).t == w.t;
    }
  }

  lemma CommitCompletesExactly(w: World, id: WorkerId, a: nat)
    requires PastMerging(w, a) && Observed(w, a, P.Merged)
    requires w.attempts[a].status == P.Requested || !SaveAccepted(w, a) || !InState(w, a, M.MergeVerify)
    ensures CompletesExactly(w, Goto(Completed(w, a, {P.Requested}), id, Idle))
  {
    CompletedIs(w, a, {P.Requested});
    if w.attempts[a].status == P.Requested { CompletionIsExact(w, id, a, {P.Requested}); }
  }

  lemma RecoverCompletesExactly(w: World, id: WorkerId, pc: Pc, act: RecoverAction)
    requires PcOk(w, pc)
    ensures CompletesExactly(w, StepRecover(w, id, pc, act))
  {
    if pc.RecoverConfirmed? && act.CommitRecovered? {
      CompletionIsExact(w, id, pc.a, {P.Requested, P.Unknown});
    } else if pc.RecoverSaw? && act.Advance? {
      AdvanceCompletesNothing(w, id, pc);
    } else {
      assert StepRecover(w, id, pc, act).t == w.t;
    }
  }

  lemma KeepsExact(before: World, after: World)
    requires Invariant(before) && Invariant(after) && CompletesExactly(before, after) && Exact(before)
    requires Grows(before, after) && Moves(before, after) && StatusMoves(before, after) && Adds(before, after)
    ensures Exact(after)
  {
    forall a | 0 <= a < |after.attempts|
      ensures after.attempts[a].status == P.MergedStatus <==> InState(after, a, M.Complete)
    {
      if InState(after, a, M.Complete) {
        var m := after.attempts[a].milestone;
        if Newly(before, after, m) {
          var b: nat :| Proves(after, m, b) && after.attempts[b].status == P.MergedStatus;
          assert a == b;
        } else {
          NotNewlyAdded(before, after, a);
          assert StatusMove(before, after, a) && SameAttempt(before.attempts[a], after.attempts[a]);
          assert InState(before, a, M.Complete);
        }
      }
    }
  }

  lemma NotNewlyAdded(before: World, after: World, a: nat)
    requires Adds(before, after) && a < |after.attempts| && InState(after, a, M.Complete)
    requires !Newly(before, after, after.attempts[a].milestone)
    ensures a < |before.attempts|
  {
  }

  lemma ExactnessIsNeverRegained(before: World, after: World)
    requires Grows(before, after) && Moves(before, after) && StatusMoves(before, after) && Invariant(before)
    requires Exact(after)
    ensures Exact(before)
  {
    forall a | 0 <= a < |before.attempts|
      ensures before.attempts[a].status == P.MergedStatus <==> InState(before, a, M.Complete)
    {
      assert StatusMove(before, after, a) && SameAttempt(before.attempts[a], after.attempts[a]);
      if InState(before, a, M.Complete) {
        assert RowMoves(RowOf(before, a), RowOf(after, a));
      }
    }
  }

  lemma SpoilingCompletion(w: World, completed: World, id: WorkerId, a: nat)
    requires a < |w.attempts| && w.attempts[a].status == P.Unknown
    requires CompletedBy(w, completed, a, {P.Requested})
    ensures !Exact(Goto(completed, id, Idle))
  {
    var after := Goto(completed, id, Idle);
    assert after.attempts == w.attempts && InState(after, a, M.Complete);
  }

  lemma SpoiltIsUnknown(w: World, act: Action)
    requires PcsOk(w) && OutcomesOk(w) && Spoils(w, act)
    ensures w.attempts[PcOf(w, act.id).a].status == P.Unknown
  {
    assert PcOk(w, PcOf(w, act.id));
  }

  lemma SpoilingStep(w: World, act: Action)
    requires PcsOk(w) && OutcomesOk(w) && Spoils(w, act)
    ensures !Exact(Step(w, act))
  {
    SpoiltIsUnknown(w, act);
    var a := PcOf(w, act.id).a;
    CompletedIs(w, a, {P.Requested});
    SpoilingCompletion(w, Completed(w, a, {P.Requested}), act.id, a);
    SpoiltStepIs(w, act, a);
  }

  lemma SpoiltStepIs(w: World, act: Action, a: nat)
    requires Spoils(w, act) && a == PcOf(w, act.id).a
    ensures Step(w, act) == Goto(Completed(w, a, {P.Requested}), act.id, Idle)
  {
  }

  lemma StepExact(w: World, act: Action)
    requires Invariant(w)
    ensures Exact(Step(w, act)) <==> Exact(w) && !Spoils(w, act)
  {
    var after := Step(w, act);
    StepGrows(w, act);
    StepMoves(w, act);
    StepAdds(w, act);
    StepStatus(w, act);
    StepKeepsInvariant(w, act);
    if Exact(after) { ExactnessIsNeverRegained(w, after); }
    if Spoils(w, act) {
      SpoilingStep(w, act);
    } else {
      StepCompletesExactly(w, act);
      if Exact(w) { KeepsExact(w, after); }
    }
  }

  lemma ExactStep(run: seq<World>, acts: seq<Action>, n: nat)
    requires IsRun(run, acts) && Initial(run[0]) && n < |acts|
    ensures Exact(run[n + 1]) <==> Exact(run[n]) && !Spoils(run[n], acts[n])
  {
    Reachable(run, acts, n);
    StepExact(run[n], acts[n]);
    assert run[n + 1] == Step(run[n], acts[n]);
  }

  ghost predicate NeverSpoilt(run: seq<World>, acts: seq<Action>, n: nat)
    requires n <= |acts| < |run|
  {
    forall k :: 0 <= k < n ==> !Spoils(run[k], acts[k])
  }

  /** COMPLETE and MERGED agree in a reachable state exactly when no step before spoilt them. */
  lemma {:induction false} ExactRuns(run: seq<World>, acts: seq<Action>, n: nat)
    requires IsRun(run, acts) && Initial(run[0]) && n < |run|
    ensures Exact(run[n]) <==> NeverSpoilt(run, acts, n)
  {
    if n > 0 {
      ExactRuns(run, acts, n - 1);
      ExactStep(run, acts, n - 1);
      NeverSpoiltStep(run, acts, n - 1);
    } else {
      assert run[0].attempts == [];
    }
  }

  lemma NeverSpoiltStep(run: seq<World>, acts: seq<Action>, n: nat)
    requires n < |acts| < |run|
    ensures NeverSpoilt(run, acts, n + 1) <==> NeverSpoilt(run, acts, n) && !Spoils(run[n], acts[n])
  {
  }
}
