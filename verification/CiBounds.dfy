/** What bounds and what justifies the CI loop, over whole sequences of reconciliations. */
module CiBounds {
  import opened Wrappers
  import M = MilestoneMachine
  import opened CiPolicy
  import opened CiMonitor

  // ------------------------------------------------------------------ the undecided streak

  /** Evidence that decides nothing: no required check is conclusive, or the provider failed. */
  predicate Undecided(evidence: Evidence) {
    evidence.Broke? || StatusOf(evidence.observation) == Unknown
  }

  /** The head stays the same and nobody interferes. */
  predicate Steady(i: Input, head: Sha) {
    && i.live == Some(head) && i.final == Some(head) && i.during.None?
    && (i.expected.Some? ==> i.expected == Some(head))
  }

  /** Nothing was recorded for the head at or after `now`, and no conclusion yet. */
  predicate Pending(s: State, head: Sha, now: int) {
    var prior := Latest(s.runs, head);
    prior.Some? ==> prior.value.lastCheckedAt < now && !Terminal(prior.value.status)
  }

  function Retries(s: State, head: Sha): nat {
    if Latest(s.runs, head).Some? then Latest(s.runs, head).value.retryCount else 0
  }

  function Count(s: State, head: Sha): nat {
    if Latest(s.runs, head).Some? then Latest(s.runs, head).value.unknownCount else 0
  }

  function Positive(n: int): nat { if n < 0 then 0 else n }

  /** How many more undecided reconciliations the budgets allow. */
  function Budget(p: Policies, s: State, head: Sha): nat {
    Positive(p.missing.maxObservations - 1 - Count(s, head)) + Positive(|p.delays| - Retries(s, head))
  }

  /** Every undecided reconciliation blocks the milestone or uses up one unit of budget. */
  lemma UndecidedSpends(p: Policies, s: State, i: Input, head: Sha)
    requires Guard(s) && M.WellFormed(s.milestone) && Steady(i, head) && Undecided(i.evidence) && Pending(s, head, i.now)
    ensures var t := After(p, s, i);
      && Latest(t.runs, head).Some? && Latest(t.runs, head).value.lastCheckedAt == i.now
      && Latest(t.runs, head).value.status == Unknown
      && t.open && t.building && M.WellFormed(t.milestone)
      && (t.milestone == M.Row(M.Blocked, Some(M.CiRunning))
          || (t.milestone == s.milestone && Budget(p, t, head) + 1 == Budget(p, s, head)))
  {
    var prior := Latest(s.runs, head);
    var run := EvidenceRun(p, prior, i.evidence, i.now);
    var t := After(p, s, i);
    assert t == s.(head := head, runs := Put(s.runs, head, run), milestone := Decided(s.milestone, run, i.evidence));
    assert Latest(t.runs, head) == Some(run);
    assert M.Apply(s.milestone, M.CiRunning, M.Blocked) == Success(M.Row(M.Blocked, Some(M.CiRunning)));
  }

  /** A run of the loop: each state is what the reconciliation before it leaves. */
  ghost predicate IsRun(p: Policies, run: seq<State>, inputs: seq<Input>) {
    && |run| == |inputs| + 1
    && forall k {:trigger After(p, run[k], inputs[k])} :: 0 <= k < |inputs| ==>
         run[k + 1] == After(p, run[k], inputs[k])
  }

  ghost predicate UndecidedStreak(inputs: seq<Input>, head: Sha) {
    && (forall k :: 0 <= k < |inputs| ==> Steady(inputs[k], head) && Undecided(inputs[k].evidence))
    && (forall k, l :: 0 <= k < l < |inputs| ==> inputs[k].now < inputs[l].now)
  }

  lemma {:induction false} StreakSpends(p: Policies, run: seq<State>, inputs: seq<Input>, head: Sha, n: nat)
    requires IsRun(p, run, inputs) && UndecidedStreak(inputs, head) && 0 < n <= |inputs|
    requires Guard(run[0]) && M.WellFormed(run[0].milestone) && Pending(run[0], head, inputs[0].now)
    ensures run[n].milestone.state == M.Blocked
      || (Guard(run[n]) && M.WellFormed(run[n].milestone)
          && (n < |inputs| ==> Pending(run[n], head, inputs[n].now))
          && Budget(p, run[n], head) + n == Budget(p, run[0], head))
  {
    if n > 1 { StreakSpends(p, run, inputs, head, n - 1); }
    assert run[n - 1 + 1] == After(p, run[n - 1], inputs[n - 1]);
    if run[n - 1].milestone.state != M.Blocked { UndecidedSpends(p, run[n - 1], inputs[n - 1], head); }
  }

  /** Waiting is bounded: whatever mixture of missing evidence and provider failures comes, at
      one head and with a clock that moves on, the milestone is BLOCKED after at most
      `maxObservations` plus as many reconciliations as there are retry delays. */
  lemma UndecidedStreakBlocks(p: Policies, run: seq<State>, inputs: seq<Input>, head: Sha)
    requires Sound(p) && IsRun(p, run, inputs) && UndecidedStreak(inputs, head)
    requires |inputs| >= p.missing.maxObservations + |p.delays|
    requires Guard(run[0]) && M.WellFormed(run[0].milestone) && Pending(run[0], head, inputs[0].now)
    ensures run[|inputs|].milestone.state == M.Blocked
  {
    StreakSpends(p, run, inputs, head, |inputs|);
  }

  /** An undecided observation blocks exactly at the deadline or at the last one allowed. */
  lemma ObservationBlocksIff(p: Policies, s: State, i: Input, head: Sha)
    requires Guard(s) && M.WellFormed(s.milestone) && Steady(i, head) && Pending(s, head, i.now)
    requires i.evidence.Saw? && StatusOf(i.evidence.observation) == Unknown
    ensures After(p, s, i).milestone.state == M.Blocked <==>
      || Count(s, head) + 1 >= p.missing.maxObservations
      || i.now >= Latest(After(p, s, i).runs, head).value.unknownDeadline.value
  {
    UndecidedSpends(p, s, i, head);
    var run := EvidenceRun(p, Latest(s.runs, head), i.evidence, i.now);
    assert After(p, s, i).milestone == Decided(s.milestone, run, i.evidence);
    assert Latest(After(p, s, i).runs, head) == Some(run);
  }

  /** A provider failure blocks exactly when the retry schedule is used up. */
  lemma FailureBlocksIff(p: Policies, s: State, i: Input, head: Sha)
    requires Guard(s) && M.WellFormed(s.milestone) && Steady(i, head) && Pending(s, head, i.now) && i.evidence.Broke?
    ensures After(p, s, i).milestone.state == M.Blocked <==> Retries(s, head) >= |p.delays|
    ensures Retries(After(p, s, i), head) == Retries(s, head) + 1
    ensures Count(After(p, s, i), head) == Count(s, head)
  {
    UndecidedSpends(p, s, i, head);
    var run := EvidenceRun(p, Latest(s.runs, head), i.evidence, i.now);
    assert After(p, s, i).milestone == Decided(s.milestone, run, i.evidence);
    assert Latest(After(p, s, i).runs, head) == Some(run);
  }

  // ------------------------------------------------------------------ schedules

  /** Whatever is scheduled lies strictly in the future, and for undecided observations no
      later than the deadline of the grace period. */
  lemma NextCheckIsAhead(p: Policies, prior: Option<CiRun>, evidence: Evidence, now: int)
    requires Sound(p) && (prior.Some? ==> prior.value.lastCheckedAt < now)
    ensures var run := EvidenceRun(p, prior, evidence, now);
      && (run.nextCheckAt.Some? ==> run.nextCheckAt.value > now)
      && (evidence.Saw? && run.status == Unknown && run.nextCheckAt.Some? ==>
            run.unknownDeadline.Some? && run.nextCheckAt.value <= run.unknownDeadline.value)
  {
    assert forall k :: 0 <= k < |p.delays| ==> p.delays[k] in p.delays;
  }

  /** The deadline, once set, stays where it is through any number of undecided steps. */
  lemma DeadlineIsFixed(p: Policies, prior: CiRun, evidence: Evidence, now: int)
    requires Undecided(evidence) && prior.unknownDeadline.Some? && prior.unknownSince.Some?
    ensures EvidenceRun(p, Some(prior), evidence, now).unknownDeadline == prior.unknownDeadline
    ensures EvidenceRun(p, Some(prior), evidence, now).unknownSince == prior.unknownSince
  {
  }

  // ------------------------------------------------------------------ the shared retry budget

  /** A scheduled rerun still has a retry left, and there are no more rows than retries. */
  ghost predicate BudgetOk(p: Policies, s: State, head: Sha) {
    head in s.runs ==>
      && s.runs[head] != []
      && |s.runs[head]| <= 1 + Retries(s, head) && |s.runs[head]| <= 1 + |p.delays|
      && (var run := Latest(s.runs, head).value;
          Terminal(run.status) && Retryable(run) && run.nextCheckAt.Some? ==> run.retryCount < |p.delays|)
  }

  /** Retries are never given back, at most one is spent, and a new row spends one. */
  ghost predicate Spends(p: Policies, s: State, t: State, head: Sha) {
    && BudgetOk(p, t, head)
    && Retries(s, head) <= Retries(t, head) <= Retries(s, head) + 1
    && Rows(s, head) <= Rows(t, head) <= Rows(s, head) + 1
    && (0 < Rows(s, head) < Rows(t, head) ==>
         Retries(s, head) < |p.delays| && Retries(t, head) == Retries(s, head) + 1)
  }

  function Rows(s: State, head: Sha): nat { if head in s.runs then |s.runs[head]| else 0 }

  /** One reconciliation starts at most one rerun at a head, never gives a retry back, and
      spends exactly one when it reruns. */
  lemma ReconciliationSpends(p: Policies, s: State, i: Input, head: Sha)
    requires BudgetOk(p, s, head)
    ensures Spends(p, s, After(p, s, i), head)
  {
    if Guard(s) && i.live.Some? && (i.expected.None? || i.expected == i.live) && i.final.Some? {
      var disturbed := Disturbed(s.(head := i.live.value), i.during);
      if Guard(disturbed) && disturbed.head == i.live.value {
        ConcludedSpends(p, disturbed, i.live.value, i.final.value, i, head);
      }
    }
  }

  lemma ConcludedSpends(p: Policies, s: State, live: Sha, final: Sha, i: Input, head: Sha)
    requires BudgetOk(p, s, head) && s.head == live
    ensures Spends(p, s, Concluded(p, s, live, final, i), head)
  {
    var prior := Latest(s.runs, live);
    if prior.Some? && Terminal(prior.value.status) {
      if final == live { ReusedSpends(p, s, prior.value, i, head); }
    } else {
      EvidenceSpends(p, s, live, i, head);
      var run := EvidenceRun(p, prior, i.evidence, i.now);
      assert Concluded(p, s, live, final, i).runs == Put(s.runs, live, run);
    }
  }

  lemma EvidenceSpends(p: Policies, s: State, live: Sha, i: Input, head: Sha)
    requires BudgetOk(p, s, head)
    requires Latest(s.runs, live).Some? ==> !Terminal(Latest(s.runs, live).value.status)
    ensures Spends(p, s, s.(runs := Put(s.runs, live, EvidenceRun(p, Latest(s.runs, live), i.evidence, i.now))), head)
  {
    var run := EvidenceRun(p, Latest(s.runs, live), i.evidence, i.now);
    PutIsLatest(s.runs, live, run);
  }

  lemma ReusedSpends(p: Policies, s: State, prior: CiRun, i: Input, head: Sha)
    requires BudgetOk(p, s, head) && Latest(s.runs, s.head) == Some(prior) && Terminal(prior.status)
    ensures Spends(p, s, Reused(p, s, prior, i), head)
  {
    var queued := CiRun(Queued, None, prior.workflows, i.now, i.now, prior.retryCount + 1,
      Some(PollAt(p.polling, i.now, i.now)), None, None, 0, None);
    PutIsLatest(s.runs, s.head, queued);
  }

  /** How often, in the first `n` steps, a retry was spent with another check scheduled. */
  ghost function Spent(run: seq<State>, head: Sha, n: nat): nat
    requires n < |run|
  {
    if n == 0 then 0
    else if Retries(run[n], head) > Retries(run[n - 1], head) && Latest(run[n].runs, head).value.nextCheckAt.Some?
    then Spent(run, head, n - 1) + 1
    else Spent(run, head, n - 1)
  }

  lemma SpendingIsScheduled(p: Policies, s: State, i: Input, head: Sha)
    requires BudgetOk(p, s, head)
    requires Retries(After(p, s, i), head) > Retries(s, head)
    requires Latest(After(p, s, i).runs, head).value.nextCheckAt.Some?
    ensures Retries(s, head) < |p.delays|
  {
    ReconciliationSpends(p, s, i, head);
    if Guard(s) && i.live.Some? && (i.expected.None? || i.expected == i.live) && i.final.Some? {
      var disturbed := Disturbed(s.(head := i.live.value), i.during);
      if Guard(disturbed) && disturbed.head == i.live.value && head == i.live.value {
        var prior := Latest(s.runs, head);
        if prior.None? || !Terminal(prior.value.status) {
          var run := EvidenceRun(p, prior, i.evidence, i.now);
          PutIsLatest(s.runs, head, run);
        }
      } else if Guard(disturbed) && disturbed.head == i.live.value {
        OtherHeadUntouched(p, disturbed, i.live.value, i.final.value, i, head);
      }
    }
  }

  lemma OtherHeadUntouched(p: Policies, s: State, live: Sha, final: Sha, i: Input, head: Sha)
    requires s.head == live && head != live
    ensures Latest(Concluded(p, s, live, final, i).runs, head) == Latest(s.runs, head)
  {
  }

  /** One budget for both: over any sequence of reconciliations, disturbed in any way, through
      any blocks and resumes, the reruns and the provider failures at a head that schedule
      another check are together never more than there are retry delays. */
  lemma {:induction false} RetryBudgetIsShared(p: Policies, run: seq<State>, inputs: seq<Input>, head: Sha, n: nat)
    requires IsRun(p, run, inputs) && head !in run[0].runs && n < |run|
    ensures BudgetOk(p, run[n], head)
    ensures Spent(run, head, n) <= Retries(run[n], head) && Spent(run, head, n) <= |p.delays|
    ensures Rows(run[n], head) <= 1 + |p.delays|
  {
    if n > 0 {
      RetryBudgetIsShared(p, run, inputs, head, n - 1);
      assert run[n - 1 + 1] == After(p, run[n - 1], inputs[n - 1]);
      ReconciliationSpends(p, run[n - 1], inputs[n - 1], head);
      if Retries(run[n], head) > Retries(run[n - 1], head) && Latest(run[n].runs, head).value.nextCheckAt.Some? {
        SpendingIsScheduled(p, run[n - 1], inputs[n - 1], head);
      }
    }
  }

  lemma PutIsLatest(runs: map<Sha, seq<CiRun>>, head: Sha, run: CiRun)
    ensures Latest(Put(runs, head, run), head) == Some(run)
    ensures Latest(Append(runs, head, run), head) == Some(run)
    ensures forall other :: other != head ==> Latest(Put(runs, head, run), other) == Latest(runs, other)
    ensures forall other :: other != head ==> Latest(Append(runs, head, run), other) == Latest(runs, other)
  {
  }

  // ------------------------------------------------------------------ what moves the milestone

  /** A reconciliation whose head moved, before, during or after the evidence, decides nothing. */
  lemma MovedHeadDecidesNothing(p: Policies, s: State, i: Input)
    requires i.final != i.live || (i.during.Some? && Some(i.during.value.head) != i.live)
    ensures After(p, s, i).milestone == s.milestone
      || (i.during.Some? && After(p, s, i).milestone == i.during.value.milestone)
    ensures After(p, s, i).reruns == s.reruns
  {
  }

  /** A rerun is due but there is nothing to rerun. */
  predicate Stuck(prior: Option<CiRun>, now: int) {
    && prior.Some? && Terminal(prior.value.status) && Retryable(prior.value)
    && prior.value.nextCheckAt.Some? && prior.value.nextCheckAt.value <= now && prior.value.workflows == []
  }

  /** At a steady head the milestone's next state is read off the newest evidence: reviewed
      exactly on a pass, reworked exactly on a failure the code is to blame for, blocked exactly
      when nothing is decided and nothing more is scheduled, and otherwise it waits. */
  lemma EvidenceDecides(p: Policies, s: State, i: Input, head: Sha)
    requires Guard(s) && M.WellFormed(s.milestone) && Steady(i, head)
    ensures var t := After(p, s, i); Latest(t.runs, head).Some?
    ensures var t := After(p, s, i); var run := Latest(t.runs, head).value;
      && (t.milestone.state == M.ArchitectReview <==> run.status == Passed)
      && (t.milestone.state == M.CiRework <==> Target(run) == Some(M.CiRework))
      && (t.milestone.state == M.Blocked <==>
            (run.nextCheckAt.None? && (run.status == Unknown || Retryable(run))) || Stuck(Latest(s.runs, head), i.now))
      && t.milestone.state in {M.ArchitectReview, M.CiRework, M.Blocked, M.CiRunning}
      && t.head == head
  {
    var prior := Latest(s.runs, head);
    assert forall target :: target in {M.ArchitectReview, M.CiRework, M.Blocked} ==>
      Moved(s.milestone, target).state == target;
    if prior.Some? && Terminal(prior.value.status) {
      TerminalDecides(p, s, i, head);
    } else {
      var run := EvidenceRun(p, prior, i.evidence, i.now);
      PutIsLatest(s.runs, head, run);
      assert After(p, s, i)
        == s.(head := head, runs := Put(s.runs, head, run), milestone := Decided(s.milestone, run, i.evidence));
    }
  }

  lemma TerminalDecides(p: Policies, s: State, i: Input, head: Sha)
    requires Guard(s) && M.WellFormed(s.milestone) && Steady(i, head)
    requires Latest(s.runs, head).Some? && Terminal(Latest(s.runs, head).value.status)
    ensures var t := After(p, s, i); var prior := Latest(s.runs, head).value;
      && Latest(t.runs, head).Some? && t.head == head
      && (t.milestone.state == M.ArchitectReview <==> prior.status == Passed)
      && (t.milestone.state == M.CiRework <==> Target(prior) == Some(M.CiRework))
      && (t.milestone.state == M.Blocked <==>
            (Retryable(prior) && prior.nextCheckAt.None?) || Stuck(Some(prior), i.now))
      && t.milestone.state in {M.ArchitectReview, M.CiRework, M.Blocked, M.CiRunning}
      && (Latest(t.runs, head).value == prior
          || (Latest(t.runs, head).value.status == Queued && Latest(t.runs, head).value.nextCheckAt.Some?
              && Retryable(prior)))
  {
    var prior := Latest(s.runs, head).value;
    assert forall target :: target in {M.ArchitectReview, M.CiRework, M.Blocked} ==>
      Moved(s.milestone, target).state == target;
    var queued := CiRun(Queued, None, prior.workflows, i.now, i.now, prior.retryCount + 1,
      Some(PollAt(p.polling, i.now, i.now)), None, None, 0, None);
    PutIsLatest(s.runs, head, queued);
  }

  /** Every pass that is recorded was seen as one, at this head, by this reconciliation: a
      non-empty set of checks, each completed and passed. */
  lemma PassIsSeen(p: Policies, s: State, i: Input, head: Sha)
    requires Latest(After(p, s, i).runs, head).Some? && Latest(After(p, s, i).runs, head).value.status == Passed
    requires Latest(s.runs, head) != Latest(After(p, s, i).runs, head)
    ensures i.live == Some(head) && i.evidence.Saw? && i.evidence.observation.checks != []
    ensures forall c :: c in i.evidence.observation.checks ==> c == Check(CheckCompleted, Some(ConcludedPassed))
  {
    var disturbed := Disturbed(s.(head := i.live.value), i.during);
    assert After(p, s, i) == Concluded(p, disturbed, i.live.value, i.final.value, i);
    ConcludedPassIsSeen(p, disturbed, i.live.value, i.final.value, i, head);
    PassesOnlyOnProof(i.evidence.observation.checks);
  }

  lemma ConcludedPassIsSeen(p: Policies, s: State, live: Sha, final: Sha, i: Input, head: Sha)
    requires s.head == live
    requires var latest := Latest(Concluded(p, s, live, final, i).runs, head);
      latest.Some? && latest.value.status == Passed && latest != Latest(s.runs, head)
    ensures live == head && i.evidence.Saw? && Evaluate(i.evidence.observation.checks) == Passed
  {
    var prior := Latest(s.runs, live);
    if prior.Some? && Terminal(prior.value.status) {
      RerunIsQueued(p, s, prior.value, i, head);
    } else {
      PutIsLatest(s.runs, live, EvidenceRun(p, prior, i.evidence, i.now));
    }
  }

  lemma RerunIsQueued(p: Policies, s: State, prior: CiRun, i: Input, head: Sha)
    ensures var latest := Latest(Reused(p, s, prior, i).runs, head);
      latest == Latest(s.runs, head) || (latest.Some? && latest.value.status == Queued)
  {
    var queued := CiRun(Queued, None, prior.workflows, i.now, i.now, prior.retryCount + 1,
      Some(PollAt(p.polling, i.now, i.now)), None, None, 0, None);
    PutIsLatest(s.runs, s.head, queued);
  }

  /** Terminal evidence is immutable: no reconciliation changes or removes such a row. */
  lemma TerminalEvidenceStays(p: Policies, s: State, i: Input, head: Sha, k: nat)
    requires head in s.runs && k < |s.runs[head]| && Terminal(s.runs[head][k].status)
    ensures var t := After(p, s, i); head in t.runs && k < |t.runs[head]| && t.runs[head][k] == s.runs[head][k]
  {
    assert k == |s.runs[head]| - 1 ==> Latest(s.runs, head) == Some(s.runs[head][k]);
  }
}
