/** One global budget bounds the coding loop, and each entry gets one lifecycle job. */
module CodingBounds {
  import opened Wrappers
  import M = MilestoneMachine
  import opened CodingLoop

  // ------------------------------------------------------------------ the budget

  /** Workers that passed the budget check and have not started their process yet. */
  ghost function CheckedWorkers(w: World): set<nat> { set j | j in w.stages && w.stages[j].Checked? }

  ghost function RanWorkers(w: World): set<nat> { set j | j in w.stages && w.stages[j].Ran? }

  predicate IsCycle(e: Entry) { e.previous == M.Coding && e.state == M.ValidatingChanges }

  /** How often the milestone went from CODING to VALIDATING_CHANGES. */
  ghost function Cycles(entries: seq<Entry>): nat {
    if entries == [] then 0
    else Cycles(entries[..|entries| - 1]) + if IsCycle(entries[|entries| - 1]) then 1 else 0
  }

  lemma CyclesAppend(entries: seq<Entry>, e: Entry)
    ensures Cycles(entries + [e]) == Cycles(entries) + if IsCycle(e) then 1 else 0
  {
    assert (entries + [e])[..|entries|] == entries;
  }

  /** A step of anyone but a Codex worker leaves processes and stages alone, adds no cycle and
      lets no worker in. */
  ghost predicate Calm(before: World, after: World) {
    && after.limit == before.limit && |after.runs| == |before.runs|
    && CheckedWorkers(after) <= CheckedWorkers(before) && RanWorkers(after) <= RanWorkers(before)
    && Cycles(after.entries) == Cycles(before.entries)
  }

  lemma TransitionCycles(w: World, expected: M.State, target: M.State, job: Option<nat>, validation: Option<nat> := None)
    requires !(expected == M.Coding && target == M.ValidatingChanges)
    ensures var after := Transition(w, expected, target, job, validation); after.Some? ==> Calm(w, after.value)
  {
    CyclesAppend(w.entries, Entry(expected, target, w.now, job, validation));
  }

  lemma BlockCalm(w: World, job: Option<nat>)
    ensures Calm(w, Block(w, job).GetOr(w))
  {
    TransitionCycles(w, w.milestone.state, M.Blocked, job);
  }

  lemma TickCalm(w: World, kind: JobKind)
    ensures Calm(w, Ticked(w, kind))
  {
    BlockCalm(w, None);
  }

  lemma ReworkCalm(w: World, validation: nat)
    ensures Calm(w, Reworked(w, validation))
  {
    BlockCalm(w, None);
    TransitionCycles(w, M.ValidatingChanges, M.Coding, None, Some(validation));
  }

  lemma ReviewCalm(w: World, task: nat)
    ensures Calm(w, ReviewQueued(w, task))
  {
    var added := AddJob(w, Job(ReviewRework, Queued, None, None, Some(task), FromReview, w.now));
    TransitionCycles(added, M.ReviewRework, M.Coding, Some(|w.jobs|));
  }

  lemma ReplaceCalm(w: World, j: nat, clean: bool, accepted: bool)
    ensures Calm(w, Replaced(w, j, clean, accepted))
  {
    if j < |w.jobs| {
      var abandoned := w.(jobs := w.jobs[j := w.jobs[j].(state := Abandoned, updatedAt := w.now)]);
      BlockCalm(abandoned, Some(j));
    }
  }

  lemma OthersCalm(w: World, act: Action)
    requires !act.Begin? && !act.StartProcess? && !act.EndProcess?
    ensures Calm(w, Step(w, act))
  {
    match act
    case Tick(kind) => TickCalm(w, kind);
    case Rework(validation) => ReworkCalm(w, validation);
    case Review(task) => ReviewCalm(w, task);
    case Replace(j, clean, accepted) => ReplaceCalm(w, j, clean, accepted);
    case MoveMilestone(target) =>
      if !(w.milestone.state == M.Coding && target == M.ValidatingChanges) {
        TransitionCycles(w, w.milestone.state, target, None);
      }
    case _ =>
  }

  /** At most `k` workers are between their budget check and their process. */
  ghost predicate AtMost(w: World, k: nat) { |CheckedWorkers(w)| <= k }

  /** Every process was paid for, and every cycle spent one. */
  ghost predicate Bounded(w: World, k: nat) {
    && |w.runs| + |CheckedWorkers(w)| + 1 <= w.limit + k
    && Cycles(w.entries) + |RanWorkers(w)| <= |w.runs|
  }

  lemma Subset(a: set<nat>, b: set<nat>)
    requires a <= b
    ensures |a| <= |b|
  {
    assert b == a + (b - a);
  }

  lemma CalmKeepsBound(before: World, after: World, k: nat)
    requires Calm(before, after) && Bounded(before, k)
    ensures Bounded(after, k)
  {
    Subset(CheckedWorkers(after), CheckedWorkers(before));
    Subset(RanWorkers(after), RanWorkers(before));
  }

  /** Where a worker is let in, the budget check has just passed. */
  lemma BeginBounded(w: World, j: nat, k: nat)
    requires Bounded(w, k) && AtMost(Begun(w, j), k)
    ensures Bounded(Begun(w, j), k)
  {
    var after := Begun(w, j);
    if j < |w.jobs| && Codex(w.jobs[j].kind) && w.jobs[j].state == Queued {
      var started := w.(jobs := w.jobs[j := w.jobs[j].(state := Running, updatedAt := w.now)]);
      BlockCalm(started, Some(j));
      if w.building && w.milestone.state == M.Coding && |w.runs| < w.limit {
        assert after == started.(stages := started.stages[j := Checked]);
        assert RanWorkers(after) <= RanWorkers(w);
        Subset(RanWorkers(after), RanWorkers(w));
      } else {
        assert Calm(w, started);
        CalmKeepsBound(w, started, k);
        CalmKeepsBound(started, after, k);
      }
    }
  }

  lemma StartBounded(w: World, j: nat, k: nat)
    requires Bounded(w, k)
    ensures Bounded(ProcessStarted(w, j), k)
  {
    if j in w.stages && w.stages[j].Checked? {
      var after := ProcessStarted(w, j);
      assert CheckedWorkers(after) == CheckedWorkers(w) - {j};
      assert RanWorkers(after) == RanWorkers(w) + {j};
    }
  }

  lemma EndBounded(w: World, j: nat, succeeded: bool, changed: bool, k: nat)
    requires Bounded(w, k)
    ensures Bounded(ProcessEnded(w, j, succeeded, changed), k)
  {
    if j in w.stages && w.stages[j].Ran? && w.stages[j].run < |w.runs| {
      var r := w.stages[j].run;
      var done := w.(runs := w.runs[r := w.runs[r].(succeeded := Some(succeeded))], stages := w.stages - {j});
      assert CheckedWorkers(done) == CheckedWorkers(w);
      assert RanWorkers(done) == RanWorkers(w) - {j};
      assert Cycles(done.entries) + |RanWorkers(done)| + 1 <= |done.runs|;
      BlockCalm(done, Some(j));
      CalmKeepsBound(done, Block(done, Some(j)).GetOr(done), k);
      CyclesAppend(done.entries, Entry(M.Coding, M.ValidatingChanges, done.now, Some(j), None));
    }
  }

  lemma StepBounded(w: World, act: Action, k: nat)
    requires Bounded(w, k) && AtMost(Step(w, act), k)
    ensures Bounded(Step(w, act), k)
  {
    if act.Begin? {
      BeginBounded(w, act.j, k);
    } else if act.StartProcess? {
      StartBounded(w, act.j, k);
    } else if act.EndProcess? {
      EndBounded(w, act.j, act.succeeded, act.changed, k);
    } else {
      OthersCalm(w, act);
      CalmKeepsBound(w, Step(w, act), k);
    }
  }

  /** A fresh milestone. */
  ghost predicate Fresh(w: World) {
    w.runs == [] && w.stages == map[] && w.entries == [] && w.jobs == []
  }

  lemma StepKeepsLimit(w: World, act: Action)
    ensures Step(w, act).limit == w.limit
  {
  }

  lemma {:induction false} RunBounded(run: seq<World>, acts: seq<Action>, k: nat, n: nat)
    requires IsRun(run, acts) && Fresh(run[0]) && k >= 1 && n < |run|
    requires forall i :: 0 <= i < |run| ==> AtMost(run[i], k)
    ensures Bounded(run[n], k) && run[n].limit == run[0].limit
  {
    if n > 0 {
      hide Step, Bounded, CheckedWorkers, RanWorkers;
      RunBounded(run, acts, k, n - 1);
      assert run[n - 1 + 1] == Step(run[n - 1], acts[n - 1]);
      StepBounded(run[n - 1], acts[n - 1], k);
      StepKeepsLimit(run[n - 1], acts[n - 1]);
    } else {
      assert CheckedWorkers(run[0]) == {} && RanWorkers(run[0]) == {};
    }
  }

  /** Over a milestone's whole life, through first implementation, validation rework, review
      rework, recovery, blocks and resumes: with never more than `k` workers between their
      budget check and their process, at most `limit + k - 1` Codex processes are ever paid for,
      and the milestone goes from CODING to VALIDATING_CHANGES no more often than that. */
  lemma CodexIsBounded(run: seq<World>, acts: seq<Action>, k: nat, n: nat)
    requires IsRun(run, acts) && Fresh(run[0]) && k >= 1 && n < |run|
    requires forall i :: 0 <= i < |run| ==> AtMost(run[i], k)
    ensures |run[n].runs| <= run[0].limit + k - 1
    ensures Cycles(run[n].entries) <= |run[n].runs|
  {
    RunBounded(run, acts, k, n);
  }

  // ------------------------------------------------------------------ one job for each entry

  predicate ForEntry(job: Job, kind: JobKind, generation: nat) {
    job.origin == FromLifecycle && job.kind == kind && job.generation == Some(generation)
  }

  /** What no step changes in a job. */
  ghost predicate SameJob(before: Job, after: Job) {
    after == before.(state := after.state, updatedAt := after.updatedAt) && (!Active(before) ==> after == before)
  }

  ghost predicate JobsKept(before: World, after: World) {
    && |before.jobs| <= |after.jobs|
    && (forall j :: 0 <= j < |before.jobs| ==> SameJob(before.jobs[j], after.jobs[j]))
    && before.entries <= after.entries
  }

  /** A lifecycle job is new only when nothing of its kind for this entry exists. */
  ghost predicate AddsOnce(before: World, after: World) {
    && JobsKept(before, after)
    && forall j, kind, generation :: |before.jobs| <= j < |after.jobs| && ForEntry(after.jobs[j], kind, generation) ==>
         && |after.jobs| == |before.jobs| + 1 && generation == Generation(before)
         && forall i :: 0 <= i < |before.jobs| ==> !ForEntry(before.jobs[i], kind, generation)
  }

  lemma TickAddsOnce(w: World, kind: JobKind)
    ensures AddsOnce(w, Ticked(w, kind))
  {
    var after := Ticked(w, kind);
    if |after.jobs| > |w.jobs| {
      forall i | 0 <= i < |w.jobs| ensures !ForEntry(w.jobs[i], kind, Generation(w)) {
        assert !(w.jobs[i].kind == kind && Active(w.jobs[i]));
        assert !Spent(w.jobs[i], kind, Generation(w), Boundary(w));
      }
    }
  }

  /** Everyone but the coordinator adds no lifecycle job. */
  ghost predicate AddsNone(before: World, after: World) {
    && JobsKept(before, after)
    && forall j :: |before.jobs| <= j < |after.jobs| ==> after.jobs[j].origin != FromLifecycle
  }

  lemma BlockAddsNone(w: World, job: Option<nat>)
    ensures AddsNone(w, Block(w, job).GetOr(w))
  {
  }

  lemma ReworkAddsNone(w: World, validation: nat)
    ensures AddsNone(w, Reworked(w, validation))
  {
    BlockAddsNone(w, None);
  }

  lemma ReviewAddsNone(w: World, task: nat)
    ensures AddsNone(w, ReviewQueued(w, task))
  {
  }

  lemma BeginAddsNone(w: World, j: nat)
    ensures AddsNone(w, Begun(w, j))
  {
  }

  lemma EndAddsNone(w: World, j: nat, succeeded: bool, changed: bool)
    ensures AddsNone(w, ProcessEnded(w, j, succeeded, changed))
  {
  }

  lemma ReplaceAddsNone(w: World, j: nat, clean: bool, accepted: bool)
    ensures AddsNone(w, Replaced(w, j, clean, accepted))
  {
  }

  lemma StepAddsOnce(w: World, act: Action)
    ensures AddsOnce(w, Step(w, act))
  {
    match act
    case Tick(kind) => TickAddsOnce(w, kind);
    case Rework(validation) => ReworkAddsNone(w, validation);
    case Review(task) => ReviewAddsNone(w, task);
    case Begin(j) => BeginAddsNone(w, j);
    case EndProcess(j, succeeded, changed) => EndAddsNone(w, j, succeeded, changed);
    case Replace(j, clean, accepted) => ReplaceAddsNone(w, j, clean, accepted);
    case _ => RestAddsNone(w, act);
  }

  lemma RestAddsNone(w: World, act: Action)
    requires act.StartProcess? || act.Harvest? || act.Crash? || act.MoveMilestone? || act.SetBuilding? || act.Wait?
    ensures AddsNone(w, Step(w, act))
  {
  }

  ghost predicate OncePerEntry(w: World) {
    forall i, j, kind, generation :: 0 <= i < j < |w.jobs| && ForEntry(w.jobs[i], kind, generation) ==>
      !ForEntry(w.jobs[j], kind, generation)
  }

  lemma KeepsOncePerEntry(before: World, after: World)
    requires OncePerEntry(before) && AddsOnce(before, after)
    ensures OncePerEntry(after)
  {
    forall i, j, kind, generation | 0 <= i < j < |after.jobs| && ForEntry(after.jobs[i], kind, generation)
      ensures !ForEntry(after.jobs[j], kind, generation)
    {
      if j < |before.jobs| {
        assert SameJob(before.jobs[i], after.jobs[i]) && SameJob(before.jobs[j], after.jobs[j]);
        assert ForEntry(before.jobs[i], kind, generation);
      } else if i < |before.jobs| {
        assert SameJob(before.jobs[i], after.jobs[i]);
        assert ForEntry(before.jobs[i], kind, generation);
      }
    }
  }

  lemma StepKeepsOncePerEntry(w: World, act: Action)
    requires OncePerEntry(w)
    ensures OncePerEntry(Step(w, act))
  {
    hide Step;
    StepAddsOnce(w, act);
    KeepsOncePerEntry(w, Step(w, act));
  }

  /** However often the scheduler ticks, each entry of the milestone into CODING or
      VALIDATING_CHANGES gets at most one lifecycle job of a kind. */
  lemma {:induction false} OneJobPerEntry(run: seq<World>, acts: seq<Action>, n: nat)
    requires IsRun(run, acts) && Fresh(run[0]) && n < |run|
    ensures OncePerEntry(run[n])
  {
    if n > 0 {
      hide Step, OncePerEntry;
      OneJobPerEntry(run, acts, n - 1);
      StepKeepsOncePerEntry(run[n - 1], acts[n - 1]);
      assert run[n - 1 + 1] == Step(run[n - 1], acts[n - 1]);
    }
  }

  /** What a tick takes for a finished owner of the current entry: the newest review rework job
      where review rework owns CODING, and any job of the kind elsewhere. */
  predicate EntrySpent(w: World, kind: JobKind) {
    if kind == CodexRun && Owned(w) then
      var owner := NewestReview(w.jobs); owner.Some? && !Active(w.jobs[owner.value])
    else
      !SomeActive(w.jobs, kind) && SomeSpent(w.jobs, kind, Generation(w), Boundary(w))
  }

  /** A finished job for the current entry ends it: the next tick blocks the milestone and the
      project instead of queueing another. */
  lemma FinishedJobBlocks(w: World, kind: JobKind)
    requires kind != ReviewRework && M.WellFormed(w.milestone)
    requires w.milestone.state == Expected(kind) && w.building && EntrySpent(w, kind)
    ensures var after := Ticked(w, kind);
      && after.milestone == M.Row(M.Blocked, Some(Expected(kind))) && !after.building && after.jobs == w.jobs
  {
    assert M.Apply(w.milestone, w.milestone.state, M.Blocked) == Success(M.Row(M.Blocked, Some(Expected(kind))));
  }

  /** A tick queues a job exactly when the entry is current, is not review rework's own, and
      nothing for it is active or finished. */
  lemma TickQueuesIff(w: World, kind: JobKind)
    ensures |Ticked(w, kind).jobs| == |w.jobs| + 1 <==>
      && kind != ReviewRework && w.milestone.state == Expected(kind) && w.building
      && !(kind == CodexRun && Owned(w))
      && forall j :: 0 <= j < |w.jobs| && w.jobs[j].kind == kind ==>
           !Active(w.jobs[j]) && !Spent(w.jobs[j], kind, Generation(w), Boundary(w))
  {
    if SomeActive(w.jobs, kind) {
      var j :| 0 <= j < |w.jobs| && w.jobs[j].kind == kind && Active(w.jobs[j]);
    } else if SomeSpent(w.jobs, kind, Generation(w), Boundary(w)) {
      var j :| 0 <= j < |w.jobs| && Spent(w.jobs[j], kind, Generation(w), Boundary(w));
    }
  }
}
