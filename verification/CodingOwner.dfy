/** Who works for a milestone: the Codex job that owns it, how every step but one kind keeps it the
    only one, and a run in which recovery makes a second. */
module CodingOwner {
  import opened Wrappers
  import M = MilestoneMachine
  import opened CodingLoop
  import opened CodingBounds

  /** This job's worker took the milestone from CODING to VALIDATING_CHANGES. */
  ghost predicate MovedOn(entries: seq<Entry>, j: nat) {
    exists e :: e in entries && IsCycle(e) && e.job == Some(j)
  }

  /** A Codex job that may still start a process or move the milestone on. */
  ghost predicate Owns(w: World, j: nat) {
    j < |w.jobs| && Codex(w.jobs[j].kind) && Active(w.jobs[j]) && !MovedOn(w.entries, j)
  }

  /** Where a job may own its milestone: while it is coded, or once it is over. */
  const OWNED_STATES: set<M.State> := {M.Coding, M.Failed, M.Cancelled}

  /** Only a job that ran has moved its milestone on. */
  ghost predicate MoversRan(w: World) {
    forall j: nat :: MovedOn(w.entries, j) ==> j < |w.jobs| && w.jobs[j].state != Queued
  }

  ghost predicate OneOwner(w: World) {
    forall i: nat, j: nat :: Owns(w, i) && Owns(w, j) ==> i == j
  }

  ghost predicate OwnersInPlace(w: World) {
    && (forall j: nat :: Owns(w, j) ==> M.Effective(w.milestone) in OWNED_STATES)
    && (forall j: nat :: Owns(w, j) && w.jobs[j].kind == ReviewRework ==> Owned(w))
  }

  /** Every live worker works for the owner. */
  ghost predicate WorkersOwn(w: World) {
    forall j: nat :: j in w.stages ==> Owns(w, j) && w.jobs[j].state == Running
  }

  ghost predicate Invariant(w: World) {
    M.WellFormed(w.milestone) && MoversRan(w) && OneOwner(w) && OwnersInPlace(w) && WorkersOwn(w)
  }

  // ------------------------------------------------------------------ transitions

  lemma LatestAppend(entries: seq<Entry>, e: Entry, state: M.State)
    ensures LatestInto(entries + [e], state) == if e.state == state then Some(|entries|) else LatestInto(entries, state)
  {
    assert (entries + [e])[..|entries|] == entries;
  }

  lemma MovedAppend(entries: seq<Entry>, e: Entry, j: nat)
    ensures MovedOn(entries + [e], j) <==> MovedOn(entries, j) || (IsCycle(e) && e.job == Some(j))
  {
    if MovedOn(entries, j) {
      var x :| x in entries && IsCycle(x) && x.job == Some(j);
      assert x in entries + [e];
    }
    if IsCycle(e) && e.job == Some(j) { assert e in entries + [e]; }
  }

  /** A milestone that some job owns stays CODING, is over, or is moved on by its owner. */
  lemma OwnedStaysOwned(before: M.Row, after: M.Row, target: M.State)
    requires M.WellFormed(before) && M.Apply(before, before.state, target) == Success(after)
    requires !(before.state == M.Coding && target == M.ValidatingChanges)
    ensures M.WellFormed(after)
    ensures M.Effective(before) in OWNED_STATES ==> M.Effective(after) in OWNED_STATES
  {
  }

  /** Any transition but the owner's own leaves the owner its milestone. */
  lemma TransitionKeeps(w: World, target: M.State, job: Option<nat>, after: World)
    requires Invariant(w) && Transition(w, w.milestone.state, target, job) == Some(after)
    requires !(w.milestone.state == M.Coding && target == M.ValidatingChanges)
    ensures Invariant(after)
  {
    var e := Entry(w.milestone.state, target, w.now, job, None);
    OwnedStaysOwned(w.milestone, after.milestone, target);
    LatestAppend(w.entries, e, M.Coding);
    forall j: nat ensures MovedOn(after.entries, j) <==> MovedOn(w.entries, j) { MovedAppend(w.entries, e, j); }
    assert forall j: nat :: Owns(after, j) <==> Owns(w, j);
  }

  lemma BlockKeeps(w: World, job: Option<nat>)
    requires Invariant(w)
    ensures Invariant(Block(w, job).GetOr(w))
  {
    if w.milestone.state == M.Blocked {
      BuildingKeeps(w, false);
    } else {
      var blocked := Transition(w, w.milestone.state, M.Blocked, job);
      if blocked.Some? {
        TransitionKeeps(w, M.Blocked, job, blocked.value);
        BuildingKeeps(blocked.value, false);
      }
    }
  }

  /** Who is building, and what time it is, is nobody's business here. */
  lemma BuildingKeeps(w: World, building: bool)
    requires Invariant(w)
    ensures Invariant(w.(building := building))
  {
    var after := w.(building := building);
    assert forall j: nat :: Owns(after, j) <==> Owns(w, j);
  }

  // ------------------------------------------------------------------ new owners

  /** A Codex job may be added where there is no owner and the entry will be its own. */
  lemma AddedOwns(w: World, job: Job)
    requires Invariant(w) && (forall j: nat :: !Owns(w, j))
    requires M.Effective(w.milestone) in OWNED_STATES && (job.kind == ReviewRework ==> Owned(AddJob(w, job)))
    ensures Invariant(AddJob(w, job))
  {
    var after := AddJob(w, job);
    forall j: nat | Owns(after, j) ensures j == |w.jobs| {
      if j < |w.jobs| { assert Owns(w, j); }
    }
  }

  lemma AddedOther(w: World, job: Job)
    requires Invariant(w) && !Codex(job.kind)
    ensures Invariant(AddJob(w, job))
  {
    var after := AddJob(w, job);
    assert forall j: nat :: Owns(after, j) <==> Owns(w, j);
    forall j: nat | Owns(w, j) && w.jobs[j].kind == ReviewRework ensures Owned(after) { OwnedStays(w, after); }
  }

  /** Ownership only depends on what jobs are for, and jobs are never removed. */
  lemma OwnedStays(before: World, after: World)
    requires Owned(before) && JobsKept(before, after) && after.entries == before.entries
    ensures Owned(after)
  {
    var entry := LatestInto(before.entries, M.Coding);
    if entry.Some? && before.entries[entry.value].validation.Some? {
      var j :| 0 <= j < |before.jobs| && before.jobs[j].kind == ReviewRework
        && before.jobs[j].validation == before.entries[entry.value].validation;
      assert SameJob(before.jobs[j], after.jobs[j]);
    } else {
      var j :| 0 <= j < |before.jobs| && before.jobs[j].kind == ReviewRework;
      assert SameJob(before.jobs[j], after.jobs[j]);
    }
  }

  lemma TickKeeps(w: World, kind: JobKind)
    requires Invariant(w)
    ensures Invariant(Ticked(w, kind))
  {
    BlockKeeps(w, None);
    if kind == CodexRun && w.building && w.milestone.state == M.Coding && !Owned(w) && !SomeActive(w.jobs, kind) {
      forall j: nat ensures !Owns(w, j) {}
      AddedOwns(w, Job(kind, Queued, Some(Generation(w)), None, None, FromLifecycle, w.now));
    } else if kind == ChangeValidate {
      AddedOther(w, Job(kind, Queued, Some(Generation(w)), None, None, FromLifecycle, w.now));
    }
  }

  lemma ReworkKeeps(w: World, validation: nat)
    requires Invariant(w)
    ensures Invariant(Reworked(w, validation))
  {
    BlockKeeps(w, None);
    var producer := Producer(w);
    var moved := Transition(w, M.ValidatingChanges, M.Coding, None, Some(validation));
    if moved.Some? && producer.Some? && producer.value < |w.jobs| && Codex(w.jobs[producer.value].kind) {
      var e := Entry(M.ValidatingChanges, M.Coding, w.now, None, Some(validation));
      assert M.Effective(w.milestone) == M.ValidatingChanges;
      LatestAppend(w.entries, e, M.Coding);
      forall j: nat ensures MovedOn(moved.value.entries, j) <==> MovedOn(w.entries, j) { MovedAppend(w.entries, e, j); }
      forall j: nat ensures !Owns(moved.value, j) { assert !Owns(w, j); }
      var job := Job(w.jobs[producer.value].kind, Queued, None, Some(validation), w.jobs[producer.value].task,
        FromValidation, w.now);
      assert AddJob(moved.value, job).jobs[|w.jobs|] == job;
      assert Invariant(moved.value);
      AddedOwns(moved.value, job);
    }
  }

  lemma ReviewKeeps(w: World, task: nat)
    requires Invariant(w)
    ensures Invariant(ReviewQueued(w, task))
  {
    var job := Job(ReviewRework, Queued, None, None, Some(task), FromReview, w.now);
    var added := AddJob(w, job);
    var moved := Transition(added, M.ReviewRework, M.Coding, Some(|w.jobs|));
    if w.milestone.state == M.ReviewRework && moved.Some? {
      var after := moved.value;
      var e := Entry(M.ReviewRework, M.Coding, w.now, Some(|w.jobs|), None);
      assert M.Effective(w.milestone) == M.ReviewRework;
      LatestAppend(w.entries, e, M.Coding);
      assert after.jobs[|w.jobs|] == job;
      forall j: nat ensures MovedOn(after.entries, j) <==> MovedOn(w.entries, j) { MovedAppend(w.entries, e, j); }
      forall j: nat | Owns(after, j) ensures j == |w.jobs| { assert !Owns(w, j); }
    }
  }

  // ------------------------------------------------------------------ the owner's worker

  /** Changing one job's state, and nothing else, adds no owner. */
  lemma StateKeeps(w: World, j: nat, state: JobState)
    requires Invariant(w) && j < |w.jobs| && Active(w.jobs[j]) && state != Queued && (j in w.stages ==> state == Running)
    ensures Invariant(w.(jobs := w.jobs[j := w.jobs[j].(state := state, updatedAt := w.now)]))
  {
    var after := w.(jobs := w.jobs[j := w.jobs[j].(state := state, updatedAt := w.now)]);
    forall i: nat | Owns(after, i) ensures Owns(w, i) {}
    if Owned(w) { OwnedStays(w, after); }
  }

  lemma BeginKeeps(w: World, j: nat)
    requires Invariant(w)
    ensures Invariant(Begun(w, j))
  {
    if j < |w.jobs| && Codex(w.jobs[j].kind) && w.jobs[j].state == Queued {
      StateKeeps(w, j, Running);
      var started := w.(jobs := w.jobs[j := w.jobs[j].(state := Running, updatedAt := w.now)]);
      BlockKeeps(started, Some(j));
      if w.building && w.milestone.state == M.Coding && |w.runs| < w.limit {
        StagesKeep(started, started.stages[j := Checked]);
      }
    }
  }

  lemma StagesKeep(w: World, stages: map<nat, Stage>)
    requires Invariant(w) && forall j: nat :: j in stages ==> Owns(w, j) && w.jobs[j].state == Running
    ensures Invariant(w.(stages := stages))
  {
    var after := w.(stages := stages);
    assert forall j: nat :: Owns(after, j) <==> Owns(w, j);
  }

  lemma EndKeeps(w: World, j: nat, succeeded: bool, changed: bool)
    requires Invariant(w)
    ensures Invariant(ProcessEnded(w, j, succeeded, changed))
  {
    if j in w.stages && w.stages[j].Ran? && w.stages[j].run < |w.runs| {
      var r := w.stages[j].run;
      var done := w.(runs := w.runs[r := w.runs[r].(succeeded := Some(succeeded))], stages := w.stages - {j});
      assert forall i: nat :: Owns(done, i) <==> Owns(w, i);
      BlockKeeps(done, Some(j));
      var moved := Transition(done, M.Coding, M.ValidatingChanges, Some(j));
      if moved.Some? { OwnerMovesOn(done, j, moved.value); }
    }
  }

  /** The owner itself takes the milestone on and owns it no longer; nobody does. */
  lemma OwnerMovesOn(w: World, j: nat, after: World)
    requires Invariant(w) && Owns(w, j) && w.jobs[j].state == Running && j !in w.stages
    requires Transition(w, M.Coding, M.ValidatingChanges, Some(j)) == Some(after)
    ensures Invariant(after)
  {
    var e := Entry(M.Coding, M.ValidatingChanges, w.now, Some(j), None);
    forall i: nat ensures MovedOn(after.entries, i) <==> MovedOn(w.entries, i) || i == j { MovedAppend(w.entries, e, i); }
    forall i: nat ensures !Owns(after, i) {
      if Owns(after, i) { assert Owns(w, i); }
    }
    assert forall i: nat :: i in w.stages ==> Owns(w, i) && i == j;
  }

  // ------------------------------------------------------------------ lost workers

  /** Recovery queues a copy of a lost job. */
  predicate Copies(w: World, act: Action) {
    act.Replace? && act.clean && act.j < |w.jobs| && w.jobs[act.j].state == Running && act.j !in w.stages
    && !HandedOn(w, act.j, act.accepted)
  }

  lemma ReplaceKeeps(w: World, j: nat, clean: bool, accepted: bool)
    requires Invariant(w) && (Copies(w, Replace(j, clean, accepted)) ==> !MovedOn(w.entries, j))
    ensures Invariant(Replaced(w, j, clean, accepted))
  {
    if j < |w.jobs| && w.jobs[j].state == Running && j !in w.stages {
      StateKeeps(w, j, Abandoned);
      var abandoned := w.(jobs := w.jobs[j := w.jobs[j].(state := Abandoned, updatedAt := w.now)]);
      BlockKeeps(abandoned, Some(j));
      if Copies(w, Replace(j, clean, accepted)) {
        var copy := w.jobs[j].(state := Queued, origin := FromRecovery, updatedAt := w.now);
        if Codex(copy.kind) {
          CopyOwns(w, j, abandoned, copy);
        } else {
          AddedOther(abandoned, copy);
        }
      }
    }
  }

  lemma CopyOwns(w: World, j: nat, abandoned: World, copy: Job)
    requires Invariant(w) && Owns(w, j) && Invariant(abandoned)
    requires abandoned == w.(jobs := w.jobs[j := w.jobs[j].(state := Abandoned, updatedAt := w.now)])
    requires copy == w.jobs[j].(state := Queued, origin := FromRecovery, updatedAt := w.now)
    ensures Invariant(AddJob(abandoned, copy))
  {
    forall i: nat ensures !Owns(abandoned, i) {
      if Owns(abandoned, i) { assert Owns(w, i); }
    }
    if copy.kind == ReviewRework { OwnedStays(w, AddJob(abandoned, copy)); }
    AddedOwns(abandoned, copy);
  }

  // ------------------------------------------------------------------ all steps

  lemma StepKeepsOwner(w: World, act: Action)
    requires Invariant(w) && (Copies(w, act) ==> !MovedOn(w.entries, act.j))
    ensures Invariant(Step(w, act))
  {
    match act
    case Tick(kind) => TickKeeps(w, kind);
    case Rework(validation) => ReworkKeeps(w, validation);
    case Review(task) => ReviewKeeps(w, task);
    case Begin(j) => BeginKeeps(w, j);
    case EndProcess(j, succeeded, changed) => EndKeeps(w, j, succeeded, changed);
    case Replace(j, clean, accepted) => ReplaceKeeps(w, j, clean, accepted);
    case _ => RestKeeps(w, act);
  }

  lemma RestKeeps(w: World, act: Action)
    requires Invariant(w)
    requires act.StartProcess? || act.Harvest? || act.Crash? || act.MoveMilestone? || act.SetBuilding? || act.Wait?
    ensures Invariant(Step(w, act))
  {
    var after := Step(w, act);
    if act.Harvest? {
      if after != w { StateKeeps(w, act.j, act.state); }
    } else if act.MoveMilestone? {
      if after != w { TransitionKeeps(w, act.target, None, after); }
    } else {
      assert after.jobs == w.jobs && after.entries == w.entries;
      assert forall j: nat :: Owns(after, j) <==> Owns(w, j);
    }
  }

  // ------------------------------------------------------------------ a second owner

  const FIRST: Job := Job(CodexRun, Running, Some(0), None, None, FromLifecycle, 0)

  function AfterFirst(state: M.State, entries: seq<Entry>): World {
    World(M.Row(state, None), true, entries, [FIRST], [Run(0, Some(true))], map[], 2, 0)
  }

  const NEW: World := World(M.Row(M.Coding, None), true, [], [], [], map[], 2, 0)
  const BEGUN: World := World(M.Row(M.Coding, None), true, [], [FIRST], [], map[0 := Checked], 2, 0)
  const STARTED: World := World(M.Row(M.Coding, None), true, [], [FIRST], [Run(0, None)], map[0 := Ran(0)], 2, 0)

  lemma FirstBegins()
    ensures Step(Step(NEW, Tick(CodexRun)), Begin(0)) == BEGUN
  {
    assert Step(NEW, Tick(CodexRun)) == NEW.(jobs := [FIRST.(state := Queued)]);
  }

  lemma FirstEnds(entries: seq<Entry>)
    requires entries == [Entry(M.Coding, M.ValidatingChanges, 0, Some(0), None)]
    ensures Step(BEGUN, StartProcess(0)) == STARTED
    ensures Step(STARTED, EndProcess(0, true, true)) == AfterFirst(M.ValidatingChanges, entries)
  {
    assert STARTED.runs[0 := Run(0, Some(true))] == [Run(0, Some(true))] && STARTED.stages - {0} == map[];
  }

  /** One implementation under a limit of two processes, not harvested yet. */
  lemma FirstImplementation() returns (run: seq<World>, acts: seq<Action>, entries: seq<Entry>)
    ensures IsRun(run, acts) && Fresh(run[0]) && M.WellFormed(run[0].milestone) && run[0].limit == 2
    ensures run[|acts|] == AfterFirst(M.ValidatingChanges, entries)
  {
    entries := [Entry(M.Coding, M.ValidatingChanges, 0, Some(0), None)];
    FirstBegins();
    FirstEnds(entries);
    run, acts := TwoMore([NEW], [], Tick(CodexRun), Begin(0));
    run, acts := TwoMore(run, acts, StartProcess(0), EndProcess(0, true, true));
  }

  lemma TwoMore(run: seq<World>, acts: seq<Action>, first: Action, second: Action)
    returns (more: seq<World>, moreActs: seq<Action>)
    requires IsRun(run, acts)
    ensures IsRun(more, moreActs) && more[0] == run[0]
    ensures more[|moreActs|] == Step(Step(run[|acts|], first), second)
  {
    var w := Step(run[|acts|], first);
    OneMore(run, acts, first, w);
    OneMore(run + [w], acts + [first], second, Step(w, second));
    more, moreActs := run + [w] + [Step(w, second)], acts + [first] + [second];
  }

  lemma OneMore(run: seq<World>, acts: seq<Action>, act: Action, after: World)
    requires IsRun(run, acts) && Step(run[|acts|], act) == after
    ensures IsRun(run + [after], acts + [act])
  {
  }

  /** The way from validation to review rework, which no Codex job has a part in. */
  const TO_REVIEW: seq<M.State> :=
    [M.ValidatingChanges, M.Committing, M.Pushing, M.PrCreating, M.CiRunning, M.ArchitectReview, M.ReviewRework]

  lemma {:induction false} Reviewed(n: nat) returns (run: seq<World>, acts: seq<Action>, entries: seq<Entry>)
    requires n < |TO_REVIEW|
    ensures IsRun(run, acts) && Fresh(run[0]) && M.WellFormed(run[0].milestone) && run[0].limit == 2
    ensures run[|acts|] == AfterFirst(TO_REVIEW[n], entries)
  {
    if n == 0 {
      run, acts, entries := FirstImplementation();
    } else {
      run, acts, entries := Reviewed(n - 1);
      entries := entries + [Entry(TO_REVIEW[n - 1], TO_REVIEW[n], 0, None, None)];
      OneMore(run, acts, MoveMilestone(TO_REVIEW[n]), AfterFirst(TO_REVIEW[n], entries));
      run, acts := run + [AfterFirst(TO_REVIEW[n], entries)], acts + [MoveMilestone(TO_REVIEW[n])];
    }
  }

  const TASK: Job := Job(ReviewRework, Queued, None, None, Some(0), FromReview, 0)

  /** The review queues its job, and recovery copies the first one. */
  lemma SecondOwner(entries: seq<Entry>)
    ensures var w := Step(Step(AfterFirst(M.ReviewRework, entries), Review(0)), Replace(0, true, false));
      && w.jobs == [FIRST.(state := Abandoned), TASK, FIRST.(state := Queued, origin := FromRecovery)]
      && w.milestone == M.Row(M.Coding, None) && w.building && w.stages == map[] && |w.runs| == 1 && w.limit == 2
  {
    var w := Step(AfterFirst(M.ReviewRework, entries), Review(0));
    assert w.jobs == [FIRST, TASK] && w.milestone == M.Row(M.Coding, None);
    assert w.jobs[0 := FIRST.(state := Abandoned)] == [FIRST.(state := Abandoned), TASK];
  }

  lemma TwoBegin(w: World, i: nat, j: nat)
    requires i < |w.jobs| && j < |w.jobs| && i != j && w.stages == map[] && |w.runs| < w.limit
    requires Codex(w.jobs[i].kind) && Codex(w.jobs[j].kind) && w.jobs[i].state == Queued == w.jobs[j].state
    requires w.building && w.milestone.state == M.Coding
    ensures Step(Step(w, Begin(i)), Begin(j)).stages == map[i := Checked, j := Checked]
    ensures Step(Step(w, Begin(i)), Begin(j)).runs == w.runs
  {
  }

  lemma TwoStart(w: World, i: nat, j: nat)
    requires i != j && w.stages == map[i := Checked, j := Checked]
    ensures |Step(Step(w, StartProcess(i)), StartProcess(j)).runs| == |w.runs| + 2
  {
  }

  /** Recovering a job that was never harvested, long after its changes were committed, puts a
      second owner beside the review's; both pass the budget check, and the limit is exceeded. */
  lemma LateHarvestOverspends() returns (run: seq<World>, acts: seq<Action>)
    ensures IsRun(run, acts) && Fresh(run[0]) && M.WellFormed(run[0].milestone)
    ensures |run[|acts|].runs| > run[0].limit
  {
    var entries;
    run, acts, entries := Reviewed(6);
    SecondOwner(entries);
    run, acts := TwoMore(run, acts, Review(0), Replace(0, true, false));
    TwoBegin(run[|acts|], 1, 2);
    run, acts := TwoMore(run, acts, Begin(1), Begin(2));
    TwoStart(run[|acts|], 1, 2);
    run, acts := TwoMore(run, acts, StartProcess(1), StartProcess(2));
  }
}
