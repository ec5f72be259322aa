/** The coding loop as the program it is: the coordinator's ticks, the two rework handoffs, the Codex
    executors and startup recovery, with all of them acting between one another's steps. */
module CodingService {
  import opened Wrappers
  import M = MilestoneMachine
  import opened CodingLoop
  import opened CodingBounds
  import opened CodingOwner
  import opened CodingExact

  class Implementation {
    var milestone: M.Row
    var building: bool
    var entries: seq<Entry>
    var jobs: seq<Job>
    var runs: seq<Run>
    var stages: map<nat, Stage>
    const limit: nat
    var now: nat

    /** What everyone else does before the next steps. */
    var schedule: seq<seq<Action>>

    /** The run of the whole loop since `start`. */
    ghost const start: World
    ghost var run: seq<World>
    ghost var history: seq<Action>

    ghost predicate Valid()
      reads this
    {
      IsRun(run, history) && start == run[0] && Snapshot() == run[|history|]
    }

    function Snapshot(): World
      reads this
    {
      World(milestone, building, entries, jobs, runs, stages, limit, now)
    }

    constructor (w: World, schedule: seq<seq<Action>>)
      ensures Valid() && Snapshot() == w && start == w && history == []
    {
      milestone, building, entries, jobs, runs, stages, limit, now :=
        w.milestone, w.building, w.entries, w.jobs, w.runs, w.stages, w.limit, w.now;
      this.schedule := schedule;
      this.start, this.run, this.history := w, [w], [];
    }

    /** Ticks, workers, reviews, recovery, the harvest and the operator may all act here. */
    method Interfere()
      requires Valid()
      modifies this
      ensures Valid() && old(history) <= history
      ensures old(schedule) == [] ==> schedule == [] && Snapshot() == old(Snapshot()) && history == old(history)
    {
      if schedule != [] {
        var batch := schedule[0];
        schedule := schedule[1..];
        var i := 0;
        while i < |batch|
          invariant 0 <= i <= |batch| && Valid() && old(history) <= history
        {
          SomeoneElse(batch[i]);
          i := i + 1;
        }
      }
    }

    method SomeoneElse(act: Action)
      requires Valid()
      modifies this`milestone, this`building, this`entries, this`jobs, this`runs, this`stages, this`now, this`run,
        this`history
      ensures Valid() && history == old(history) + [act]
    {
      ghost var before := Snapshot();
      var w := World(milestone, building, entries, jobs, runs, stages, limit, now);
      StepKeepsLimit(w, act);
      Become(Step(w, act));
      Took(before, act);
    }

    method Become(w: World)
      requires w.limit == limit
      modifies this`milestone, this`building, this`entries, this`jobs, this`runs, this`stages, this`now
      ensures Snapshot() == w
    {
      milestone, building, entries, jobs, runs, stages, now :=
        w.milestone, w.building, w.entries, w.jobs, w.runs, w.stages, w.now;
    }

    /** One step has been taken. */
    ghost method Took(before: World, act: Action)
      requires IsRun(run, history) && start == run[0] && before == run[|history|] && Snapshot() == Step(before, act)
      modifies this`run, this`history
      ensures Valid() && history == old(history) + [act]
    {
      OneMore(run, history, act, Snapshot());
      run, history := run + [Snapshot()], history + [act];
    }

    method ApplyTransition(expected: M.State, target: M.State, job: Option<nat>, validation: Option<nat> := None)
      returns (ok: bool)
      modifies this`milestone, this`entries
      ensures Transition(old(Snapshot()), expected, target, job, validation) == if ok then Some(Snapshot()) else None
      ensures !ok ==> Snapshot() == old(Snapshot())
    {
      var outcome := M.Apply(milestone, expected, target);
      ok := outcome.Success?;
      if ok {
        milestone := outcome.value;
        entries := entries + [Entry(expected, target, now, job, validation)];
      }
    }

    method BlockImplementation(job: Option<nat>) returns (ok: bool)
      modifies this`milestone, this`entries, this`building
      ensures Block(old(Snapshot()), job) == if ok then Some(Snapshot()) else None
      ensures !ok ==> Snapshot() == old(Snapshot())
    {
      ok := true;
      if milestone.state != M.Blocked { ok := ApplyTransition(milestone.state, M.Blocked, job); }
      if ok { building := false; }
    }

    method HasActive(kind: JobKind) returns (found: bool)
      ensures found <==> SomeActive(jobs, kind)
    {
      var j := 0;
      while j < |jobs|
        invariant 0 <= j <= |jobs|
        invariant forall i :: 0 <= i < j ==> !(jobs[i].kind == kind && Active(jobs[i]))
      {
        if jobs[j].kind == kind && Active(jobs[j]) { return true; }
        j := j + 1;
      }
      found := false;
    }

    /** The newest finished job of the latest entry. */
    method FindSpent(kind: JobKind) returns (found: Option<nat>)
      ensures found.Some? <==> SomeSpent(jobs, kind, |entries|, Boundary(Snapshot()))
    {
      var boundary := if entries == [] then 0 else entries[|entries| - 1].at;
      var j := |jobs|;
      while j > 0
        invariant 0 <= j <= |jobs|
        invariant forall i :: j <= i < |jobs| ==> !Spent(jobs[i], kind, |entries|, boundary)
      {
        j := j - 1;
        if Spent(jobs[j], kind, |entries|, boundary) { return Some(j); }
      }
      found := None;
    }

    /** The coordinator's locked enqueue. */
    method Enqueue(kind: JobKind) returns (count: nat)
      modifies this`milestone, this`entries, this`jobs, this`building
      ensures Snapshot() == Enqueued(old(Snapshot()), kind)
      ensures |jobs| == |old(jobs)| + count && count <= 1
    {
      count := 0;
      if milestone.state != Expected(kind) || !building { return; }
      var active := HasActive(kind);
      if active { return; }
      var spent := FindSpent(kind);
      if spent.Some? {
        var _ := BlockImplementation(None);
        return;
      }
      jobs := jobs + [Job(kind, Queued, Some(|entries|), None, None, FromLifecycle, now)];
      count := 1;
    }

    method FindEntry(state: M.State) returns (found: Option<nat>)
      ensures found == LatestInto(entries, state)
    {
      var i := |entries|;
      assert entries[..i] == entries;
      while i > 0 && entries[i - 1].state != state
        invariant 0 <= i <= |entries|
        invariant LatestInto(entries, state) == LatestInto(entries[..i], state)
      {
        assert entries[..i][..i - 1] == entries[..i - 1];
        i := i - 1;
      }
      found := if i > 0 then Some(i - 1) else None;
    }

    method ReviewReworkOwnsCoding() returns (owned: bool)
      ensures owned <==> Owned(Snapshot())
    {
      var entry := FindEntry(M.Coding);
      var validation := if entry.Some? then entries[entry.value].validation else None;
      var j := 0;
      while j < |jobs|
        invariant 0 <= j <= |jobs|
        invariant forall i :: 0 <= i < j ==>
          !(jobs[i].kind == ReviewRework && (validation.None? || jobs[i].validation == validation))
      {
        if jobs[j].kind == ReviewRework && (validation.None? || jobs[j].validation == validation) { return true; }
        j := j + 1;
      }
      owned := false;
    }

    /** One scheduler tick over a milestone in CODING or VALIDATING_CHANGES. */
    method Tick(kind: JobKind) returns (count: nat)
      requires kind != ReviewRework
      modifies this`milestone, this`entries, this`jobs, this`building
      ensures Snapshot() == Ticked(old(Snapshot()), kind)
      ensures |jobs| == |old(jobs)| + count && count <= 1
    {
      if kind == CodexRun && building && milestone.state == M.Coding {
        var owned := ReviewReworkOwnsCoding();
        if owned {
          BlockFinishedOwner();
          return 0;
        }
      }
      count := Enqueue(kind);
    }

    method BlockFinishedOwner()
      modifies this`milestone, this`entries, this`building
      ensures Snapshot() == OwnerTicked(old(Snapshot()))
    {
      var j := |jobs|;
      assert jobs[..j] == jobs;
      while j > 0 && jobs[j - 1].kind != ReviewRework
        invariant 0 <= j <= |jobs|
        invariant NewestReview(jobs) == NewestReview(jobs[..j])
      {
        assert jobs[..j][..j - 1] == jobs[..j - 1];
        j := j - 1;
      }
      if j > 0 && !Active(jobs[j - 1]) {
        var _ := BlockImplementation(None);
      }
    }

    method FindProducer() returns (producer: Option<nat>)
      ensures producer == Producer(Snapshot())
    {
      var latest := FindEntry(M.ValidatingChanges);
      if latest.Some? && entries[latest.value].job.Some? { return entries[latest.value].job; }
      var r := |runs|;
      assert runs[..r] == runs;
      while r > 0 && runs[r - 1].succeeded != Some(true)
        invariant 0 <= r <= |runs|
        invariant NewestSuccess(runs) == NewestSuccess(runs[..r])
      {
        assert runs[..r][..r - 1] == runs[..r - 1];
        r := r - 1;
      }
      producer := if r > 0 then Some(runs[r - 1].job) else None;
    }

    method QueueValidationRework(validation: nat)
      modifies this`milestone, this`entries, this`jobs, this`building
      ensures Snapshot() == Reworked(old(Snapshot()), validation)
    {
      var j := 0;
      while j < |jobs|
        invariant 0 <= j <= |jobs|
        invariant forall i :: 0 <= i < j ==> !(Codex(jobs[i].kind) && jobs[i].validation == Some(validation))
      {
        if Codex(jobs[j].kind) && jobs[j].validation == Some(validation) { return; }
        j := j + 1;
      }
      if |runs| >= limit {
        var _ := BlockImplementation(None);
        return;
      }
      var producer := FindProducer();
      if producer.None? || producer.value >= |jobs| || !Codex(jobs[producer.value].kind) { return; }
      var original := jobs[producer.value];
      var reviewing := HasActive(ReviewRework);
      if original.kind == ReviewRework && reviewing { return; }
      var moved := ApplyTransition(M.ValidatingChanges, M.Coding, None, Some(validation));
      if moved {
        jobs := jobs + [Job(original.kind, Queued, None, Some(validation), original.task, FromValidation, now)];
      }
    }

    method EnqueueReviewRework(task: nat)
      modifies this`milestone, this`entries, this`jobs, this`building
      ensures Snapshot() == ReviewQueued(old(Snapshot()), task)
    {
      var j := 0;
      while j < |jobs|
        invariant 0 <= j <= |jobs|
        invariant forall i :: 0 <= i < j ==> !(jobs[i].kind == ReviewRework && jobs[i].task == Some(task))
      {
        if jobs[j].kind == ReviewRework && jobs[j].task == Some(task) { return; }
        j := j + 1;
      }
      if milestone.state != M.ReviewRework { return; }
      var reviewing := HasActive(ReviewRework);
      if reviewing { return; }
      jobs := jobs + [Job(ReviewRework, Queued, None, None, Some(task), FromReview, now)];
      // REVIEW_REWORK always leads to CODING
      var _ := ApplyTransition(M.ReviewRework, M.Coding, Some(|jobs| - 1));
    }

    /** The executor up to its budget check. */
    method BeginCodex(j: nat) returns (letIn: bool)
      modifies this`milestone, this`entries, this`jobs, this`building, this`stages
      ensures Snapshot() == Begun(old(Snapshot()), j) && (letIn <==> LetsIn(old(Snapshot()), Begin(j)))
    {
      letIn := false;
      if j >= |jobs| || !Codex(jobs[j].kind) || jobs[j].state != Queued { return; }
      jobs := jobs[j := jobs[j].(state := Running, updatedAt := now)];
      if !building || milestone.state != M.Coding { return; }
      if |runs| >= limit {
        var _ := BlockImplementation(Some(j));
      } else {
        letIn, stages := true, stages[j := Checked];
      }
    }

    method RunProcess(j: nat)
      modifies this`runs, this`stages
      ensures Snapshot() == ProcessStarted(old(Snapshot()), j)
    {
      if j in stages && stages[j].Checked? {
        runs, stages := runs + [Run(j, None)], stages[j := Ran(|runs|)];
      }
    }

    /** The executor after its process: evidence of real changes, then the transition. */
    method ConcludeCodex(j: nat, succeeded: bool, changed: bool)
      modifies this`milestone, this`entries, this`building, this`runs, this`stages
      ensures Snapshot() == ProcessEnded(old(Snapshot()), j, succeeded, changed)
    {
      if j !in stages || !stages[j].Ran? || stages[j].run >= |runs| { return; }
      var r := stages[j].run;
      runs, stages := runs[r := runs[r].(succeeded := Some(succeeded))], stages - {j};
      if !succeeded { return; }
      if !changed {
        var _ := BlockImplementation(Some(j));
      } else {
        var _ := ApplyTransition(M.Coding, M.ValidatingChanges, Some(j));
      }
    }

    /** Startup recovery of one lost job. */
    method ReplaceLost(j: nat, clean: bool, accepted: bool)
      modifies this`milestone, this`entries, this`jobs, this`building
      ensures Snapshot() == Replaced(old(Snapshot()), j, clean, accepted)
    {
      if j >= |jobs| || jobs[j].state != Running || j in stages { return; }
      var prior, handedOn := jobs[j], HandedOn(Snapshot(), j, accepted);
      jobs := jobs[j := prior.(state := Abandoned, updatedAt := now)];
      if handedOn { return; }
      if !clean {
        var _ := BlockImplementation(Some(j));
        return;
      }
      var active := HasActive(prior.kind);
      if !active { jobs := jobs + [prior.(state := Queued, origin := FromRecovery, updatedAt := now)]; }
    }

    // ---------------------------------------------------------------- the loop's entry points

    /** The scheduler's tick over this milestone. */
    method SchedulerTick(kind: JobKind) returns (count: nat)
      requires Valid() && kind != ReviewRework
      modifies this
      ensures Valid() && count <= 1
      ensures old(schedule) == [] ==> schedule == [] && Snapshot() == Ticked(old(Snapshot()), kind)
    {
      Interfere();
      ghost var before := Snapshot();
      count := Tick(kind);
      Took(before, Action.Tick(kind));
    }

    /** One Codex job, first implementation or rework: the budget check, the process, and what is
        made of its result, with anything happening in between. */
    method ExecuteCodex(j: nat, succeeded: bool, changed: bool)
      requires Valid()
      modifies this
      ensures Valid()
      ensures old(schedule) == [] ==> schedule == [] && Snapshot() == Executed(old(Snapshot()), j, succeeded, changed)
    {
      Interfere();
      ghost var before := Snapshot();
      var letIn := BeginCodex(j);
      Took(before, Begin(j));
      if letIn { PayAndConclude(j, succeeded, changed); }
    }

    /** Past the check: the paid process, and what is made of its result. */
    method PayAndConclude(j: nat, succeeded: bool, changed: bool)
      requires Valid()
      modifies this
      ensures Valid()
      ensures old(schedule) == [] ==>
        schedule == [] && Snapshot() == ProcessEnded(ProcessStarted(old(Snapshot()), j), j, succeeded, changed)
    {
      Interfere();
      ghost var before := Snapshot();
      RunProcess(j);
      Took(before, StartProcess(j));
      Interfere();
      before := Snapshot();
      ConcludeCodex(j, succeeded, changed);
      Took(before, EndProcess(j, succeeded, changed));
    }

    /** A validation asks for rework. */
    method HandValidationOver(validation: nat)
      requires Valid()
      modifies this
      ensures Valid()
      ensures old(schedule) == [] ==> schedule == [] && Snapshot() == Reworked(old(Snapshot()), validation)
    {
      Interfere();
      ghost var before := Snapshot();
      QueueValidationRework(validation);
      Took(before, Rework(validation));
    }

    /** A review asks for rework. */
    method HandReviewOver(task: nat)
      requires Valid()
      modifies this
      ensures Valid()
      ensures old(schedule) == [] ==> schedule == [] && Snapshot() == ReviewQueued(old(Snapshot()), task)
    {
      Interfere();
      ghost var before := Snapshot();
      EnqueueReviewRework(task);
      Took(before, Review(task));
    }

    /** Startup recovery finds a lost worker's job. */
    method RecoverLost(j: nat, clean: bool, accepted: bool)
      requires Valid()
      modifies this
      ensures Valid()
      ensures old(schedule) == [] ==> schedule == [] && Snapshot() == Replaced(old(Snapshot()), j, clean, accepted)
    {
      Interfere();
      ghost var before := Snapshot();
      ReplaceLost(j, clean, accepted);
      Took(before, Replace(j, clean, accepted));
    }
  }

  /** A Codex job that nothing disturbs. */
  function Executed(w: World, j: nat, succeeded: bool, changed: bool): World {
    var begun := Begun(w, j);
    if LetsIn(w, Begin(j)) then ProcessEnded(ProcessStarted(begun, j), j, succeeded, changed) else begun
  }

  /** Whatever the loop did, in whatever order and with whatever interference: each entry of the
      milestone got at most one lifecycle job of a kind; and as long as no step queued a Codex job
      beside another owner, the owner is unique and the budget was kept. */
  lemma LoopKeepsItsBounds(loop: Implementation)
    requires loop.Valid() && Fresh(loop.start) && M.WellFormed(loop.start.milestone)
    ensures OncePerEntry(loop.Snapshot())
    ensures NeverDoubled(loop.run, loop.history, |loop.history|) ==>
      OneOwner(loop.Snapshot()) && |loop.runs| <= loop.start.limit && Cycles(loop.entries) <= loop.start.limit
  {
    var n := |loop.history|;
    OneJobPerEntry(loop.run, loop.history, n);
    if NeverDoubled(loop.run, loop.history, n) {
      OneOwnerIff(loop.run, loop.history, n);
      CodexKeepsTheLimit(loop.run, loop.history, n);
    }
  }
}
