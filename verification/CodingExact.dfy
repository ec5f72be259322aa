/** Exactly when the coding loop keeps its budget: which step first gives the milestone a second
    owner, and which step first lets more workers past the budget check than it covers. */
module CodingExact {
  import opened Wrappers
  import M = MilestoneMachine
  import opened CodingLoop
  import opened CodingBounds
  import opened CodingOwner

  // ------------------------------------------------------------------ what holds in every run

  /** Only a job that ran has moved its milestone on, and every live worker works for an owner. */
  ghost predicate Basic(w: World) { M.WellFormed(w.milestone) && MoversRan(w) && WorkersOwn(w) }

  /** Jobs only go on, and no new job is one that moved its milestone on. */
  lemma StepKeepsJobs(w: World, act: Action)
    ensures JobsKept(w, Step(w, act))
  {
    StepAddsOnce(w, act);
  }

  /** What a step leaves of who moved on. */
  ghost predicate MovesOnly(before: World, after: World, mover: Option<nat>) {
    forall j: nat :: MovedOn(after.entries, j) <==> MovedOn(before.entries, j) || Some(j) == mover
  }

  lemma TransitionMovesNobody(w: World, expected: M.State, target: M.State, job: Option<nat>, validation: Option<nat>)
    requires !(expected == M.Coding && target == M.ValidatingChanges)
    ensures var after := Transition(w, expected, target, job, validation); after.Some? ==> MovesOnly(w, after.value, None)
  {
    var after := Transition(w, expected, target, job, validation);
    if after.Some? {
      forall j: nat ensures MovedOn(after.value.entries, j) <==> MovedOn(w.entries, j) {
        MovedAppend(w.entries, Entry(expected, target, w.now, job, validation), j);
      }
    }
  }

  lemma BlockMovesNobody(w: World, job: Option<nat>)
    ensures MovesOnly(w, Block(w, job).GetOr(w), None)
  {
    TransitionMovesNobody(w, w.milestone.state, M.Blocked, job, None);
  }

  /** The one step by which a worker moves its milestone on. */
  function Mover(w: World, act: Action): Option<nat> {
    if act.EndProcess? && act.j in w.stages && w.stages[act.j].Ran? && w.stages[act.j].run < |w.runs|
       && act.succeeded && act.changed && w.milestone.state == M.Coding
    then Some(act.j) else None
  }

  lemma EndMoves(w: World, j: nat, succeeded: bool, changed: bool)
    ensures MovesOnly(w, ProcessEnded(w, j, succeeded, changed), Mover(w, EndProcess(j, succeeded, changed)))
  {
    if j in w.stages && w.stages[j].Ran? && w.stages[j].run < |w.runs| {
      var r := w.stages[j].run;
      var done := w.(runs := w.runs[r := w.runs[r].(succeeded := Some(succeeded))], stages := w.stages - {j});
      BlockMovesNobody(done, Some(j));
      if succeeded && changed {
        forall i: nat ensures MovedOn(done.entries + [Entry(M.Coding, M.ValidatingChanges, done.now, Some(j), None)], i)
                         <==> MovedOn(w.entries, i) || i == j
        {
          MovedAppend(done.entries, Entry(M.Coding, M.ValidatingChanges, done.now, Some(j), None), i);
        }
      }
    }
  }

  lemma ReviewMovesNobody(w: World, task: nat)
    ensures MovesOnly(w, ReviewQueued(w, task), None)
  {
    var added := AddJob(w, Job(ReviewRework, Queued, None, None, Some(task), FromReview, w.now));
    TransitionMovesNobody(added, M.ReviewRework, M.Coding, Some(|w.jobs|), None);
  }

  lemma ReplaceMovesNobody(w: World, j: nat, clean: bool, accepted: bool)
    ensures MovesOnly(w, Replaced(w, j, clean, accepted), None)
  {
    if j < |w.jobs| {
      var abandoned := w.(jobs := w.jobs[j := w.jobs[j].(state := Abandoned, updatedAt := w.now)]);
      BlockMovesNobody(abandoned, Some(j));
    }
  }

  lemma BeginMovesNobody(w: World, j: nat)
    ensures MovesOnly(w, Begun(w, j), None)
  {
    if j < |w.jobs| {
      BlockMovesNobody(w.(jobs := w.jobs[j := w.jobs[j].(state := Running, updatedAt := w.now)]), Some(j));
    }
  }

  lemma StepMoves(w: World, act: Action)
    ensures MovesOnly(w, Step(w, act), Mover(w, act))
  {
    hide ReviewQueued, Begun, ProcessEnded, Replaced;
    match act
    case Tick(kind) => BlockMovesNobody(w, None);
    case Rework(validation) =>
      BlockMovesNobody(w, None);
      TransitionMovesNobody(w, M.ValidatingChanges, M.Coding, None, Some(validation));
    case Review(task) => ReviewMovesNobody(w, task);
    case Begin(j) => BeginMovesNobody(w, j);
    case EndProcess(j, succeeded, changed) => EndMoves(w, j, succeeded, changed);
    case Replace(j, clean, accepted) => ReplaceMovesNobody(w, j, clean, accepted);
    case MoveMilestone(target) =>
      if !(w.milestone.state == M.Coding && target == M.ValidatingChanges) {
        TransitionMovesNobody(w, w.milestone.state, target, None, None);
      }
    case _ =>
  }

  /** A worker is let in for a queued job, and leaves when it has moved its milestone on; nobody
      ends the job of a live worker but the worker itself. */
  ghost predicate StagesFollow(before: World, after: World, mover: Option<nat>) {
    && |before.jobs| <= |after.jobs|
    && (forall j: nat :: j in after.stages ==>
         && j < |before.jobs| && Codex(before.jobs[j].kind) && after.jobs[j].state == Running && Some(j) != mover
         && (j in before.stages || before.jobs[j].state == Queued))
    && (mover.Some? ==> mover.value < |before.jobs| && mover.value in before.stages)
    && (forall j: nat :: j < |before.jobs| && after.jobs[j].state == Queued ==> before.jobs[j].state == Queued)
  }

  lemma BlockStages(w: World, job: Option<nat>)
    ensures var after := Block(w, job).GetOr(w); after.jobs == w.jobs && after.stages == w.stages
  {
  }

  lemma QueueStages(w: World, act: Action)
    requires WorkersOwn(w) && (act.Tick? || act.Rework? || act.Review?)
    ensures StagesFollow(w, Step(w, act), None)
  {
    BlockStages(w, None);
    assert w.jobs <= Step(w, act).jobs && Step(w, act).stages == w.stages;
    assert forall j: nat :: j in w.stages ==> Owns(w, j) && w.jobs[j].state == Running;
  }

  lemma BeginStages(w: World, j: nat)
    requires WorkersOwn(w)
    ensures StagesFollow(w, Begun(w, j), None)
  {
    if j < |w.jobs| { BlockStages(w.(jobs := w.jobs[j := w.jobs[j].(state := Running, updatedAt := w.now)]), Some(j)); }
    assert forall i: nat :: i in w.stages ==> Owns(w, i) && w.jobs[i].state == Running;
  }

  lemma EndStages(w: World, j: nat, succeeded: bool, changed: bool)
    requires WorkersOwn(w)
    ensures StagesFollow(w, ProcessEnded(w, j, succeeded, changed), Mover(w, EndProcess(j, succeeded, changed)))
  {
    assert forall i: nat :: i in w.stages ==> Owns(w, i) && w.jobs[i].state == Running;
    if j in w.stages && w.stages[j].Ran? && w.stages[j].run < |w.runs| {
      var r := w.stages[j].run;
      BlockStages(w.(runs := w.runs[r := w.runs[r].(succeeded := Some(succeeded))], stages := w.stages - {j}), Some(j));
    }
  }

  lemma ReplaceStages(w: World, j: nat, clean: bool, accepted: bool)
    requires WorkersOwn(w)
    ensures StagesFollow(w, Replaced(w, j, clean, accepted), None)
  {
    if j < |w.jobs| { BlockStages(w.(jobs := w.jobs[j := w.jobs[j].(state := Abandoned, updatedAt := w.now)]), Some(j)); }
    assert forall i: nat :: i in w.stages ==> Owns(w, i) && w.jobs[i].state == Running;
  }

  lemma StepStages(w: World, act: Action)
    requires WorkersOwn(w)
    ensures StagesFollow(w, Step(w, act), Mover(w, act))
  {
    match act
    case Begin(j) => BeginStages(w, j);
    case EndProcess(j, succeeded, changed) => EndStages(w, j, succeeded, changed);
    case Replace(j, clean, accepted) => ReplaceStages(w, j, clean, accepted);
    case _ => if act.Tick? || act.Rework? || act.Review? { QueueStages(w, act); } else { RestStages(w, act); }
  }

  lemma RestStages(w: World, act: Action)
    requires WorkersOwn(w)
    requires act.StartProcess? || act.Harvest? || act.Crash? || act.MoveMilestone? || act.SetBuilding? || act.Wait?
    ensures StagesFollow(w, Step(w, act), None)
  {
    assert forall j: nat :: j in w.stages ==> Owns(w, j) && w.jobs[j].state == Running;
  }

  /** A milestone moves by one step of its machine. */
  predicate Formed(before: World, after: World) { M.WellFormed(before.milestone) ==> M.WellFormed(after.milestone) }

  lemma TransitionKeepsForm(w: World, expected: M.State, target: M.State, job: Option<nat>, validation: Option<nat>)
    ensures var after := Transition(w, expected, target, job, validation); after.Some? ==> Formed(w, after.value)
  {
  }

  lemma BlockKeepsForm(w: World, job: Option<nat>)
    ensures Formed(w, Block(w, job).GetOr(w))
  {
    TransitionKeepsForm(w, w.milestone.state, M.Blocked, job, None);
  }

  lemma JobStepKeepsForm(w: World, act: Action)
    requires act.Begin? || act.Replace? || act.EndProcess?
    ensures Formed(w, Step(w, act))
  {
    match act
    case Begin(j) =>
      if j < |w.jobs| { BlockKeepsForm(w.(jobs := w.jobs[j := w.jobs[j].(state := Running, updatedAt := w.now)]), Some(j)); }
    case Replace(j, clean, accepted) =>
      if j < |w.jobs| { BlockKeepsForm(w.(jobs := w.jobs[j := w.jobs[j].(state := Abandoned, updatedAt := w.now)]), Some(j)); }
    case EndProcess(j, succeeded, changed) =>
      if j in w.stages && w.stages[j].Ran? && w.stages[j].run < |w.runs| {
        var r := w.stages[j].run;
        var done := w.(runs := w.runs[r := w.runs[r].(succeeded := Some(succeeded))], stages := w.stages - {j});
        BlockKeepsForm(done, Some(j));
        TransitionKeepsForm(done, M.Coding, M.ValidatingChanges, Some(j), None);
      }
  }

  lemma StepKeepsForm(w: World, act: Action)
    ensures Formed(w, Step(w, act))
  {
    match act
    case Tick(kind) => BlockKeepsForm(w, None);
    case Rework(validation) =>
      BlockKeepsForm(w, None);
      TransitionKeepsForm(w, M.ValidatingChanges, M.Coding, None, Some(validation));
    case Review(task) =>
      TransitionKeepsForm(AddJob(w, Job(ReviewRework, Queued, None, None, Some(task), FromReview, w.now)),
        M.ReviewRework, M.Coding, Some(|w.jobs|), None);
    case MoveMilestone(target) => TransitionKeepsForm(w, w.milestone.state, target, None, None);
    case _ => if act.Begin? || act.Replace? || act.EndProcess? { JobStepKeepsForm(w, act); }
  }

  lemma KeepsBasic(before: World, after: World, mover: Option<nat>)
    requires Basic(before) && JobsKept(before, after) && MovesOnly(before, after, mover)
    requires StagesFollow(before, after, mover) && M.WellFormed(after.milestone)
    ensures Basic(after)
  {
    forall j: nat | MovedOn(after.entries, j) ensures j < |after.jobs| && after.jobs[j].state != Queued {
      if Some(j) == mover { assert Owns(before, j); } else { assert MovedOn(before.entries, j); }
    }
    forall j: nat | j in after.stages ensures Owns(after, j) && after.jobs[j].state == Running {
      assert SameJob(before.jobs[j], after.jobs[j]);
      if j in before.stages { assert Owns(before, j); }
    }
  }

  lemma StepKeepsBasic(w: World, act: Action)
    requires Basic(w)
    ensures Basic(Step(w, act))
  {
    StepKeepsJobs(w, act);
    StepMoves(w, act);
    StepStages(w, act);
    StepKeepsForm(w, act);
    KeepsBasic(w, Step(w, act), Mover(w, act));
  }

  lemma {:induction false} AlwaysBasic(run: seq<World>, acts: seq<Action>, n: nat)
    requires IsRun(run, acts) && Fresh(run[0]) && M.WellFormed(run[0].milestone) && n < |run|
    ensures Basic(run[n]) && run[n].limit == run[0].limit
  {
    if n > 0 {
      AlwaysBasic(run, acts, n - 1);
      StepKeepsBasic(run[n - 1], acts[n - 1]);
      StepKeepsLimit(run[n - 1], acts[n - 1]);
      assert run[n - 1 + 1] == Step(run[n - 1], acts[n - 1]);
    }
  }

  // ------------------------------------------------------------------ the second owner

  predicate OtherActive(jobs: seq<Job>, j: nat)
    requires j < |jobs|
  {
    exists i | 0 <= i < |jobs| :: i != j && jobs[i].kind == jobs[j].kind && Active(jobs[i])
  }

  /** This step queues a Codex job: the guards of the three routes, and of recovery's copy. */
  predicate Queues(w: World, act: Action) {
    match act
    case Tick(kind) =>
      && kind == CodexRun && w.building && w.milestone.state == M.Coding && !Owned(w)
      && !SomeActive(w.jobs, CodexRun) && !SomeSpent(w.jobs, CodexRun, Generation(w), Boundary(w))
    case Rework(validation) =>
      && !HandedOff(w.jobs, validation) && |w.runs| < w.limit && w.milestone.state == M.ValidatingChanges
      && var producer := Producer(w);
         producer.Some? && producer.value < |w.jobs| && Codex(w.jobs[producer.value].kind)
         && !IndexRefuses(w.jobs, w.jobs[producer.value].kind)
    case Review(task) =>
      !TaskQueued(w.jobs, task) && w.milestone.state == M.ReviewRework && !IndexRefuses(w.jobs, ReviewRework)
    case Replace(j, _, _) => Copies(w, act) && Codex(w.jobs[j].kind) && !OtherActive(w.jobs, j)
    case _ => false
  }

  /** The job this step takes away from its owner: only the one that is copied. */
  predicate Retires(act: Action, i: nat) { act.Replace? && act.j == i }

  ghost predicate HasOther(w: World, act: Action) {
    exists i: nat :: Owns(w, i) && !Retires(act, i)
  }

  /** The step queues a Codex job while another one owns the milestone. */
  ghost predicate Doubles(w: World, act: Action) { Queues(w, act) && HasOther(w, act) }

  /** The queued job is a new owner, and the others stay as they were. */
  ghost predicate OneMoreOwner(before: World, act: Action, after: World) {
    && Owns(after, |before.jobs|)
    && forall i: nat :: i != |before.jobs| ==> (Owns(after, i) <==> Owns(before, i) && !Retires(act, i))
  }

  ghost predicate NoNewOwner(before: World, after: World) {
    forall i: nat :: Owns(after, i) ==> Owns(before, i)
  }

  lemma TickQueues(w: World)
    requires Basic(w) && Queues(w, Tick(CodexRun))
    ensures OneMoreOwner(w, Tick(CodexRun), Ticked(w, CodexRun))
  {
  }

  lemma ReworkQueues(w: World, validation: nat)
    requires Basic(w) && Queues(w, Rework(validation))
    ensures OneMoreOwner(w, Rework(validation), Reworked(w, validation))
  {
    TransitionMovesNobody(w, M.ValidatingChanges, M.Coding, None, Some(validation));
    var moved := Transition(w, M.ValidatingChanges, M.Coding, None, Some(validation));
    assert moved.Some?;
  }

  lemma ReviewQueues(w: World, task: nat)
    requires Basic(w) && Queues(w, Review(task))
    ensures OneMoreOwner(w, Review(task), ReviewQueued(w, task))
  {
    ReviewMovesNobody(w, task);
    var added := AddJob(w, Job(ReviewRework, Queued, None, None, Some(task), FromReview, w.now));
    assert Transition(added, M.ReviewRework, M.Coding, Some(|w.jobs|)).Some?;
  }

  lemma CopyQueues(w: World, j: nat, clean: bool, accepted: bool)
    requires Basic(w) && Queues(w, Replace(j, clean, accepted))
    ensures OneMoreOwner(w, Replace(j, clean, accepted), Replaced(w, j, clean, accepted))
  {
    var abandoned := w.(jobs := w.jobs[j := w.jobs[j].(state := Abandoned, updatedAt := w.now)]);
    assert !SomeActive(abandoned.jobs, w.jobs[j].kind);
    assert Replaced(w, j, clean, accepted)
        == AddJob(abandoned, w.jobs[j].(state := Queued, origin := FromRecovery, updatedAt := w.now));
  }

  lemma QueuesOneMore(w: World, act: Action)
    requires Basic(w) && Queues(w, act)
    ensures OneMoreOwner(w, act, Step(w, act))
  {
    match act
    case Tick(kind) => TickQueues(w);
    case Rework(validation) => ReworkQueues(w, validation);
    case Review(task) => ReviewQueues(w, task);
    case Replace(j, clean, accepted) => CopyQueues(w, j, clean, accepted);
  }

  /** Without that, no Codex job is added. */
  lemma OthersQueueNone(w: World, act: Action)
    requires !Queues(w, act)
    ensures forall j :: |w.jobs| <= j < |Step(w, act).jobs| ==> !Codex(Step(w, act).jobs[j].kind)
  {
    if act.Replace? && Copies(w, act) && Codex(w.jobs[act.j].kind) {
      var abandoned := w.(jobs := w.jobs[act.j := w.jobs[act.j].(state := Abandoned, updatedAt := w.now)]);
      var i :| 0 <= i < |w.jobs| && i != act.j && w.jobs[i].kind == w.jobs[act.j].kind && Active(w.jobs[i]);
      assert abandoned.jobs[i] == w.jobs[i];
    }
  }

  lemma OthersAddNoOwner(w: World, act: Action)
    requires !Queues(w, act)
    ensures NoNewOwner(w, Step(w, act))
  {
    var after := Step(w, act);
    OthersQueueNone(w, act);
    StepKeepsJobs(w, act);
    StepMoves(w, act);
    forall i: nat | Owns(after, i) ensures Owns(w, i) {
      if i < |w.jobs| { assert SameJob(w.jobs[i], after.jobs[i]); }
    }
  }

  /** A step keeps the owner unique if and only if it does not queue a Codex job beside another
      owner. */
  lemma StepKeepsOneOwnerIff(w: World, act: Action)
    requires Basic(w) && OneOwner(w)
    ensures OneOwner(Step(w, act)) <==> !Doubles(w, act)
  {
    var after := Step(w, act);
    if Queues(w, act) {
      QueuesOneMore(w, act);
      if HasOther(w, act) {
        var i: nat :| Owns(w, i) && !Retires(act, i);
        assert Owns(after, i) && Owns(after, |w.jobs|);
      }
    } else {
      OthersAddNoOwner(w, act);
    }
  }

  /** Recovery copies a Codex job that had moved its milestone on, because nobody had harvested it. */
  ghost predicate Stray(w: World, act: Action) {
    act.Replace? && Queues(w, act) && MovedOn(w.entries, act.j)
  }

  /** Where owners are in their place, that is the only way: the step is a recovery's copy of a
      Codex job that moved its milestone on, while another job owns it. */
  lemma OrderlyStepKeepsOwnerIff(w: World, act: Action)
    requires CodingOwner.Invariant(w)
    ensures OneOwner(Step(w, act)) <==> !(Stray(w, act) && HasOther(w, act))
  {
    StepKeepsOneOwnerIff(w, act);
    if Doubles(w, act) && !Stray(w, act) {
      CopyWithoutStray(w, act);
      StepKeepsOwner(w, act);
    }
  }

  lemma CopyWithoutStray(w: World, act: Action)
    requires Doubles(w, act) && !Stray(w, act)
    ensures Copies(w, act) ==> !MovedOn(w.entries, act.j)
  {
  }

  // ------------------------------------------------------------------ over whole runs

  ghost predicate AlwaysOneOwner(run: seq<World>, n: nat)
    requires n < |run|
  {
    forall k :: 0 <= k <= n ==> OneOwner(run[k])
  }

  ghost predicate NeverDoubled(run: seq<World>, acts: seq<Action>, n: nat)
    requires n <= |acts| < |run|
  {
    forall k :: 0 <= k < n ==> !Doubles(run[k], acts[k])
  }

  /** The owner was unique at every moment of a run if and only if no step queued a Codex job
      beside another owner. */
  lemma {:induction false} OneOwnerIff(run: seq<World>, acts: seq<Action>, n: nat)
    requires IsRun(run, acts) && Fresh(run[0]) && M.WellFormed(run[0].milestone) && n < |run|
    ensures AlwaysOneOwner(run, n) <==> NeverDoubled(run, acts, n)
  {
    if n == 0 {
      assert forall j: nat :: !Owns(run[0], j);
    } else {
      OneOwnerIff(run, acts, n - 1);
      AlwaysBasic(run, acts, n - 1);
      assert run[n - 1 + 1] == Step(run[n - 1], acts[n - 1]);
      if AlwaysOneOwner(run, n - 1) { StepKeepsOneOwnerIff(run[n - 1], acts[n - 1]); }
      assert AlwaysOneOwner(run, n) ==> AlwaysOneOwner(run, n - 1);
      assert NeverDoubled(run, acts, n) <==> NeverDoubled(run, acts, n - 1) && !Doubles(run[n - 1], acts[n - 1]);
    }
  }

  /** The first such step of a run is, or comes after, a stray copy. */
  lemma DoublingNeedsStray(run: seq<World>, acts: seq<Action>, n: nat)
    requires IsRun(run, acts) && Fresh(run[0]) && M.WellFormed(run[0].milestone) && n < |acts|
    requires forall k :: 0 <= k <= n ==> !Stray(run[k], acts[k])
    ensures !Doubles(run[n], acts[n])
  {
    OrderlyReachable(run, acts, n);
    OrderlyStepKeepsOwnerIff(run[n], acts[n]);
    StepKeepsOneOwnerIff(run[n], acts[n]);
  }

  /** Before a first stray copy at most one Codex job may still work for the milestone, whichever
      route queued it, every live worker works for it, and only while the milestone is coded or
      over. */
  lemma OneCodexOwner(run: seq<World>, acts: seq<Action>, n: nat)
    requires IsRun(run, acts) && Fresh(run[0]) && M.WellFormed(run[0].milestone) && n < |run|
    requires forall k :: 0 <= k < n ==> !Stray(run[k], acts[k])
    ensures forall i: nat, j: nat :: Owns(run[n], i) && Owns(run[n], j) ==> i == j
    ensures forall j: nat :: Owns(run[n], j) ==> M.Effective(run[n].milestone) in OWNED_STATES
    ensures forall j: nat :: j in run[n].stages ==> Owns(run[n], j)
  {
    OrderlyReachable(run, acts, n);
  }

  lemma {:induction false} OrderlyReachable(run: seq<World>, acts: seq<Action>, n: nat)
    requires IsRun(run, acts) && Fresh(run[0]) && M.WellFormed(run[0].milestone) && n < |run|
    requires forall k :: 0 <= k < n ==> !Stray(run[k], acts[k])
    ensures CodingOwner.Invariant(run[n])
  {
    if n == 0 {
      assert forall j: nat :: !Owns(run[0], j);
    } else {
      OrderlyReachable(run, acts, n - 1);
      assert run[n - 1 + 1] == Step(run[n - 1], acts[n - 1]);
      HarmlessStepKeeps(run[n - 1], acts[n - 1]);
    }
  }

  lemma HarmlessStepKeeps(w: World, act: Action)
    requires CodingOwner.Invariant(w) && !Stray(w, act)
    ensures CodingOwner.Invariant(Step(w, act))
  {
    if Copies(w, act) && MovedOn(w.entries, act.j) {
      UncopiedKeeps(w, act);
    } else {
      StepKeepsOwner(w, act);
    }
  }

  /** A job that moved its milestone on may be lost without a copy, or be no Codex job at all. */
  lemma UncopiedKeeps(w: World, act: Action)
    requires CodingOwner.Invariant(w) && Copies(w, act) && MovedOn(w.entries, act.j) && !Stray(w, act)
    ensures CodingOwner.Invariant(Step(w, act))
  {
    var j := act.j;
    var abandoned := w.(jobs := w.jobs[j := w.jobs[j].(state := Abandoned, updatedAt := w.now)]);
    StateKeeps(w, j, Abandoned);
    if Codex(w.jobs[j].kind) {
      var i :| 0 <= i < |w.jobs| && i != j && w.jobs[i].kind == w.jobs[j].kind && Active(w.jobs[i]);
      assert abandoned.jobs[i] == w.jobs[i];
      assert Step(w, act) == abandoned;
    } else {
      AddedOther(abandoned, w.jobs[j].(state := Queued, origin := FromRecovery, updatedAt := w.now));
    }
  }

  // ------------------------------------------------------------------ the budget

  lemma OwnersAreFew(w: World)
    requires WorkersOwn(w) && OneOwner(w)
    ensures AtMost(w, 1)
  {
    var checked := CheckedWorkers(w);
    if checked != {} {
      var i :| i in checked;
      forall j: nat | j in checked ensures j == i { assert Owns(w, i) && Owns(w, j); }
      assert checked == {i};
    }
  }

  /** As long as no step queues a Codex job beside another owner, the limit bounds the Codex
      processes that are paid for and the turns from CODING to VALIDATING_CHANGES: over the
      milestone's whole life, on every automatic route, all of them counted together. */
  lemma CodexKeepsTheLimit(run: seq<World>, acts: seq<Action>, n: nat)
    requires IsRun(run, acts) && Fresh(run[0]) && M.WellFormed(run[0].milestone) && n < |run|
    requires NeverDoubled(run, acts, n)
    ensures |run[n].runs| <= run[0].limit && Cycles(run[n].entries) <= run[0].limit
  {
    OneOwnerIff(run, acts, n);
    var prefix, steps := run[..n + 1], acts[..n];
    forall i | 0 <= i < |steps| ensures prefix[i + 1] == Step(prefix[i], steps[i]) {
      assert run[i + 1] == Step(run[i], acts[i]);
    }
    forall i | 0 <= i < |prefix| ensures AtMost(prefix[i], 1) {
      AlwaysBasic(run, acts, i);
      OwnersAreFew(run[i]);
    }
    CodexIsBounded(prefix, steps, 1, n);
  }

  // ------------------------------------------------------------------ the budget check itself

  /** What is spent, and what the workers past the check may still spend. */
  ghost function Claimed(w: World): nat { |w.runs| + |CheckedWorkers(w)| }

  /** The check lets a worker in. */
  predicate LetsIn(w: World, act: Action) {
    && act.Begin? && act.j < |w.jobs| && Codex(w.jobs[act.j].kind) && w.jobs[act.j].state == Queued
    && w.building && w.milestone.state == M.Coding && |w.runs| < w.limit
  }

  /** The check counts processes only: it lets a worker in although those already past it have
      claimed what is left. */
  ghost predicate Overcommits(w: World, act: Action) { LetsIn(w, act) && Claimed(w) >= w.limit }

  lemma LettingInClaims(w: World, act: Action)
    requires WorkersOwn(w) && LetsIn(w, act)
    ensures Claimed(Step(w, act)) == Claimed(w) + 1
  {
    assert act.j !in w.stages;
    assert CheckedWorkers(Step(w, act)) == CheckedWorkers(w) + {act.j};
  }

  /** Nothing else claims anything. */
  lemma OthersClaimNothing(w: World, act: Action)
    requires !LetsIn(w, act)
    ensures Claimed(Step(w, act)) <= Claimed(w)
  {
    var after := Step(w, act);
    if act.Begin? {
      if act.j < |w.jobs| {
        BlockCalm(w.(jobs := w.jobs[act.j := w.jobs[act.j].(state := Running, updatedAt := w.now)]), Some(act.j));
      }
      Subset(CheckedWorkers(after), CheckedWorkers(w));
    } else if act.StartProcess? {
      StartClaims(w, act.j);
    } else if act.EndProcess? {
      EndClaims(w, act.j, act.succeeded, act.changed);
    } else {
      OthersCalm(w, act);
      Subset(CheckedWorkers(after), CheckedWorkers(w));
    }
  }

  lemma StartClaims(w: World, j: nat)
    ensures Claimed(ProcessStarted(w, j)) == Claimed(w)
  {
    if j in w.stages && w.stages[j].Checked? {
      assert CheckedWorkers(ProcessStarted(w, j)) == CheckedWorkers(w) - {j};
    }
  }

  lemma EndClaims(w: World, j: nat, succeeded: bool, changed: bool)
    ensures Claimed(ProcessEnded(w, j, succeeded, changed)) <= Claimed(w)
  {
    if j in w.stages && w.stages[j].Ran? && w.stages[j].run < |w.runs| {
      var r := w.stages[j].run;
      var done := w.(runs := w.runs[r := w.runs[r].(succeeded := Some(succeeded))], stages := w.stages - {j});
      assert CheckedWorkers(done) == CheckedWorkers(w);
      BlockCalm(done, Some(j));
      Subset(CheckedWorkers(ProcessEnded(w, j, succeeded, changed)), CheckedWorkers(done));
    }
  }

  /** The claims stay within the limit if and only if nobody is let in beyond them. */
  lemma StepWithinIff(w: World, act: Action)
    requires WorkersOwn(w) && Claimed(w) <= w.limit
    ensures Claimed(Step(w, act)) <= Step(w, act).limit <==> !Overcommits(w, act)
  {
    StepKeepsLimit(w, act);
    if LetsIn(w, act) { LettingInClaims(w, act); } else { OthersClaimNothing(w, act); }
  }

  /** A way on without another budget check: nobody is let in. */
  ghost predicate GoesOn(w: World, run: seq<World>, acts: seq<Action>) {
    IsRun(run, acts) && run[0] == w && forall act :: act in acts ==> !act.Begin?
  }

  /** The workers already past the check can still take the milestone over its limit. */
  ghost predicate CanExceed(w: World) {
    exists run: seq<World>, acts: seq<Action> :: GoesOn(w, run, acts) && |run[|acts|].runs| > w.limit
  }

  lemma {:induction false} GoingOnClaimsNothing(w: World, run: seq<World>, acts: seq<Action>, n: nat)
    requires GoesOn(w, run, acts) && n < |run|
    ensures Claimed(run[n]) <= Claimed(w)
  {
    if n > 0 {
      GoingOnClaimsNothing(w, run, acts, n - 1);
      assert acts[n - 1] in acts;
      OthersClaimNothing(run[n - 1], acts[n - 1]);
      assert run[n - 1 + 1] == Step(run[n - 1], acts[n - 1]);
    }
  }

  /** Everybody past the check starts a process. */
  lemma {:induction false} EverybodyStarts(w: World) returns (run: seq<World>, acts: seq<Action>)
    ensures GoesOn(w, run, acts) && |run[|acts|].runs| == Claimed(w)
    decreases |CheckedWorkers(w)|
  {
    if CheckedWorkers(w) == {} {
      run, acts := [w], [];
    } else {
      var j: nat :| j in CheckedWorkers(w);
      var next := Step(w, StartProcess(j));
      assert CheckedWorkers(next) == CheckedWorkers(w) - {j};
      StartClaims(w, j);
      run, acts := EverybodyStarts(next);
      Prepend(w, StartProcess(j), run, acts);
      run, acts := [w] + run, [StartProcess(j)] + acts;
    }
  }

  lemma Prepend(w: World, act: Action, run: seq<World>, acts: seq<Action>)
    requires GoesOn(Step(w, act), run, acts) && !act.Begin?
    ensures GoesOn(w, [w] + run, [act] + acts)
  {
    var longer, more := [w] + run, [act] + acts;
    forall i | 0 <= i < |more| ensures longer[i + 1] == Step(longer[i], more[i]) {
      if i > 0 { assert run[i - 1 + 1] == Step(run[i - 1], acts[i - 1]); }
    }
  }

  /** They can if and only if what is spent and what they have claimed is more than the limit. */
  lemma CanExceedIff(w: World)
    ensures CanExceed(w) <==> Claimed(w) > w.limit
  {
    if CanExceed(w) {
      var run: seq<World>, acts: seq<Action> :| GoesOn(w, run, acts) && |run[|acts|].runs| > w.limit;
      GoingOnClaimsNothing(w, run, acts, |acts|);
    } else if Claimed(w) > w.limit {
      var run, acts := EverybodyStarts(w);
    }
  }

  ghost predicate NeverOvercommitted(run: seq<World>, acts: seq<Action>, n: nat)
    requires n <= |acts| < |run|
  {
    forall k :: 0 <= k < n ==> !Overcommits(run[k], acts[k])
  }

  ghost predicate NeverBeyond(run: seq<World>, n: nat)
    requires n < |run|
  {
    forall k :: 0 <= k <= n ==> !CanExceed(run[k])
  }

  ghost predicate NeverTooMany(run: seq<World>, n: nat)
    requires n < |run|
  {
    forall k :: 0 <= k <= n ==> Claimed(run[k]) <= run[k].limit
  }

  lemma {:induction false} ClaimsStayWithinIff(run: seq<World>, acts: seq<Action>, n: nat)
    requires IsRun(run, acts) && Fresh(run[0]) && M.WellFormed(run[0].milestone) && n < |run|
    ensures NeverTooMany(run, n) <==> NeverOvercommitted(run, acts, n)
  {
    if n == 0 {
      assert CheckedWorkers(run[0]) == {};
    } else {
      ClaimsStayWithinIff(run, acts, n - 1);
      AlwaysBasic(run, acts, n - 1);
      assert run[n - 1 + 1] == Step(run[n - 1], acts[n - 1]);
      if NeverTooMany(run, n - 1) { StepWithinIff(run[n - 1], acts[n - 1]); }
      assert NeverTooMany(run, n) <==> NeverTooMany(run, n - 1) && Claimed(run[n]) <= run[n].limit;
      assert NeverOvercommitted(run, acts, n) <==>
        NeverOvercommitted(run, acts, n - 1) && !Overcommits(run[n - 1], acts[n - 1]);
    }
  }

  /** The budget is safe all along a run, from what anybody past the check may still do, if and
      only if the check never let a worker in beyond the claims. */
  lemma BudgetIsSafeIff(run: seq<World>, acts: seq<Action>, n: nat)
    requires IsRun(run, acts) && Fresh(run[0]) && M.WellFormed(run[0].milestone) && n < |run|
    ensures NeverBeyond(run, n) <==> NeverOvercommitted(run, acts, n)
  {
    ClaimsStayWithinIff(run, acts, n);
    forall k | 0 <= k <= n ensures CanExceed(run[k]) <==> Claimed(run[k]) > run[k].limit { CanExceedIff(run[k]); }
  }

  lemma QueuedOwnerIsAlone(w: World, i: nat)
    requires Basic(w) && OneOwner(w) && i < |w.jobs| && Codex(w.jobs[i].kind) && w.jobs[i].state == Queued
    ensures CheckedWorkers(w) == {}
  {
    assert Owns(w, i);
    assert forall j: nat :: j in w.stages ==> Owns(w, j);
  }

  /** With one owner nobody is let in beyond the claims. */
  lemma OneOwnerNeverOvercommits(w: World, act: Action)
    requires Basic(w) && OneOwner(w)
    ensures !Overcommits(w, act)
  {
    if LetsIn(w, act) { QueuedOwnerIsAlone(w, act.j); }
  }
}
