/** How one milestone's implementation is driven: the lifecycle coordinator, the bounded rework
    handoffs, the two Codex executors and startup recovery, over one set of rows. */
module CodingLoop {
  import opened Wrappers
  import M = MilestoneMachine

  datatype JobKind = CodexRun | ReviewRework | ChangeValidate

  /** Waiting, dispatched and running jobs are alike to everyone but their own worker. */
  datatype JobState = Queued | Running | Succeeded | Failed | Cancelled | Abandoned

  /** Which code put a job into the table. */
  datatype Origin = FromLifecycle | FromValidation | FromReview | FromRecovery

  datatype Job = Job(
    kind: JobKind, state: JobState, generation: Option<nat>, validation: Option<nat>, task: Option<nat>,
    origin: Origin, updatedAt: nat)

  /** A milestone transition in the history, with the job that made it and the validation it
      hands over for rework, if any. */
  datatype Entry = Entry(previous: M.State, state: M.State, at: nat, job: Option<nat>, validation: Option<nat>)

  /** One paid Codex process. */
  datatype Run = Run(job: nat, succeeded: Option<bool>)

  /** A live Codex worker between its budget check, its process and its result. */
  datatype Stage = Checked | Ran(run: nat)

  datatype World = World(
    milestone: M.Row, building: bool, entries: seq<Entry>, jobs: seq<Job>, runs: seq<Run>,
    stages: map<nat, Stage>, limit: nat, now: nat)

  predicate Active(job: Job) { job.state in {Queued, Running} }

  predicate Codex(kind: JobKind) { kind in {CodexRun, ReviewRework} }

  /** The transition a new lifecycle job answers to: the latest one. */
  function Generation(w: World): nat { |w.entries| }

  function Boundary(w: World): nat { if w.entries == [] then 0 else w.entries[|w.entries| - 1].at }

  // ------------------------------------------------------------------ transactions

  function Transition(w: World, expected: M.State, target: M.State, job: Option<nat>, validation: Option<nat> := None)
    : Option<World>
  {
    match M.Apply(w.milestone, expected, target)
    case Failure(_) => None
    case Success(row) =>
      Some(w.(milestone := row, entries := w.entries + [Entry(expected, target, w.now, job, validation)]))
  }

  /** Block the milestone, if it is not, and the building project; `None` when it cannot. */
  function Block(w: World, job: Option<nat>): Option<World> {
    if w.milestone.state == M.Blocked then Some(w.(building := false))
    else
      match Transition(w, w.milestone.state, M.Blocked, job)
      case None => None
      case Some(blocked) => Some(blocked.(building := false))
  }

  function AddJob(w: World, job: Job): World { w.(jobs := w.jobs + [job]) }

  predicate SomeActive(jobs: seq<Job>, kind: JobKind) {
    exists j | 0 <= j < |jobs| :: jobs[j].kind == kind && Active(jobs[j])
  }

  /** A finished job of this kind that belongs to the latest transition. */
  predicate Spent(job: Job, kind: JobKind, generation: nat, boundary: nat) {
    && job.kind == kind && !Active(job)
    && (job.generation == Some(generation) || (job.generation.None? && job.updatedAt >= boundary))
  }

  predicate SomeSpent(jobs: seq<Job>, kind: JobKind, generation: nat, boundary: nat) {
    exists j | 0 <= j < |jobs| :: Spent(jobs[j], kind, generation, boundary)
  }

  function Expected(kind: JobKind): M.State { if kind == ChangeValidate then M.ValidatingChanges else M.Coding }

  /** Review rework keeps CODING to itself: a correction of its own output belongs to the job that
      correction was handed to, and any other entry to review rework once there has been any. */
  predicate Owned(w: World) {
    var entry := LatestInto(w.entries, M.Coding);
    if entry.Some? && w.entries[entry.value].validation.Some?
    then exists j | 0 <= j < |w.jobs| :: w.jobs[j].kind == ReviewRework && w.jobs[j].validation == w.entries[entry.value].validation
    else exists j | 0 <= j < |w.jobs| :: w.jobs[j].kind == ReviewRework
  }

  function NewestReview(jobs: seq<Job>): (r: Option<nat>)
    ensures r.Some? ==> r.value < |jobs| && jobs[r.value].kind == ReviewRework
    ensures r.Some? ==> forall j :: r.value < j < |jobs| ==> jobs[j].kind != ReviewRework
    ensures r.None? ==> forall j :: 0 <= j < |jobs| ==> jobs[j].kind != ReviewRework
  {
    if jobs == [] then None
    else if jobs[|jobs| - 1].kind == ReviewRework then Some(|jobs| - 1)
    else NewestReview(jobs[..|jobs| - 1])
  }

  /** What is blocked and queued in a tick where review rework owns CODING: a finished owner ends
      the entry. */
  function OwnerTicked(w: World): World {
    var owner := NewestReview(w.jobs);
    if owner.Some? && !Active(w.jobs[owner.value]) then Block(w, None).GetOr(w) else w
  }

  /** One scheduler tick for the milestone: review rework is never reinterpreted as initial work. */
  function Ticked(w: World, kind: JobKind): World {
    if kind == ReviewRework then w
    else if kind == CodexRun && w.building && w.milestone.state == M.Coding && Owned(w) then OwnerTicked(w)
    else Enqueued(w, kind)
  }

  /** The locked half of a tick: one job for each entry, and a finished one ends the entry in
      BLOCKED. */
  function Enqueued(w: World, kind: JobKind): World {
    if w.milestone.state != Expected(kind) || !w.building || SomeActive(w.jobs, kind) then w
    else if SomeSpent(w.jobs, kind, Generation(w), Boundary(w)) then Block(w, None).GetOr(w)
    else AddJob(w, Job(kind, Queued, Some(Generation(w)), None, None, FromLifecycle, w.now))
  }

  predicate HandedOff(jobs: seq<Job>, validation: nat) {
    exists j | 0 <= j < |jobs| :: Codex(jobs[j].kind) && jobs[j].validation == Some(validation)
  }

  /** The job that produced what is being validated: it made the latest transition into
      VALIDATING_CHANGES, or, failing that, ran the newest successful process. */
  function Producer(w: World): Option<nat> {
    var latest := LatestInto(w.entries, M.ValidatingChanges);
    if latest.Some? && w.entries[latest.value].job.Some? then w.entries[latest.value].job
    else NewestSuccess(w.runs)
  }

  function LatestInto(entries: seq<Entry>, state: M.State): (r: Option<nat>)
    ensures r.Some? ==> r.value < |entries| && entries[r.value].state == state
  {
    if entries == [] then None
    else if entries[|entries| - 1].state == state then Some(|entries| - 1)
    else LatestInto(entries[..|entries| - 1], state)
  }

  function NewestSuccess(runs: seq<Run>): Option<nat> {
    if runs == [] then None
    else if runs[|runs| - 1].succeeded == Some(true) then Some(runs[|runs| - 1].job)
    else NewestSuccess(runs[..|runs| - 1])
  }

  /** The unique index: one active review rework job for the milestone. */
  predicate IndexRefuses(jobs: seq<Job>, kind: JobKind) { kind == ReviewRework && SomeActive(jobs, ReviewRework) }

  /** One durable handoff for each validation that asks for rework. */
  function Reworked(w: World, validation: nat): World {
    if HandedOff(w.jobs, validation) then w
    else if |w.runs| >= w.limit then Block(w, None).GetOr(w)
    else
      var producer := Producer(w);
      if producer.None? || producer.value >= |w.jobs| || !Codex(w.jobs[producer.value].kind) then w
      else if IndexRefuses(w.jobs, w.jobs[producer.value].kind) then w
      else
        match Transition(w, M.ValidatingChanges, M.Coding, None, Some(validation))
        case None => w
        case Some(moved) =>
          AddJob(moved, Job(w.jobs[producer.value].kind, Queued, None, Some(validation),
            w.jobs[producer.value].task, FromValidation, w.now))
  }

  predicate TaskQueued(jobs: seq<Job>, task: nat) {
    exists j | 0 <= j < |jobs| :: jobs[j].kind == ReviewRework && jobs[j].task == Some(task)
  }

  /** One Codex job for each Architect rework task. */
  function ReviewQueued(w: World, task: nat): World {
    if TaskQueued(w.jobs, task) || w.milestone.state != M.ReviewRework || IndexRefuses(w.jobs, ReviewRework) then w
    else
      var added := AddJob(w, Job(ReviewRework, Queued, None, None, Some(task), FromReview, w.now));
      Transition(added, M.ReviewRework, M.Coding, Some(|w.jobs|)).GetOr(w)
  }

  // ------------------------------------------------------------------ the Codex worker

  /** The scheduler starts a queued Codex job, once, and its worker checks the budget. */
  function Begun(w: World, j: nat): World {
    if j >= |w.jobs| || !Codex(w.jobs[j].kind) || w.jobs[j].state != Queued then w
    else
      var started := w.(jobs := w.jobs[j := w.jobs[j].(state := Running, updatedAt := w.now)]);
      if !w.building || w.milestone.state != M.Coding then started
      else if |w.runs| >= w.limit then Block(started, Some(j)).GetOr(started)
      else started.(stages := started.stages[j := Checked])
  }

  /** The paid process starts: one row more. */
  function ProcessStarted(w: World, j: nat): World {
    if j !in w.stages || !w.stages[j].Checked? then w
    else w.(runs := w.runs + [Run(j, None)], stages := w.stages[j := Ran(|w.runs|)])
  }

  /** The process ends: real changes move the milestone on to validation, none block it. */
  function ProcessEnded(w: World, j: nat, succeeded: bool, changed: bool): World {
    if j !in w.stages || !w.stages[j].Ran? || w.stages[j].run >= |w.runs| then w
    else
      var r := w.stages[j].run;
      var done := w.(runs := w.runs[r := w.runs[r].(succeeded := Some(succeeded))], stages := w.stages - {j});
      if !succeeded then done
      else if !changed then Block(done, Some(j)).GetOr(done)
      else Transition(done, M.Coding, M.ValidatingChanges, Some(j)).GetOr(done)
  }

  // ------------------------------------------------------------------ everyone else

  /** The lost job had already handed its route on; `accepted` stands for a validation job's
      own evidence. */
  predicate HandedOn(w: World, j: nat, accepted: bool)
    requires j < |w.jobs|
  {
    if Codex(w.jobs[j].kind) then
      w.milestone.state == M.ValidatingChanges && exists r | r in w.runs :: r == Run(j, Some(true))
    else
      w.milestone.state == M.Committing && accepted
  }

  /** Startup recovery of a lost worker's job: abandon it, and, unless its route was handed on,
      queue a copy when its workspace is clean and no other job of the kind is active. */
  function Replaced(w: World, j: nat, clean: bool, accepted: bool): World {
    if j >= |w.jobs| || w.jobs[j].state != Running || j in w.stages then w
    else
      var abandoned := w.(jobs := w.jobs[j := w.jobs[j].(state := Abandoned, updatedAt := w.now)]);
      if HandedOn(w, j, accepted) then abandoned
      else if !clean then Block(abandoned, Some(j)).GetOr(abandoned)
      else if SomeActive(abandoned.jobs, w.jobs[j].kind) then abandoned
      else AddJob(abandoned, w.jobs[j].(state := Queued, origin := FromRecovery, updatedAt := w.now))
  }

  datatype Action =
    | Tick(kind: JobKind)
    | Rework(validation: nat)
    | Review(task: nat)
    | Begin(j: nat)
    | StartProcess(j: nat)
    | EndProcess(j: nat, succeeded: bool, changed: bool)
    | Replace(j: nat, clean: bool, accepted: bool)
    | Harvest(j: nat, state: JobState)
    | Crash(j: nat)
    | MoveMilestone(target: M.State)
    | SetBuilding(building: bool)
    | Wait(time: nat)

  /** The harvest ends a job, milestones move by every other route but CODING to VALIDATING,
      a worker may vanish, and time passes. */
  function Step(w: World, act: Action): World {
    match act
    case Tick(kind) => Ticked(w, kind)
    case Rework(validation) => Reworked(w, validation)
    case Review(task) => ReviewQueued(w, task)
    case Begin(j) => Begun(w, j)
    case StartProcess(j) => ProcessStarted(w, j)
    case EndProcess(j, succeeded, changed) => ProcessEnded(w, j, succeeded, changed)
    case Replace(j, clean, accepted) => Replaced(w, j, clean, accepted)
    case Harvest(j, state) =>
      if j < |w.jobs| && Active(w.jobs[j]) && j !in w.stages && state !in {Queued, Running}
      then w.(jobs := w.jobs[j := w.jobs[j].(state := state, updatedAt := w.now)]) else w
    case Crash(j) => w.(stages := w.stages - {j})
    case MoveMilestone(target) =>
      if w.milestone.state == M.Coding && target == M.ValidatingChanges then w
      else Transition(w, w.milestone.state, target, None).GetOr(w)
    case SetBuilding(building) => w.(building := building)
    case Wait(time) => w.(now := w.now + time)
  }

  ghost predicate IsRun(run: seq<World>, acts: seq<Action>) {
    && |run| == |acts| + 1
    && forall i {:trigger Step(run[i], acts[i])} :: 0 <= i < |acts| ==> run[i + 1] == Step(run[i], acts[i])
  }
}
