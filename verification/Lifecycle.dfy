/** The lifecycle coordinator of one project: milestones are started in order, one at a time,
    although a tick reads its rows before the transaction it acts in. */
module Lifecycle {
  import opened Wrappers
  import M = MilestoneMachine

  datatype ProjectState = Ready | Building | Completing | Complete | Other

  /** A tick between reading the rows and acting on them. */
  datatype Tick = Tick(rows: seq<M.State>, unblocked: bool)

  type TickId = nat

  /** The milestones are in sequence order, each depending on the one before it. */
  datatype World = World(project: ProjectState, milestones: seq<M.Row>, queued: seq<nat>, ticks: map<TickId, Tick>)

  predicate AtRest(s: M.State) { s in {M.Pending, M.Complete, M.Failed, M.Cancelled} }

  predicate IsReady(s: M.State) { s == M.Ready }
  predicate IsPending(s: M.State) { s == M.Pending }
  predicate IsActive(s: M.State) { !AtRest(s) }

  function StatesOf(milestones: seq<M.Row>): seq<M.State> {
    seq(|milestones|, i requires 0 <= i < |milestones| => milestones[i].state)
  }

  // ------------------------------------------------------------------ the repository

  /** Its dependency, the milestone before it, is complete. */
  predicate Eligible(milestones: seq<M.Row>, i: nat) {
    i == 0 || (i - 1 < |milestones| && milestones[i - 1].state == M.Complete)
  }

  /** The unique index: no second row outside rest. */
  predicate SlotFree(milestones: seq<M.Row>, i: nat) {
    forall j :: 0 <= j < |milestones| && j != i ==> AtRest(milestones[j].state)
  }

  datatype Refusal = Invalid | Dependencies | SlotTaken

  function Apply(milestones: seq<M.Row>, i: nat, expected: M.State, target: M.State): Result<seq<M.Row>, Refusal> {
    if i >= |milestones| then Failure(Invalid)
    else
      match M.Apply(milestones[i], expected, target)
      case Failure(_) => Failure(Invalid)
      case Success(row) =>
        if expected == M.Pending && target == M.Ready && !Eligible(milestones, i) then Failure(Dependencies)
        else if !AtRest(target) && !SlotFree(milestones, i) then Failure(SlotTaken)
        else Success(milestones[i := row])
  }

  // ------------------------------------------------------------------ one tick

  /** The first row in sequence order with a property, if any. */
  function First(rows: seq<M.State>, test: M.State -> bool): (r: Option<nat>)
    ensures r.Some? ==> r.value < |rows| && test(rows[r.value])
    ensures r.Some? ==> forall i :: 0 <= i < r.value ==> !test(rows[i])
    ensures r.None? ==> forall i :: 0 <= i < |rows| ==> !test(rows[i])
  {
    if rows == [] then None
    else if test(rows[0]) then Some(0)
    else
      match First(rows[1..], test)
      case None => None
      case Some(i) => Some(i + 1)
  }

  predicate AllComplete(rows: seq<M.State>) { forall s | s in rows :: s == M.Complete }

  function Update(w: World, outcome: Result<seq<M.Row>, Refusal>): World {
    if outcome.Success? then w.(milestones := outcome.value) else w
  }

  /** What a tick does with rows that may be stale by now. */
  function Acted(w: World, t: Tick): World {
    if t.rows != [] && AllComplete(t.rows) && t.unblocked then
      if w.project == Building then w.(project := Complete) else w
    else
      match First(t.rows, IsReady)
      case Some(i) =>
        var outcome := Apply(w.milestones, i, M.Ready, M.PreparingTask);
        if outcome.Success? then w.(milestones := outcome.value, queued := w.queued + [i]) else w
      case None =>
        if First(t.rows, IsActive).Some? then w
        else
          match First(t.rows, IsPending)
          case Some(i) => Update(w, Apply(w.milestones, i, M.Pending, M.Ready))
          case None => w
  }

  /** Insert the planned milestones once; the sequence numbers are unique. */
  function Materialised(w: World, planned: nat): World {
    if w.milestones != [] || planned == 0 || w.project != Ready then w
    else
      w.(milestones := seq(planned, i => M.Row(if i == 0 then M.Ready else M.Pending, None)), project := Building)
  }

  datatype Action =
    | Materialise(planned: nat)
    | Read(id: TickId, unblocked: bool)
    | Act(id: TickId)
    | Lose(id: TickId)
    | Move(i: nat, target: M.State)
    | SetProject(project: ProjectState)

  /** Any number of ticks at once, any of which may be lost; every other writer of milestones goes
      through the same repository; only the coordinator completes a project. */
  function Step(w: World, act: Action): World {
    match act
    case Materialise(planned) => Materialised(w, planned)
    case Read(id, unblocked) =>
      if w.project == Building then w.(ticks := w.ticks[id := Tick(StatesOf(w.milestones), unblocked)]) else w
    case Act(id) => if id in w.ticks then Acted(w, w.ticks[id]).(ticks := w.ticks - {id}) else w
    case Lose(id) => w.(ticks := w.ticks - {id})
    case Move(i, target) =>
      if i >= |w.milestones| then w else Update(w, Apply(w.milestones, i, w.milestones[i].state, target))
    case SetProject(project) => if w.project == Complete || project == Complete then w else w.(project := project)
  }

  ghost predicate IsRun(run: seq<World>, acts: seq<Action>) {
    && |run| == |acts| + 1
    && forall i {:trigger Step(run[i], acts[i])} :: 0 <= i < |acts| ==> run[i + 1] == Step(run[i], acts[i])
  }

  ghost predicate Initial(w: World) {
    w.milestones == [] && w.ticks == map[] && w.project != Complete
  }

  // ------------------------------------------------------------------ the order of milestones

  /** A milestone that ever left PENDING, other than by cancellation, has only complete ones
      before it. */
  ghost predicate InOrder(milestones: seq<M.Row>) {
    && (forall i :: 0 <= i < |milestones| ==> M.WellFormed(milestones[i]))
    && forall i, j :: 0 <= j < i < |milestones| && milestones[i].state !in {M.Pending, M.Cancelled} ==>
         milestones[j].state == M.Complete
  }

  /** Rows a tick has read are never fresher than the table: what was complete still is. */
  ghost predicate TickOk(w: World, t: Tick) {
    && (t.rows == [] || |t.rows| == |w.milestones|)
    && forall i :: 0 <= i < |t.rows| && t.rows[i] == M.Complete ==> w.milestones[i].state == M.Complete
  }

  ghost predicate Invariant(w: World) {
    && InOrder(w.milestones)
    && (forall id :: id in w.ticks ==> TickOk(w, w.ticks[id]))
    && (w.project == Complete ==> w.milestones != [] && forall i :: 0 <= i < |w.milestones| ==> w.milestones[i].state == M.Complete)
  }

  lemma CompleteIsFinal(before: M.Row, expected: M.State, target: M.State)
    requires before.state == M.Complete
    ensures M.Apply(before, expected, target).Failure?
  {
  }

  lemma ApplyKeepsOrder(milestones: seq<M.Row>, i: nat, expected: M.State, target: M.State)
    requires InOrder(milestones) && Apply(milestones, i, expected, target).Success?
    ensures var after := Apply(milestones, i, expected, target).value;
      && InOrder(after) && |after| == |milestones|
      && forall j :: 0 <= j < |milestones| && milestones[j].state == M.Complete ==> after[j].state == M.Complete
  {
    var after := Apply(milestones, i, expected, target).value;
    assert M.Step(milestones[i], after[i]);
    M.StepKeepsWellFormed(milestones[i], after[i]);
    forall k, j | 0 <= j < k < |after| && after[k].state !in {M.Pending, M.Cancelled}
      ensures after[j].state == M.Complete
    {
      if k == i && milestones[i].state == M.Pending {
        assert milestones[i - 1].state == M.Complete;
      }
    }
  }

  lemma AppliedKeeps(w: World, after: World, i: nat, expected: M.State, target: M.State)
    requires Invariant(w) && Apply(w.milestones, i, expected, target).Success?
    requires after.milestones == Apply(w.milestones, i, expected, target).value
    requires after.project == w.project && after.ticks == w.ticks
    ensures Invariant(after)
  {
    ApplyKeepsOrder(w.milestones, i, expected, target);
    forall id | id in after.ticks ensures TickOk(after, after.ticks[id]) { assert TickOk(w, w.ticks[id]); }
  }

  lemma ActedKeeps(w: World, t: Tick)
    requires Invariant(w) && TickOk(w, t)
    ensures Invariant(Acted(w, t)) && Acted(w, t).ticks == w.ticks
  {
    if t.rows != [] && AllComplete(t.rows) && t.unblocked {
      forall i | 0 <= i < |w.milestones| ensures w.milestones[i].state == M.Complete { assert t.rows[i] in t.rows; }
    } else {
      var ready := First(t.rows, IsReady);
      var pending := First(t.rows, IsPending);
      if ready.Some? {
        if Apply(w.milestones, ready.value, M.Ready, M.PreparingTask).Success? {
          AppliedKeeps(w, Acted(w, t), ready.value, M.Ready, M.PreparingTask);
        }
      } else if First(t.rows, IsActive).None? && pending.Some? {
        if Apply(w.milestones, pending.value, M.Pending, M.Ready).Success? {
          AppliedKeeps(w, Acted(w, t), pending.value, M.Pending, M.Ready);
        }
      }
    }
  }

  lemma StepKeepsInvariant(w: World, act: Action)
    requires Invariant(w)
    ensures Invariant(Step(w, act))
  {
    match act
    case Materialise(planned) =>
      forall id | id in w.ticks ensures w.ticks[id].rows == [] || w.milestones != [] {
        assert TickOk(w, w.ticks[id]);
      }
    case Act(id) => if id in w.ticks { ActedKeeps(w, w.ticks[id]); LoseKeeps(Acted(w, w.ticks[id]), id); }
    case Lose(id) => LoseKeeps(w, id);
    case Move(i, target) =>
      if i < |w.milestones| && Apply(w.milestones, i, w.milestones[i].state, target).Success? {
        AppliedKeeps(w, Step(w, act), i, w.milestones[i].state, target);
      }
    case _ =>
  }

  lemma LoseKeeps(w: World, id: TickId)
    requires Invariant(w)
    ensures Invariant(w.(ticks := w.ticks - {id}))
  {
    var after := w.(ticks := w.ticks - {id});
    forall other | other in after.ticks ensures TickOk(after, after.ticks[other]) { assert TickOk(w, w.ticks[other]); }
  }

  lemma {:induction false} Reachable(run: seq<World>, acts: seq<Action>, n: nat)
    requires IsRun(run, acts) && Initial(run[0]) && n < |run|
    ensures Invariant(run[n])
  {
    if n > 0 {
      Reachable(run, acts, n - 1);
      StepKeepsInvariant(run[n - 1], acts[n - 1]);
      assert run[n - 1 + 1] == Step(run[n - 1], acts[n - 1]);
    }
  }

  /** In every reachable state at most one milestone is under way, everything before it is
      COMPLETE, and a project is COMPLETE only when all its milestones are: stale rows, ticks
      that overlap and ticks that are lost change nothing of that. */
  lemma MilestonesRunInOrder(run: seq<World>, acts: seq<Action>, n: nat)
    requires IsRun(run, acts) && Initial(run[0]) && n < |run|
    ensures forall i, j :: 0 <= j < i < |run[n].milestones| && !AtRest(run[n].milestones[i].state) ==>
      run[n].milestones[j].state == M.Complete
    ensures forall i, j :: 0 <= j < i < |run[n].milestones| ==>
      AtRest(run[n].milestones[i].state) || AtRest(run[n].milestones[j].state)
    ensures run[n].project == Complete ==>
      forall row :: row in run[n].milestones ==> row.state == M.Complete
  {
    Reachable(run, acts, n);
  }

  /** The dependencies alone keep the slot: the unique index never has to refuse anything. */
  lemma IndexNeverRefuses(run: seq<World>, acts: seq<Action>, n: nat, i: nat, expected: M.State, target: M.State)
    requires IsRun(run, acts) && Initial(run[0]) && n < |run|
    ensures Apply(run[n].milestones, i, expected, target) != Failure(SlotTaken)
  {
    Reachable(run, acts, n);
    OrderKeepsSlot(run[n].milestones, i, expected, target);
  }

  /** A transition into an active state starts from an active one, or starts the milestone. */
  lemma ActiveSource(row: M.Row, expected: M.State, target: M.State)
    requires M.WellFormed(row) && M.Apply(row, expected, target).Success? && !AtRest(target)
    ensures row.state !in {M.Complete, M.Failed, M.Cancelled} && row.state == expected
    ensures row.state == M.Pending ==> target == M.Ready
  {
    M.StepKeepsWellFormed(row, M.Apply(row, expected, target).value);
  }

  lemma OthersAtRest(milestones: seq<M.Row>, i: nat, j: nat)
    requires InOrder(milestones) && i < |milestones| && j < |milestones| && i != j
    requires milestones[i].state !in {M.Complete, M.Failed, M.Cancelled}
    requires milestones[i].state == M.Pending ==> Eligible(milestones, i)
    ensures AtRest(milestones[j].state)
  {
    if j < i && milestones[i].state == M.Pending { assert milestones[i - 1].state == M.Complete; }
  }

  lemma OrderKeepsSlot(milestones: seq<M.Row>, i: nat, expected: M.State, target: M.State)
    requires InOrder(milestones)
    ensures Apply(milestones, i, expected, target) != Failure(SlotTaken)
  {
    if i < |milestones| && M.Apply(milestones[i], expected, target).Success? && !AtRest(target) {
      ActiveSource(milestones[i], expected, target);
      if milestones[i].state == M.Pending ==> Eligible(milestones, i) {
        forall j | 0 <= j < |milestones| && j != i ensures AtRest(milestones[j].state) {
          OthersAtRest(milestones, i, j);
        }
      }
    }
  }

  // ------------------------------------------------------------------ the coordinator

  /** Others never touch this tick's rows. */
  predicate LeavesTick(act: Action, me: TickId) {
    match act
    case Read(id, _) => id != me
    case Act(id) => id != me
    case Lose(id) => id != me
    case _ => true
  }

  ghost predicate Others(batch: seq<Action>, me: TickId) { forall act :: act in batch ==> LeavesTick(act, me) }

  lemma OthersLeaveTick(w: World, act: Action, me: TickId)
    requires LeavesTick(act, me)
    ensures me in Step(w, act).ticks <==> me in w.ticks
    ensures me in w.ticks ==> Step(w, act).ticks[me] == w.ticks[me]
  {
  }

  lemma OneMore(run: seq<World>, acts: seq<Action>, act: Action)
    requires IsRun(run, acts)
    ensures IsRun(run + [Step(run[|acts|], act)], acts + [act])
  {
  }

  class LifecycleCoordinator {
    var project: ProjectState
    var milestones: seq<M.Row>
    var queued: seq<nat>

    /** The rows that overlapping ticks hold; this coordinator's tick is number `me`. */
    var ticks: map<TickId, Tick>
    const me: TickId

    /** What everyone else does before the next steps. */
    var schedule: seq<seq<Action>>

    /** The run of the whole system since `start`. */
    ghost const start: World
    ghost var run: seq<World>
    ghost var history: seq<Action>

    ghost predicate Valid()
      reads this
    {
      && IsRun(run, history) && start == run[0] && Snapshot() == run[|history|]
      && forall batch :: batch in schedule ==> Others(batch, me)
    }

    function Snapshot(): World
      reads this
    {
      World(project, milestones, queued, ticks)
    }

    constructor (w: World, me: TickId, schedule: seq<seq<Action>>)
      requires forall batch :: batch in schedule ==> Others(batch, me)
      ensures Valid() && Snapshot() == w && this.me == me && start == w && history == []
    {
      project, milestones, queued, ticks := w.project, w.milestones, w.queued, w.ticks;
      this.me, this.schedule := me, schedule;
      this.start, this.run, this.history := w, [w], [];
    }

    /** Other ticks, other writers of milestones and projects may all act here. */
    method Interfere()
      requires Valid()
      modifies this
      ensures Valid()
      ensures me in ticks <==> me in old(ticks)
      ensures me in ticks ==> ticks[me] == old(ticks)[me]
      ensures old(schedule) == [] ==> schedule == [] && Snapshot() == old(Snapshot())
    {
      if schedule != [] {
        var batch := schedule[0];
        schedule := schedule[1..];
        var i := 0;
        while i < |batch|
          invariant 0 <= i <= |batch| && Valid() && Others(batch, me)
          invariant me in ticks <==> me in old(ticks)
          invariant me in ticks ==> ticks[me] == old(ticks)[me]
        {
          ghost var before := Snapshot();
          var w := Step(World(project, milestones, queued, ticks), batch[i]);
          OthersLeaveTick(before, batch[i], me);
          project, milestones, queued, ticks := w.project, w.milestones, w.queued, w.ticks;
          Took(before, batch[i]);
          i := i + 1;
        }
      }
    }

    /** One step has been taken. */
    ghost method Took(before: World, act: Action)
      requires IsRun(run, history) && start == run[0] && before == run[|history|] && Snapshot() == Step(before, act)
      requires forall batch :: batch in schedule ==> Others(batch, me)
      modifies this`run, this`history
      ensures Valid() && history == old(history) + [act]
    {
      OneMore(run, history, act);
      run, history := run + [Snapshot()], history + [act];
    }

    method ReadRows() returns (rows: seq<M.State>)
      ensures rows == StatesOf(milestones)
    {
      rows := [];
      var i := 0;
      while i < |milestones|
        invariant 0 <= i <= |milestones| && rows == StatesOf(milestones[..i])
      {
        assert milestones[..i + 1] == milestones[..i] + [milestones[i]];
        rows := rows + [milestones[i].state];
        i := i + 1;
      }
      assert milestones[..i] == milestones;
    }

    method FindFirst(rows: seq<M.State>, test: M.State -> bool) returns (found: Option<nat>)
      ensures found == First(rows, test)
    {
      var i := 0;
      assert rows[0..] == rows;
      while i < |rows|
        invariant 0 <= i <= |rows|
        invariant forall j :: 0 <= j < i ==> !test(rows[j])
      {
        if test(rows[i]) {
          FirstIs(rows, test, i);
          return Some(i);
        }
        i := i + 1;
      }
      found := None;
    }

    method ApplyTransition(i: nat, expected: M.State, target: M.State) returns (ok: bool)
      modifies this`milestones
      ensures ok <==> Apply(old(milestones), i, expected, target).Success?
      ensures milestones == if ok then Apply(old(milestones), i, expected, target).value else old(milestones)
    {
      if i >= |milestones| { return false; }
      var outcome := M.Apply(milestones[i], expected, target);
      if outcome.Failure? { return false; }
      if expected == M.Pending && target == M.Ready && !Eligible(milestones, i) { return false; }
      if !AtRest(target) && !SlotFree(milestones, i) { return false; }
      milestones := milestones[i := outcome.value];
      ok := true;
    }

    method EveryComplete(rows: seq<M.State>) returns (complete: bool)
      ensures complete <==> AllComplete(rows)
    {
      complete := true;
      var k := 0;
      while k < |rows|
        invariant 0 <= k <= |rows|
        invariant complete <==> forall i :: 0 <= i < k ==> rows[i] == M.Complete
      {
        complete := complete && rows[k] == M.Complete;
        k := k + 1;
      }
      assert forall i :: 0 <= i < |rows| ==> rows[i] in rows;
    }

    /** Start the ready milestone, and queue its task with it. */
    method StartReady(i: nat) returns (count: nat)
      modifies this`milestones, this`queued
      ensures project == old(project)
      ensures var outcome := Apply(old(milestones), i, M.Ready, M.PreparingTask);
        if outcome.Success? then milestones == outcome.value && queued == old(queued) + [i]
        else milestones == old(milestones) && queued == old(queued)
    {
      var ok := ApplyTransition(i, M.Ready, M.PreparingTask);
      if ok { queued := queued + [i]; }
      count := if ok then 1 else 0;
    }

    /** The acting half of a tick, on rows read earlier. */
    method Building(t: Tick) returns (count: nat)
      modifies this`project, this`milestones, this`queued
      ensures Snapshot() == Acted(old(Snapshot()), t)
    {
      count := 0;
      var complete := EveryComplete(t.rows);
      if t.rows != [] && complete && t.unblocked {
        if project == ProjectState.Building { project, count := Complete, 1; }
        return;
      }
      var ready := FindFirst(t.rows, IsReady);
      if ready.Some? {
        count := StartReady(ready.value);
        return;
      }
      var active := FindFirst(t.rows, IsActive);
      if active.Some? { return; }
      var pending := FindFirst(t.rows, IsPending);
      if pending.Some? {
        var ok := ApplyTransition(pending.value, M.Pending, M.Ready);
        count := if ok then 1 else 0;
      }
    }

    /** Insert the approved milestones, all or none, and start building. */
    method InsertApproved(planned: nat) returns (count: nat)
      modifies this`project, this`milestones
      ensures Snapshot() == Materialised(old(Snapshot()), planned)
    {
      count := 0;
      if milestones != [] || planned == 0 || project != Ready { return; }
      var rows: seq<M.Row> := [];
      var i := 0;
      while i < planned
        invariant 0 <= i <= planned && |rows| == i
        invariant forall j :: 0 <= j < i ==> rows[j] == M.Row(if j == 0 then M.Ready else M.Pending, None)
      {
        rows := rows + [M.Row(if i == 0 then M.Ready else M.Pending, None)];
        i := i + 1;
      }
      milestones, project, count := rows, ProjectState.Building, 1;
      assert milestones == seq(planned, j => M.Row(if j == 0 then M.Ready else M.Pending, None));
    }

    // ---------------------------------------------------------------- the coordinator's ticks

    /** The tick that turns an approved design into milestones. */
    method MaterialiseDue(planned: nat) returns (count: nat)
      requires Valid()
      modifies this
      ensures Valid()
      ensures old(schedule) == [] ==> schedule == [] && Snapshot() == Materialised(old(Snapshot()), planned)
    {
      Interfere();
      ghost var before := Snapshot();
      count := InsertApproved(planned);
      Took(before, Action.Materialise(planned));
    }

    /** One tick over a building project: it reads the rows, and acts on them in a transaction of
        its own, whatever happened in between. */
    method BuildDue(unblocked: bool) returns (count: nat)
      requires Valid() && me !in ticks
      modifies this
      ensures Valid() && me !in ticks
      ensures old(schedule) == [] ==> schedule == [] && Snapshot() == Ticked(old(Snapshot()), unblocked)
    {
      count := 0;
      if project != ProjectState.Building { return; }
      ghost var before, t := Snapshot(), Tick(StatesOf(milestones), unblocked);
      LookAtRows(unblocked);
      ActedLeavesTicks(before, t, ticks);
      Interfere();
      count := ActOnRows();
      assert before.ticks[me := t] - {me} == before.ticks;
    }

    /** The reading half of a tick. */
    method LookAtRows(unblocked: bool)
      requires Valid() && project == ProjectState.Building
      modifies this`ticks, this`run, this`history
      ensures Valid() && ticks == old(ticks)[me := Tick(StatesOf(milestones), unblocked)]
    {
      ghost var before := Snapshot();
      var rows := ReadRows();
      ticks := ticks[me := Tick(rows, unblocked)];
      Took(before, Read(me, unblocked));
    }

    /** The acting half, in a transaction of its own. */
    method ActOnRows() returns (count: nat)
      requires Valid() && me in ticks
      modifies this`project, this`milestones, this`queued, this`ticks, this`run, this`history
      ensures Valid() && me !in ticks
      ensures Snapshot() == Acted(old(Snapshot()), old(ticks)[me]).(ticks := old(ticks) - {me})
    {
      ghost var before := Snapshot();
      count := Building(ticks[me]);
      ticks := ticks - {me};
      Took(before, Act(me));
    }
  }

  /** Which ticks are on their way decides nothing. */
  lemma ActedLeavesTicks(w: World, t: Tick, ticks: map<TickId, Tick>)
    ensures Acted(w.(ticks := ticks), t) == Acted(w, t).(ticks := ticks)
  {
  }

  /** A tick that nothing disturbs acts on the rows as they are. */
  function Ticked(w: World, unblocked: bool): World {
    if w.project == Building then Acted(w, Tick(StatesOf(w.milestones), unblocked)) else w
  }

  /** Whatever the coordinator did on whatever rows, and whatever came in between, its milestones
      run in order, one at a time, and its project is complete only with all of them. */
  lemma CoordinatorRunsInOrder(coordinator: LifecycleCoordinator)
    requires coordinator.Valid() && Initial(coordinator.start)
    ensures forall i, j :: 0 <= j < i < |coordinator.milestones| && !AtRest(coordinator.milestones[i].state) ==>
      coordinator.milestones[j].state == M.Complete
    ensures forall i, j :: 0 <= j < i < |coordinator.milestones| ==>
      AtRest(coordinator.milestones[i].state) || AtRest(coordinator.milestones[j].state)
    ensures coordinator.project == Complete ==>
      forall row :: row in coordinator.milestones ==> row.state == M.Complete
  {
    MilestonesRunInOrder(coordinator.run, coordinator.history, |coordinator.history|);
  }

  lemma {:induction false} FirstIs(rows: seq<M.State>, test: M.State -> bool, i: nat)
    requires i < |rows| && test(rows[i]) && forall j :: 0 <= j < i ==> !test(rows[j])
    ensures First(rows, test) == Some(i)
  {
    if i > 0 {
      assert forall j :: 0 <= j < i - 1 ==> rows[1..][j] == rows[j + 1];
      FirstIs(rows[1..], test, i - 1);
    }
  }
}
