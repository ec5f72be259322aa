/** The Gatekeeper as the program it is: methods that read and write the shared database in
    transactions and call the provider, while everything else runs between their steps.
    Each method is shown to be a run of the merge protocol.  A `hide` at the head of a method
    leaves out the definitions its proof does not need. */
module GatekeeperService {
  import opened Wrappers
  import M = MilestoneMachine
  import P = MergePolicy
  import opened MergeSaga
  import opened MergeSafety
  import opened MergeTheorems

  datatype Error = PolicyRejected | MergeBusy | Identity | Provider

  /** What the provider call for the mutation comes back with, if anything. */
  datatype Reply = NoReply | Answer(status: P.MergeStatus) | Raised

  /** What the last look before the mutation shows. */
  datatype Look = Unreachable | AlreadyMerged | StillOpen | Different

  /** An attempt as it was read, with its milestone's state. */
  datatype Context = Context(attempt: P.Attempt, state: M.State)

  function Actor(act: Action): Option<WorkerId> {
    match act
    case Env(env) => if env.Crash? then Some(env.id) else None
    case _ => Some(act.id)
  }

  ghost predicate Others(acts: seq<Action>, me: WorkerId) {
    forall act :: act in acts ==> Actor(act) != Some(me)
  }

  /** How many PUTs `me` sends in a run. */
  ghost function Puts(acts: seq<Action>, me: WorkerId): nat {
    if acts == [] then 0
    else Puts(acts[..|acts| - 1], me) + if acts[|acts| - 1] == Action.Execute(me, SendPut) then 1 else 0
  }

  lemma StepLeavesOthers(w: World, act: Action, me: WorkerId)
    requires Actor(act) != Some(me)
    ensures PcOf(Step(w, act), me) == PcOf(w, me)
  {
    match act
    case Env(env) => EnvLeavesOthers(w, env, me);
    case Prepare(id, prepare) => PrepareLeavesOthers(w, id, PcOf(w, id), prepare, me);
    case Execute(id, execute) => ExecuteLeavesOthers(w, id, PcOf(w, id), execute, me);
    case Verify(id, verify) => VerifyLeavesOthers(w, id, PcOf(w, id), verify, me);
    case Recover(id, recover) => RecoverLeavesOthers(w, id, PcOf(w, id), recover, me);
  }

  lemma EnvLeavesOthers(w: World, act: EnvAction, me: WorkerId)
    requires act != Crash(me)
    ensures PcOf(StepEnv(w, act), me) == PcOf(w, me)
  {
  }

  lemma PrepareLeavesOthers(w: World, id: WorkerId, pc: Pc, act: PrepareAction, me: WorkerId)
    requires id != me
    ensures PcOf(StepPrepare(w, id, pc, act), me) == PcOf(w, me)
  {
  }

  lemma ExecuteLeavesOthers(w: World, id: WorkerId, pc: Pc, act: ExecuteAction, me: WorkerId)
    requires id != me
    ensures PcOf(StepExecute(w, id, pc, act), me) == PcOf(w, me)
  {
    if act in {Reject, Adopt, Finish} {
      ReportsLeaveOthers(w, id, pc, act, me);
    }
  }

  lemma ReportedWorkers(w: World, a: nat, status: P.MergeStatus)
    requires a < |w.attempts|
    ensures Reported(w, a, status).workers == w.workers
  {
  }

  lemma ReportsLeaveOthers(w: World, id: WorkerId, pc: Pc, act: ExecuteAction, me: WorkerId)
    requires id != me && act in {Reject, Adopt, Finish}
    ensures PcOf(StepExecute(w, id, pc, act), me) == PcOf(w, me)
  {
    if act.Reject? {
      if pc.ExecRejecting? && pc.a < |w.attempts| { ReportedWorkers(w, pc.a, P.Rejected); }
    } else if act.Adopt? {
      if pc.ExecSawMerged? && pc.a < |w.attempts| { ReportedWorkers(w, pc.a, P.MergedStatus); }
    } else if pc.Replied? && pc.a < |w.attempts| {
      ReportedWorkers(w, pc.a, pc.status);
    }
  }

  lemma VerifyLeavesOthers(w: World, id: WorkerId, pc: Pc, act: VerifyAction, me: WorkerId)
    requires id != me
    ensures PcOf(StepVerify(w, id, pc, act), me) == PcOf(w, me)
  {
  }

  lemma RecoverLeavesOthers(w: World, id: WorkerId, pc: Pc, act: RecoverAction, me: WorkerId)
    requires id != me
    ensures PcOf(StepRecover(w, id, pc, act), me) == PcOf(w, me)
  {
  }

  lemma GrowsTransitive(a: World, b: World, c: World)
    requires Grows(a, b) && Grows(b, c)
    ensures Grows(a, c)
  {
    forall i | 0 <= i < |a.attempts| ensures SameAttempt(a.attempts[i], c.attempts[i]) {
      assert SameAttempt(a.attempts[i], b.attempts[i]) && SameAttempt(b.attempts[i], c.attempts[i]);
    }
  }

  lemma GrowsReflexive(w: World)
    ensures Grows(w, w)
  {
  }

  /** Nothing is undone from one moment of a run to a later one. */
  lemma {:induction false} RunGrows(run: seq<World>, acts: seq<Action>, i: nat, j: nat)
    requires IsRun(run, acts) && i <= j < |run|
    ensures Grows(run[i], run[j])
  {
    if i == j {
      GrowsReflexive(run[i]);
    } else {
      RunGrows(run, acts, i, j - 1);
      StepGrows(run[j - 1], acts[j - 1]);
      assert run[j - 1 + 1] == Step(run[j - 1], acts[j - 1]);
      GrowsTransitive(run[i], run[j - 1], run[j]);
    }
  }

  lemma SameTransitive(a: P.Attempt, b: P.Attempt, c: P.Attempt)
    requires SameAttempt(a, b) && SameAttempt(b, c)
    ensures SameAttempt(a, c)
  {
  }

  /** The attempt's mutation may have begun. */
  ghost predicate Started(w: World, a: nat) {
    a < |w.attempts| && w.attempts[a].mutationStarted
  }

  lemma GrowingIsRemembered(before: World, after: World)
    requires Grows(before, after)
    ensures forall a: nat, context :: a < |before.attempts| && SameAttempt(context, before.attempts[a]) ==>
      a < |after.attempts| && SameAttempt(context, after.attempts[a])
  {
    forall a: nat | a < |before.attempts| ensures SameAttempt(before.attempts[a], after.attempts[a]) {}
  }

  /** The step `act` takes `w` to `after`. */
  ghost predicate Takes(w: World, act: Action, after: World) {
    IsRun([w, after], [act])
  }

  lemma OneStep(w: World, act: Action)
    ensures Takes(w, act, Step(w, act))
  {
    var run, acts := [w, Step(w, act)], [act];
    assert forall i :: 0 <= i < |acts| ==> run[i + 1] == Step(run[i], acts[i]);
  }

  /** A run may be taken one step further. */
  lemma OneMore(run: seq<World>, acts: seq<Action>, act: Action, after: World, me: WorkerId)
    requires IsRun(run, acts) && Takes(run[|acts|], act, after)
    ensures IsRun(run + [after], acts + [act])
    ensures Puts(acts + [act], me) == Puts(acts, me) + (if act == Action.Execute(me, SendPut) then 1 else 0)
  {
    var longer, more := run + [after], acts + [act];
    assert more[..|more| - 1] == acts;
    var one, action := [run[|acts|], after], [act];
    assert one[0 + 1] == Step(one[0], action[0]);
    forall i | 0 <= i < |more| ensures longer[i + 1] == Step(longer[i], more[i]) {
      if i < |acts| { assert run[i + 1] == Step(run[i], acts[i]); }
    }
  }

  /** Where a worker stands after its last look. */
  function PlaceAfter(look: Look, a: nat): Pc {
    match look
    case Unreachable => Idle
    case AlreadyMerged => ExecSawMerged(a)
    case StillOpen => ExecSawOpen(a)
    case Different => ExecRejecting(a)
  }

  function NextReply(replies: seq<Reply>): Reply { if replies == [] then NoReply else replies[0] }

  /** What is made of a reply when the merge is not there to be seen. */
  function Concluded(reply: Reply): Result<P.MergeStatus, Error> {
    match reply
    case Raised => Failure(Provider)
    case NoReply => Success(P.Unknown)
    case Answer(status) => Success(if status == P.Requested then P.Unknown else status)
  }

  /** What an undisturbed execution of an executable attempt comes to: a merge that is there is
      adopted, an open pull request under a clear policy gets its one PUT, and anything else is
      rejected before any. */
  ghost predicate AsObserved(before: World, a: nat, clear: bool, reply: Reply, result: Result<P.MergeStatus, Error>, puts: int) {
    match if clear then Looked(before, a) else Different
    case AlreadyMerged => result == Success(P.MergedStatus) && puts == 0
    case StillOpen => result == Concluded(reply) && puts == 1
    case _ => result == Success(P.Rejected) && puts == 0
  }

  /** The world without the places of workers in their code. */
  function Durable(w: World): World { w.(workers := map[]) }

  /** Marking an attempt, and sending for it, show in neither its milestone nor its pull request. */
  lemma MarkingReads(w: World, a: nat)
    requires Executable(w, a) && Looked(w, a).StillOpen?
    ensures Answerable(w.(attempts := w.attempts[a := w.attempts[a].(mutationStarted := true)]), a)
  {
  }

  lemma SendingReads(w: World, sent: seq<Put>, inFlight: set<Put>, a: nat)
    ensures Answerable(w.(sent := sent, inFlight := inFlight), a) <==> Answerable(w, a)
  {
  }

  lemma DurableIntent(w: World, r: P.Request, evaluation: P.Evaluation)
    ensures Durable(InsertIntent(w, r, evaluation)) == InsertIntent(Durable(w), r, evaluation)
  {
  }

  lemma DurableReads(w: World, a: nat)
    ensures Executable(Durable(w), a) <==> Executable(w, a)
    ensures SlotTaken(Durable(w)) <==> SlotTaken(w)
    ensures forall state :: Observed(Durable(w), a, state) <==> Observed(w, a, state)
    ensures forall state :: InState(Durable(w), a, state) <==> InState(w, a, state)
    ensures a < |w.attempts| ==> (SaveAccepted(Durable(w), a) <==> SaveAccepted(w, a))
  {
  }

  /** A worker that comes to rest changes no row and no attempt. */
  lemma RestingReads(w: World, me: WorkerId, a: nat)
    ensures Goto(w, me, Idle).attempts == w.attempts && Durable(Goto(w, me, Idle)) == Durable(w)
    ensures PcOf(Goto(w, me, Idle), me) == Idle
    ensures forall state :: InState(Goto(w, me, Idle), a, state) <==> InState(w, a, state)
  {
  }

  predicate MayPrepare(w: World, r: P.Request) { P.MayMerge(w.t, r, Get(w, r)) }

  /** What an undisturbed preparation needs: every guard passes and the global slot is free. */
  predicate Preparable(w: World, r: P.Request) { MayPrepare(w, r) && !SlotTaken(w) }

  /** An eligible intent for `r` was inserted. */
  ghost predicate Intended(before: World, after: World, r: P.Request) {
    exists evaluation: P.Evaluation :: evaluation.request == r && evaluation.eligible && after == InsertIntent(before, r, evaluation)
  }

  /** An intent is inserted exactly where it can be.  The trigger leaves the many guards folded
      until a request is asked about. */
  ghost predicate PreparedAs(before: World, after: World, r: P.Request, done: bool) {
    forall q {:trigger Preparable(before, q)} :: q == r ==>
      (done <==> Preparable(before, q)) && (done ==> Intended(before, after, q))
  }

  /** What the preparing transaction leaves, when it decides on what the provider still shows. */
  lemma IntentIsPrepared(w: World, r: P.Request, live: Option<P.Live>, evaluation: P.Evaluation, done: bool)
    requires live == Get(Durable(w), r) && evaluation.request == r
    requires evaluation.eligible <==> P.MayMerge(w.t, r, live)
    requires done <==>
      evaluation.eligible && !SlotTaken(w) && Transition(w, r.milestone, M.MergeReady, M.Merging).Some?
    ensures PreparedAs(Durable(w), Durable(if evaluation.eligible then InsertIntent(w, r, evaluation) else w), r, done)
  {
    DurableReads(w, 0);
    DurableIntent(w, r, evaluation);
  }

  predicate Clear(w: World, a: nat) {
    a < |w.attempts| && P.Joined(w.t, w.attempts[a]) && P.ExecutionPolicy(w.t, w.attempts[a])
  }

  function Looked(w: World, a: nat): Look {
    if Observed(w, a, P.Merged) then AlreadyMerged else if Observed(w, a, P.Open) then StillOpen else Different
  }

  /** A PUT is answered for a merging milestone whose merge is not there to be seen. */
  predicate Answerable(w: World, a: nat) { InState(w, a, M.Merging) && !Observed(w, a, P.Merged) }

  predicate AwaitsVerification(w: World, a: nat) {
    InState(w, a, M.MergeVerify) && w.attempts[a].status == P.Requested
  }

  predicate Accepted(w: World, a: nat) { a < |w.attempts| && SaveAccepted(w, a) }

  /** The completing transaction goes through. */
  predicate Completable(w: World, a: nat) {
    InState(w, a, M.MergeVerify) && Accepted(w, a)
  }

  function Confirmed(accepted: bool): Result<bool, Error> { if accepted then Success(true) else Failure(Identity) }

  /** What an undisturbed verification comes to: it completes exactly a merge that is there to be
      seen, of an attempt that awaits it. */
  function Verification(w: World, a: nat): Result<bool, Error> {
    if !AwaitsVerification(w, a) then Failure(Identity)
    else if !Observed(w, a, P.Merged) then Success(false)
    else Confirmed(Accepted(w, a))
  }

  predicate AwaitsRecovery(w: World, a: nat) {
    (InState(w, a, M.Merging) || InState(w, a, M.MergeVerify)) && Recoverable(w.attempts[a].status)
  }

  /** A recovery that saw the merge with the milestone in `state`, and what is left of it. */
  predicate AwaitsFrom(w: World, a: nat, state: M.State) {
    AwaitsRecovery(w, a) && InState(w, a, state) && Observed(w, a, P.Merged)
  }

  predicate Confirmable(w: World, a: nat, accepted: bool) {
    AwaitsFrom(w, a, M.MergeVerify) && (Accepted(w, a) <==> accepted)
  }

  predicate ConfirmsAs(w: World, a: nat, result: Result<bool, Error>) {
    AwaitsFrom(w, a, M.MergeVerify) ==> result == Confirmed(Accepted(w, a))
  }

  /** The same for a recovery, which an attempt given up as UNKNOWN may still await. */
  function Recovery(w: World, a: nat): Result<bool, Error> {
    if !AwaitsRecovery(w, a) then Failure(Identity)
    else if !Observed(w, a, P.Merged) then Success(false)
    else Confirmed(Accepted(w, a))
  }

  class Gatekeeper {
    const me: WorkerId
    var world: World

    /** What everyone else does before this worker's next steps, and how the provider behaves
        towards it: `true` for a read that fails, and the replies to mutations. */
    var schedule: seq<seq<Action>>
    var outages: seq<bool>
    var replies: seq<Reply>

    /** The run of the whole system since `start`. */
    ghost const start: World
    ghost var run: seq<World>
    ghost var history: seq<Action>

    ghost predicate Valid()
      reads this
    {
      && IsRun(run, history) && start == run[0] && world == run[|history|]
      && forall batch :: batch in schedule ==> Others(batch, me)
    }

    ghost predicate Resting()
      reads this
    {
      PcOf(world, me) == Idle
    }

    constructor (me: WorkerId, world: World, schedule: seq<seq<Action>>, outages: seq<bool>, replies: seq<Reply>)
      requires forall batch :: batch in schedule ==> Others(batch, me)
      ensures Valid() && this.me == me && this.world == world && start == world && history == []
    {
      this.me, this.world, this.schedule, this.outages, this.replies := me, world, schedule, outages, replies;
      this.start, this.run, this.history := world, [world], [];
    }

    /** Nobody else acts, and every provider read answers. */
    ghost predicate Undisturbed()
      reads this
    {
      schedule == [] && outages == []
    }

    /** Tables, attempts and pull requests are as they were. */
    ghost predicate OnlyMoved(before: World)
      reads this
    {
      Durable(world) == Durable(before)
    }

    /** The attempt this worker read a while ago is still the same attempt. */
    ghost predicate Remembers(a: nat, context: P.Attempt)
      reads this
    {
      a < |world.attempts| && SameAttempt(context, world.attempts[a])
    }

    /** The attempt that was number `a` then is the same attempt now. */
    ghost predicate Kept(before: World, a: nat)
      reads this
    {
      a < |before.attempts| ==> Remembers(a, before.attempts[a])
    }

    /** Anything may happen here. */
    method Interfere()
      requires Valid()
      modifies this`world, this`schedule, this`run, this`history
      ensures Valid() && Puts(history, me) == old(Puts(history, me))
      ensures PcOf(world, me) == old(PcOf(world, me)) && old(|world.attempts|) <= |world.attempts|
      ensures forall a, context :: old(Remembers(a, context)) ==> Remembers(a, context)
      ensures forall a :: Kept(old(world), a)
      ensures old(Undisturbed()) ==> Undisturbed() && world == old(world)
      ensures outages == old(outages)
    {
      if schedule != [] {
        var batch := schedule[0];
        schedule := schedule[1..];
        var i := 0;
        while i < |batch|
          invariant 0 <= i <= |batch| && Valid() && Others(batch, me)
          invariant Puts(history, me) == old(Puts(history, me))
          invariant PcOf(world, me) == old(PcOf(world, me)) && old(|world.attempts|) <= |world.attempts|
          invariant forall a, context :: old(Remembers(a, context)) ==> Remembers(a, context)
        {
          SomeoneElse(batch[i]);
          i := i + 1;
        }
      }
    }

    /** The same, for a worker that remembers an attempt. */
    method Wait(a: nat, context: P.Attempt)
      requires Valid() && Remembers(a, context)
      modifies this`world, this`schedule, this`run, this`history
      ensures Valid() && Puts(history, me) == old(Puts(history, me))
      ensures PcOf(world, me) == old(PcOf(world, me)) && Remembers(a, context)
      ensures old(Undisturbed()) ==> Undisturbed() && world == old(world)
      ensures outages == old(outages)
    {
      Interfere();
    }

    /** The same, for a worker that is about to read an attempt, or none. */
    method Pause(a: nat)
      requires Valid()
      modifies this`world, this`schedule, this`run, this`history
      ensures Valid() && Puts(history, me) == old(Puts(history, me))
      ensures PcOf(world, me) == old(PcOf(world, me)) && Kept(old(world), a)
      ensures old(Undisturbed()) ==> Undisturbed() && world == old(world)
      ensures outages == old(outages)
    {
      Interfere();
    }

    method Yield()
      requires Valid()
      modifies this`world, this`schedule, this`run, this`history
      ensures Valid() && Puts(history, me) == old(Puts(history, me))
      ensures PcOf(world, me) == old(PcOf(world, me))
      ensures old(Undisturbed()) ==> Undisturbed() && world == old(world)
      ensures outages == old(outages)
    {
      Interfere();
    }

    /** One step of somebody else. */
    method SomeoneElse(act: Action)
      requires Valid() && Actor(act) != Some(me)
      modifies this`world, this`run, this`history
      ensures Valid() && Puts(history, me) == old(Puts(history, me))
      ensures PcOf(world, me) == old(PcOf(world, me)) && old(|world.attempts|) <= |world.attempts|
      ensures forall a, context :: old(Remembers(a, context)) ==> Remembers(a, context)
    {
      ghost var before := world;
      world := Step(world, act);
      OneStep(before, act);
      StepLeavesOthers(before, act, me);
      StepGrows(before, act);
      GrowingIsRemembered(before, world);
      Took(before, act);
    }

    /** One step has been taken. */
    ghost method Took(before: World, act: Action)
      requires IsRun(run, history) && start == run[0] && before == run[|history|] && Takes(before, act, world)
      requires forall batch :: batch in schedule ==> Others(batch, me)
      modifies this`run, this`history
      ensures Valid()
      ensures Puts(history, me) == old(Puts(history, me)) + (if act == Action.Execute(me, SendPut) then 1 else 0)
    {
      OneMore(run, history, act, world, me);
      run, history := run + [world], history + [act];
    }

    /** The last step of a method: the transaction is done and the worker rests. */
    method Settle(ghost before: World, ghost act: Action)
      requires IsRun(run, history) && start == run[0] && before == run[|history|]
      requires forall batch :: batch in schedule ==> Others(batch, me)
      requires Takes(before, act, Goto(world, me, Idle)) && act != Action.Execute(me, SendPut)
      modifies this`world, this`run, this`history
      ensures Valid() && Resting() && Puts(history, me) == old(Puts(history, me))
      ensures world == Goto(old(world), me, Idle)
    {
      world := Goto(world, me, Idle);
      Took(before, act);
    }

    method MoveTo(pc: Pc)
      modifies this`world
      ensures world == Goto(old(world), me, pc)
    {
      world := world.(workers := world.workers[me := pc]);
    }

    /** The worker stops here, by an exception or a crash. */
    method Abandon()
      requires Valid()
      modifies this`world, this`run, this`history
      ensures Valid() && Resting() && Puts(history, me) == old(Puts(history, me))
      ensures world == old(world).(workers := old(world).workers - {me})
    {
      ghost var before := world;
      world := world.(workers := world.workers - {me});
      CrashIsStep(before, me);
      Took(before, Env(Crash(me)));
    }

    /** One provider read: it fails, or shows the pull request as it is now. */
    method Fetch(r: P.Request) returns (reachable: bool, live: Option<P.Live>)
      modifies this`outages
      ensures live == Get(world, r)
      ensures old(outages) == [] ==> reachable && outages == []
    {
      reachable := outages == [] || !outages[0];
      outages := if outages == [] then [] else outages[1..];
      live := if KeyOf(r) in world.provider then Some(world.provider[KeyOf(r)]) else None;
    }

    /** The milestone repository's guarded transition. */
    method ApplyTransition(m: P.Id, expected: M.State, target: M.State) returns (ok: bool)
      modifies this`world
      ensures Transition(old(world), m, expected, target) == (if ok then Some(world) else None)
      ensures !ok ==> world == old(world)
    {
      if m !in world.t.milestones { return false; }
      var outcome := M.Apply(world.t.milestones[m].row, expected, target);
      if outcome.Failure? { return false; }
      world := world.(t := world.t.(milestones :=
        world.t.milestones[m := world.t.milestones[m].(row := outcome.value)]));
      ok := true;
    }

    // ---------------------------------------------------------------- prepare

    /** A first evaluation that turns hopeless requests away. */
    method Screen(r: P.Request) returns (hopeful: bool)
      requires Valid() && Resting()
      modifies this`world, this`run, this`history, this`outages
      ensures Valid() && Puts(history, me) == old(Puts(history, me))
      ensures PcOf(world, me) == if hopeful then PrepEvaluated(r) else Idle
      ensures !hopeful ==> PreparedAs(Durable(old(world)), Durable(world), r, false)
      ensures OnlyMoved(old(world))
      ensures old(outages) == [] ==> outages == []
    {
      DurableReads(world, 0);
      var _, live := Fetch(r);
      var evaluation := P.EvaluatePersisted(world.t, r, live);
      hopeful := evaluation.eligible;
      if hopeful {
        ghost var before := world;
        MoveTo(PrepEvaluated(r));
        EvaluateIsStep(before, me, r);
        Took(before, Action.Prepare(me, Evaluate(r)));
      }
    }

    /** The fresh observation, before the writing transaction opens. */
    method FreshPull(r: P.Request) returns (reachable: bool, live: Option<P.Live>)
      requires Valid() && PcOf(world, me) == PrepEvaluated(r)
      modifies this`world, this`run, this`history, this`outages
      ensures Valid() && Puts(history, me) == old(Puts(history, me))
      ensures PcOf(world, me) == if reachable then PrepFetched(r, live) else Idle
      ensures live == Get(Durable(old(world)), r) && OnlyMoved(old(world))
      ensures old(outages) == [] ==> reachable && outages == []
    {
      DurableReads(world, 0);
      reachable, live := Fetch(r);
      ghost var before := world;
      MoveTo(if reachable then PrepFetched(r, live) else Idle);
      FetchIsStep(before, me, r, reachable);
      Took(before, Action.Prepare(me, PrepareAction.Fetch(reachable)));
    }

    /** Insert the attempt and move the milestone, or change nothing. */
    method Intend(r: P.Request, evaluation: P.Evaluation) returns (result: Result<nat, Error>)
      modifies this`world
      ensures world == InsertIntent(old(world), r, evaluation)
      ensures result.Success? ==>
        && result.value == |old(world).attempts| && |world.attempts| == result.value + 1
        && world.attempts[result.value] == P.AttemptOf(r, evaluation) && InState(world, result.value, M.Merging)
      ensures result.Failure? ==> world == old(world)
      ensures result.Success? <==> !SlotTaken(old(world)) && Transition(old(world), r.milestone, M.MergeReady, M.Merging).Some?
    {
      hide SlotTaken;
      if SlotTaken(world) { return Failure(MergeBusy); }
      var saved := world;
      world := world.(attempts := world.attempts + [P.AttemptOf(r, evaluation)]);
      var moved := ApplyTransition(r.milestone, M.MergeReady, M.Merging);
      if !moved {
        world := saved;
        return Failure(Identity);
      }
      result := Success(|world.attempts| - 1);
    }

    /** The body of the preparing transaction: evaluate again, then insert and move. */
    method Decide(r: P.Request, live: Option<P.Live>) returns (evaluation: P.Evaluation, result: Result<nat, Error>)
      requires PcOf(world, me) == PrepFetched(r, live)
      modifies this`world
      ensures Takes(old(world), Action.Prepare(me, PrepareAction.CommitIntent(evaluation)), Goto(world, me, Idle))
      ensures result.Success? ==>
        && evaluation.request == r && evaluation.eligible && result.value + 1 == |world.attempts|
        && world.attempts[result.value] == P.AttemptOf(r, evaluation) && InState(world, result.value, M.Merging)
      ensures result.Failure? ==> world == old(world)
      ensures live == Get(Durable(old(world)), r) ==> PreparedAs(Durable(old(world)), Durable(world), r, result.Success?)
    {
      hide P.MayMerge, InState, PreparedAs, InsertIntent, SlotTaken, Transition, Durable;
      ghost var before := world;
      evaluation := P.EvaluatePersisted(world.t, r, live);
      CommitIsStep(world, me, r, live, evaluation);
      if evaluation.eligible {
        result := Intend(r, evaluation);
      } else {
        result := Failure(PolicyRejected);
      }
      if live == Get(Durable(before), r) { IntentIsPrepared(before, r, live, evaluation, result.Success?); }
    }

    /** What a prepared attempt looks like. */
    ghost predicate Prepared(a: nat, r: P.Request)
      reads this
    {
      && a + 1 == |world.attempts| && InState(world, a, M.Merging)
      && world.attempts[a].evaluation.request == r && world.attempts[a].evaluation.eligible
      && world.attempts[a].status == P.Requested && !world.attempts[a].mutationStarted
    }

    /** The preparing transaction: evaluate again, then insert and move. */
    method CommitIntent(r: P.Request, live: Option<P.Live>) returns (result: Result<nat, Error>)
      requires Valid() && PcOf(world, me) == PrepFetched(r, live)
      modifies this`world, this`run, this`history
      ensures Valid() && Resting() && Puts(history, me) == old(Puts(history, me))
      ensures result.Success? ==> Prepared(result.value, r)
      ensures result.Failure? ==> world == Goto(old(world), me, Idle)
      ensures live == Get(Durable(old(world)), r) ==> PreparedAs(Durable(old(world)), Durable(world), r, result.Success?)
    {
      hide IsRun, Puts, PreparedAs, Takes, Others, Durable, Goto, InState, PcOf;
      ghost var before := world;
      var evaluation;
      evaluation, result := Decide(r, live);
      RestingReads(world, me, if result.Success? then result.value else 0);
      Settle(before, Action.Prepare(me, PrepareAction.CommitIntent(evaluation)));
    }

    /** Persist approval, intent and MERGING in one transaction before any mutation. */
    method Prepare(r: P.Request) returns (result: Result<nat, Error>)
      requires Valid() && Resting()
      modifies this`world, this`schedule, this`run, this`history, this`outages
      ensures Valid() && Resting() && Puts(history, me) == old(Puts(history, me))
      ensures result.Success? ==> Prepared(result.value, r)
      ensures old(Undisturbed()) ==> PreparedAs(Durable(old(world)), Durable(world), r, result.Success?)
      ensures old(Undisturbed()) ==> Undisturbed()
    {
      hide IsRun, Puts, Prepared, Durable;
      Yield();
      var hopeful := Screen(r);
      if !hopeful { return Failure(PolicyRejected); }
      Yield();
      result := PrepareHopeful(r);
    }

    /** The fresh observation and the transaction that decides on it. */
    method PrepareHopeful(r: P.Request) returns (result: Result<nat, Error>)
      requires Valid() && PcOf(world, me) == PrepEvaluated(r)
      modifies this`world, this`schedule, this`run, this`history, this`outages
      ensures Valid() && Resting() && Puts(history, me) == old(Puts(history, me))
      ensures result.Success? ==> Prepared(result.value, r)
      ensures old(Undisturbed()) ==> PreparedAs(Durable(old(world)), Durable(world), r, result.Success?)
      ensures old(Undisturbed()) ==> Undisturbed()
    {
      hide IsRun, Puts, PreparedAs, Prepared, Durable, Get;
      var reachable, live := FreshPull(r);
      if !reachable { return Failure(Provider); }
      Yield();
      result := CommitIntent(r, live);
    }

    // ---------------------------------------------------------------- execute

    /** Read the attempt with its rows and revalidate the persisted policy. */
    method ReadContext(a: nat) returns (context: Option<P.Attempt>, failure: Option<P.PolicyFailure>)
      requires Valid() && Resting()
      modifies this`world, this`run, this`history
      ensures Valid() && Puts(history, me) == old(Puts(history, me))
      ensures context.None? ==> Resting() && world == old(world)
      ensures context.Some? ==>
        && Remembers(a, context.value) && Executable(old(world), a)
        && PcOf(world, me) == (if failure.None? then ExecChecked(a) else ExecRejecting(a))
      ensures context.Some? <==> Executable(Durable(old(world)), a)
      ensures context.Some? ==> OnlyMoved(old(world))
      ensures context.Some? ==> (failure.None? <==> Clear(Durable(old(world)), a))
    {
      DurableReads(world, a);
      context, failure := None, None;
      if |world.attempts| <= a || !P.Joined(world.t, world.attempts[a]) { return; }
      var attempt := world.attempts[a];
      if attempt.status != P.Requested || attempt.mutationStarted
         || world.t.milestones[attempt.milestone].row.state != M.Merging {
        return;
      }
      failure := P.Revalidate(world.t, attempt);
      context := Some(attempt);
      EnterChecked(a, failure.None?);
    }

    method EnterChecked(a: nat, clear: bool)
      requires Valid() && Resting() && Executable(world, a)
      requires clear <==> P.ExecutionPolicy(world.t, world.attempts[a])
      modifies this`world, this`run, this`history
      ensures Valid() && Puts(history, me) == old(Puts(history, me))
      ensures world == Goto(old(world), me, if clear then ExecChecked(a) else ExecRejecting(a))
    {
      ghost var before := world;
      MoveTo(if clear then ExecChecked(a) else ExecRejecting(a));
      ReadIsStep(before, me, a);
      Took(before, Action.Execute(me, ReadAttempt(a)));
    }

    /** One transaction: the outcome and the milestone's move, or nothing. */
    method Save(a: nat, status: P.MergeStatus) returns (ok: bool)
      requires a < |world.attempts|
      modifies this`world
      ensures world == Reported(old(world), a, status)
      ensures ok <==> status == P.Unknown || InState(old(world), a, M.Merging)
      ensures !ok ==> world == old(world)
    {
      MergingLeads(world, world.attempts[a].milestone);
      if status == P.MergedStatus {
        ok := ApplyTransition(world.attempts[a].milestone, M.Merging, M.MergeVerify);
      } else {
        var saved := world;
        if world.attempts[a].status == P.Requested {
          world := world.(attempts := world.attempts[a := world.attempts[a].(status := status)]);
        }
        if status == P.Unknown {
          ok := true;
        } else {
          ok := ApplyTransition(world.attempts[a].milestone, M.Merging, M.Blocked);
          if !ok { world := saved; }
        }
      }
    }

    /** Save an outcome as the step of the worker that it is. */
    method Record(a: nat, status: P.MergeStatus, ghost act: ExecuteAction) returns (ok: bool)
      requires a < |world.attempts| && Reports(act, PcOf(world, me), a, status)
      modifies this`world
      ensures Takes(old(world), Action.Execute(me, act), Goto(world, me, Idle))
      ensures ok <==> status == P.Unknown || InState(Durable(old(world)), a, M.Merging)
      ensures ok && status == P.MergedStatus ==> InState(world, a, M.MergeVerify)
      ensures ok && status !in {P.MergedStatus, P.Unknown} ==> InState(world, a, M.Blocked)
    {
      DurableReads(world, a);
      ReportIsStep(world, me, a, status, act);
      ghost var before := world;
      ok := Save(a, status);
      if ok && status == P.MergedStatus {
        MergedState(before, a);
      } else if ok && status != P.Unknown {
        EndedState(before, a, status);
      }
    }

    /** The transaction, after which the worker rests. */
    method RecordOutcome(a: nat, status: P.MergeStatus, ghost act: ExecuteAction) returns (ok: bool)
      requires Valid() && a < |world.attempts| && Reports(act, PcOf(world, me), a, status)
      modifies this`world, this`run, this`history
      ensures Valid() && Resting() && Puts(history, me) == old(Puts(history, me))
      ensures ok <==> status == P.Unknown || InState(Durable(old(world)), a, M.Merging)
      ensures ok && status == P.MergedStatus ==> InState(world, a, M.MergeVerify)
      ensures ok && status !in {P.MergedStatus, P.Unknown} ==> InState(world, a, M.Blocked)
    {
      hide IsRun, Puts, Takes, Durable, Others, InState, Goto, PcOf;
      ghost var before := world;
      ok := Record(a, status, act);
      RestingReads(world, me, a);
      Settle(before, Action.Execute(me, act));
    }

    /** End the attempt before any PUT and block the milestone. */
    method TerminalizeBeforePut(a: nat) returns (result: Result<P.MergeStatus, Error>)
      requires Valid() && PcOf(world, me) == ExecRejecting(a) && a < |world.attempts|
      modifies this`world, this`run, this`history
      ensures Valid() && Resting() && Puts(history, me) == old(Puts(history, me))
      ensures result.Success? ==> result.value == P.Rejected && InState(world, a, M.Blocked)
      ensures result.Success? <==> InState(Durable(old(world)), a, M.Merging)
    {
      var ok := RecordOutcome(a, P.Rejected, Reject);
      result := if ok then Success(P.Rejected) else Failure(Identity);
    }

    /** Adopt a merge that is already there, without any PUT. */
    method AdvanceObservedMerge(a: nat) returns (result: Result<P.MergeStatus, Error>)
      requires Valid() && PcOf(world, me) == ExecSawMerged(a) && a < |world.attempts|
      modifies this`world, this`run, this`history
      ensures Valid() && Resting() && Puts(history, me) == old(Puts(history, me))
      ensures result.Success? ==> result.value == P.MergedStatus && InState(world, a, M.MergeVerify)
      ensures result.Success? <==> InState(Durable(old(world)), a, M.Merging)
    {
      var ok := RecordOutcome(a, P.MergedStatus, Adopt);
      result := if ok then Success(P.MergedStatus) else Failure(Identity);
    }

    /** The last look before the point of no return. */
    method LookBeforePut(a: nat, context: P.Attempt) returns (look: Look)
      requires Valid() && PcOf(world, me) == ExecChecked(a) && Remembers(a, context)
      modifies this`world, this`run, this`history, this`outages
      ensures Valid() && Puts(history, me) == old(Puts(history, me))
      ensures world.attempts == old(world).attempts
      ensures PcOf(world, me) == PlaceAfter(look, a)
      ensures look.AlreadyMerged? ==> Observed(world, a, P.Merged)
      ensures look.StillOpen? ==> Observed(world, a, P.Open)
      ensures OnlyMoved(old(world))
      ensures !look.Unreachable? ==> look == Looked(Durable(old(world)), a)
      ensures old(outages) == [] ==> !look.Unreachable? && outages == []
    {
      DurableReads(world, a);
      var reachable, live := Fetch(context.evaluation.request);
      if !reachable {
        Abandon();
        return Unreachable;
      }
      ghost var before := world;
      if P.LiveIs(live, context.evaluation.request, P.Merged) {
        look := AlreadyMerged;
        MoveTo(ExecSawMerged(a));
      } else if P.LiveIs(live, context.evaluation.request, P.Open) {
        look := StillOpen;
        MoveTo(ExecSawOpen(a));
      } else {
        look := Different;
        MoveTo(ExecRejecting(a));
      }
      LookIsStep(before, me, a);
      Took(before, Action.Execute(me, ObserveFresh));
    }

    /** The durable point of no return: at most one worker ever passes it. */
    method MarkMutation(a: nat) returns (passed: bool)
      requires Valid() && PcOf(world, me) == ExecSawOpen(a) && a < |world.attempts|
      modifies this`world, this`run, this`history
      ensures Valid() && Puts(history, me) == old(Puts(history, me))
      ensures PcOf(world, me) == (if passed then Armed(a) else Idle) && |world.attempts| == |old(world).attempts|
      ensures passed <==> old(world).attempts[a].status == P.Requested && !old(world).attempts[a].mutationStarted
      ensures passed ==> world.attempts[a] == old(world).attempts[a].(mutationStarted := true)
      ensures Executable(Durable(old(world)), a) && Looked(Durable(old(world)), a).StillOpen? ==> passed && Answerable(Durable(world), a)
    {
      hide IsRun, Puts, Looked, Answerable, Others, Observed;
      DurableReads(world, a);
      if Executable(Durable(world), a) && Looked(Durable(world), a).StillOpen? { MarkingReads(Durable(world), a); }
      passed := world.attempts[a].status == P.Requested && !world.attempts[a].mutationStarted;
      ghost var before := world;
      if passed {
        world := world.(attempts := world.attempts[a := world.attempts[a].(mutationStarted := true)]);
      }
      MoveTo(if passed then Armed(a) else Idle);
      MarkIsStep(before, me, a);
      Took(before, Action.Execute(me, Mark));
    }

    /** The provider call: the only place a PUT is sent. */
    method SendMerge(a: nat) returns (reply: Reply)
      requires Valid() && PcOf(world, me) == Armed(a) && a < |world.attempts|
      modifies this`world, this`run, this`history, this`replies
      ensures Valid() && Puts(history, me) == old(Puts(history, me)) + 1
      ensures PcOf(world, me) == Awaiting(a) && world.attempts == old(world).attempts
      ensures world.sent == old(world).sent + [PutOf(old(world), a)]
      ensures reply == NextReply(old(replies))
      ensures Answerable(Durable(old(world)), a) ==> Answerable(Durable(world), a)
    {
      SendingReads(Durable(world), world.sent + [PutOf(world, a)], world.inFlight + {PutOf(world, a)}, a);
      ghost var before := world;
      world := world.(sent := world.sent + [PutOf(world, a)], inFlight := world.inFlight + {PutOf(world, a)});
      MoveTo(Awaiting(a));
      SendIsStep(before, me, a);
      Took(before, Action.Execute(me, SendPut));
      reply := NextReply(replies);
      replies := if replies == [] then [] else replies[1..];
    }

    /** Without a definite answer, one look decides between merged and unknown. */
    method ReconcileAmbiguous(a: nat, context: P.Attempt) returns (status: P.MergeStatus)
      requires Valid() && PcOf(world, me) == Awaiting(a) && Remembers(a, context)
      modifies this`world, this`run, this`history, this`outages
      ensures Valid() && Puts(history, me) == old(Puts(history, me))
      ensures PcOf(world, me) == Replied(a, status) && world.attempts == old(world).attempts
      ensures status in {P.MergedStatus, P.Unknown} && (status == P.MergedStatus ==> Observed(world, a, P.Merged))
      ensures OnlyMoved(old(world)) && (!Observed(Durable(old(world)), a, P.Merged) ==> status == P.Unknown)
      ensures old(outages) == [] ==> outages == []
    {
      DurableReads(world, a);
      var reachable, live := Fetch(context.evaluation.request);
      status := if reachable && P.LiveIs(live, context.evaluation.request, P.Merged) then P.MergedStatus else P.Unknown;
      ghost var before := world;
      MoveTo(Replied(a, status));
      ReconcileIsStep(before, me, a, reachable);
      Took(before, Action.Execute(me, Reconcile(reachable)));
    }

    method TakeReply(a: nat, status: P.MergeStatus)
      requires Valid() && PcOf(world, me) == Awaiting(a) && status != P.Requested
      modifies this`world, this`run, this`history
      ensures Valid() && Puts(history, me) == old(Puts(history, me))
      ensures PcOf(world, me) == Replied(a, status) && world.attempts == old(world).attempts
      ensures OnlyMoved(old(world))
    {
      ghost var before := world;
      MoveTo(Replied(a, status));
      ReplyIsStep(before, me, a, status);
      Took(before, Action.Execute(me, MergeSaga.Reply(status)));
    }

    /** A definite answer is taken as it is; anything else is looked up. */
    method TakeAnswer(a: nat, context: P.Attempt, reply: Reply) returns (status: P.MergeStatus)
      requires Valid() && PcOf(world, me) == Awaiting(a) && Remembers(a, context) && !reply.Raised?
      modifies this`world, this`run, this`history, this`outages
      ensures Valid() && Puts(history, me) == old(Puts(history, me))
      ensures PcOf(world, me) == Replied(a, status) && OnlyMoved(old(world))
      ensures !Observed(Durable(old(world)), a, P.Merged) ==> Success(status) == Concluded(reply)
      ensures old(outages) == [] ==> outages == []
    {
      if reply.NoReply? || reply.status in {P.Unknown, P.Requested} {
        status := ReconcileAmbiguous(a, context);
      } else {
        status := reply.status;
        TakeReply(a, status);
      }
    }

    /** Record what the mutation came to. */
    method FinishMutation(a: nat, status: P.MergeStatus) returns (result: Result<P.MergeStatus, Error>)
      requires Valid() && PcOf(world, me) == Replied(a, status) && a < |world.attempts|
      modifies this`world, this`run, this`history
      ensures Valid() && Resting() && Puts(history, me) == old(Puts(history, me))
      ensures result.Success? ==> result.value == status
      ensures result == Success(P.MergedStatus) ==> InState(world, a, M.MergeVerify)
      ensures InState(Durable(old(world)), a, M.Merging) ==> result.Success?
    {
      var ok := RecordOutcome(a, status, Finish);
      result := if ok then Success(status) else Failure(Identity);
    }

    /** The provider mutation with its reply, past the point of no return. */
    method Mutate(a: nat, context: P.Attempt) returns (result: Result<P.MergeStatus, Error>)
      requires Valid() && PcOf(world, me) == Armed(a) && Remembers(a, context)
      modifies this
      ensures Valid() && Resting() && Puts(history, me) == old(Puts(history, me)) + 1
      ensures result == Success(P.MergedStatus) ==> InState(world, a, M.MergeVerify)
      ensures old(Undisturbed()) ==> Answerable(Durable(old(world)), a) ==>
        result == Concluded(NextReply(old(replies)))
    {
      hide IsRun, Puts, SameAttempt, InState, Answerable, Concluded, Durable;
      Wait(a, context);
      var reply := SendMerge(a);
      Wait(a, context);
      result := AwaitReply(a, context, reply);
    }

    /** The reply, if there is one, is recorded; an exception leaves the attempt marked and open. */
    method AwaitReply(a: nat, context: P.Attempt, reply: Reply) returns (result: Result<P.MergeStatus, Error>)
      requires Valid() && PcOf(world, me) == Awaiting(a) && Remembers(a, context)
      modifies this
      ensures Valid() && Resting() && Puts(history, me) == old(Puts(history, me))
      ensures result == Success(P.MergedStatus) ==> InState(world, a, M.MergeVerify)
      ensures old(Undisturbed()) ==> Answerable(Durable(old(world)), a) ==> result == Concluded(reply)
    {
      hide IsRun, Puts, SameAttempt, InState, Observed;
      if reply.Raised? {
        Abandon();
        return Failure(Provider);
      }
      var status := TakeAnswer(a, context, reply);
      Wait(a, context);
      result := FinishMutation(a, status);
    }

    /** Freshly validate the persisted target, then send the PUT at most once; never when the
        marker was already there. */
    method Execute(a: nat) returns (result: Result<P.MergeStatus, Error>)
      requires Valid() && Resting()
      modifies this
      ensures Valid() && Resting()
      ensures Puts(history, me) <= old(Puts(history, me)) + 1
      ensures Started(old(world), a) ==> Puts(history, me) == old(Puts(history, me)) && result.Failure?
      ensures result == Success(P.MergedStatus) ==> InState(world, a, M.MergeVerify)
      ensures old(Undisturbed()) ==> !Executable(Durable(old(world)), a) ==> result == Failure(Identity) && world == old(world)
      ensures old(Undisturbed()) ==> Executable(Durable(old(world)), a) ==>
        AsObserved(Durable(old(world)), a, Clear(Durable(old(world)), a), NextReply(old(replies)),
          result, Puts(history, me) - old(Puts(history, me)))
    {
      hide IsRun, Puts, InState, Durable, Clear, P.Joined, Others, Observed, Looked;
      Pause(a);
      var context, failure := ReadContext(a);
      if context.None? { return Failure(Identity); }
      Wait(a, context.value);
      if failure.Some? {
        result := TerminalizeBeforePut(a);
      } else {
        result := ExecuteChecked(a, context.value);
      }
    }

    /** The policy is clear: look once more, and act on what is there. */
    method ExecuteChecked(a: nat, context: P.Attempt) returns (result: Result<P.MergeStatus, Error>)
      requires Valid() && PcOf(world, me) == ExecChecked(a) && Remembers(a, context)
      modifies this
      ensures Valid() && Resting()
      ensures Puts(history, me) <= old(Puts(history, me)) + 1
      ensures result == Success(P.MergedStatus) ==> InState(world, a, M.MergeVerify)
      ensures old(Undisturbed()) ==> Executable(Durable(old(world)), a) ==>
        AsObserved(Durable(old(world)), a, true, NextReply(old(replies)), result, Puts(history, me) - old(Puts(history, me)))
    {
      hide IsRun, Puts, SameAttempt, InState, Executable, Looked, AsObserved, Durable;
      var look := LookBeforePut(a, context);
      Wait(a, context);
      result := ActOn(look, a, context);
    }

    method ActOn(look: Look, a: nat, context: P.Attempt) returns (result: Result<P.MergeStatus, Error>)
      requires Valid() && PcOf(world, me) == PlaceAfter(look, a) && Remembers(a, context)
      modifies this
      ensures Valid() && Resting()
      ensures Puts(history, me) <= old(Puts(history, me)) + 1
      ensures result == Success(P.MergedStatus) ==> InState(world, a, M.MergeVerify)
      ensures old(Undisturbed()) && Executable(Durable(old(world)), a) && look == Looked(Durable(old(world)), a) ==>
        AsObserved(Durable(old(world)), a, true, NextReply(old(replies)), result, Puts(history, me) - old(Puts(history, me)))
    {
      match look {
        case Unreachable => result := Failure(Provider);
        case AlreadyMerged => result := AdvanceObservedMerge(a);
        case Different => result := TerminalizeBeforePut(a);
        case StillOpen => result := MarkAndMutate(a, context);
      }
    }

    /** Commit the point of no return, then mutate; without it, nothing is sent. */
    method MarkAndMutate(a: nat, context: P.Attempt) returns (result: Result<P.MergeStatus, Error>)
      requires Valid() && PcOf(world, me) == ExecSawOpen(a) && Remembers(a, context)
      modifies this
      ensures Valid() && Resting()
      ensures Puts(history, me) <= old(Puts(history, me)) + 1
      ensures result == Success(P.MergedStatus) ==> InState(world, a, M.MergeVerify)
      ensures old(Undisturbed()) ==> Executable(Durable(old(world)), a) && Looked(Durable(old(world)), a).StillOpen? ==>
        result == Concluded(NextReply(old(replies))) && Puts(history, me) == old(Puts(history, me)) + 1
    {
      hide IsRun, Puts, InState, Executable, Looked, Answerable, Concluded, Durable;
      var passed := MarkMutation(a);
      if !passed { return Failure(Identity); }
      result := Mutate(a, context);
    }

    // ---------------------------------------------------------------- verify and recover

    /** Save the merged pull request, mark the attempt where its status is one of `from`, and
        complete the milestone: one transaction. */
    method Complete(a: nat, from: set<P.MergeStatus>, ghost act: Action) returns (ok: bool)
      requires a < |world.attempts| && Takes(world, act, Goto(Completed(world, a, from), me, Idle))
      modifies this`world
      ensures Takes(old(world), act, Goto(world, me, Idle))
      ensures Kept(old(world), a)
      ensures ok ==> InState(world, a, M.Complete)
      ensures ok <==> SaveAccepted(old(world), a) && InState(old(world), a, M.MergeVerify)
    {
      hide Takes;
      if !SaveAccepted(world, a) { return false; }
      var saved := world;
      var pull := world.attempts[a].evaluation.request.pull;
      world := world.(t := world.t.(pulls := world.t.pulls[pull :=
        world.t.pulls[pull].(state := P.Merged, headSha := world.attempts[a].head)]));
      if world.attempts[a].status in from {
        world := world.(attempts := world.attempts[a := world.attempts[a].(status := P.MergedStatus)]);
      }
      ok := ApplyTransition(world.attempts[a].milestone, M.MergeVerify, M.Complete);
      if !ok { world := saved; }
    }

    /** Read the attempt for verification. */
    method BeginVerification(a: nat) returns (context: Option<P.Attempt>)
      requires Valid() && Resting()
      modifies this`world, this`run, this`history
      ensures Valid() && Puts(history, me) == old(Puts(history, me))
      ensures PcOf(world, me) == (if context.Some? then VerifyRead(a) else Idle)
      ensures context.Some? ==> Remembers(a, context.value)
      ensures context.Some? <==> AwaitsVerification(Durable(old(world)), a)
      ensures OnlyMoved(old(world))
    {
      DurableReads(world, a);
      if |world.attempts| <= a || world.attempts[a].milestone !in world.t.milestones
         || world.t.milestones[world.attempts[a].milestone].row.state != M.MergeVerify
         || world.attempts[a].status != P.Requested {
        return None;
      }
      context := Some(world.attempts[a]);
      ghost var before := world;
      MoveTo(VerifyRead(a));
      BeginVerifyIsStep(before, me, a);
      Took(before, Action.Verify(me, BeginVerify(a)));
    }

    /** The independent observation a completion needs. */
    method LookMerged(a: nat, context: P.Attempt) returns (seen: Result<bool, Error>)
      requires Valid() && PcOf(world, me) == VerifyRead(a) && Remembers(a, context)
      modifies this`world, this`run, this`history, this`outages
      ensures Valid() && Puts(history, me) == old(Puts(history, me))
      ensures PcOf(world, me) == (if seen == Success(true) then VerifySaw(a) else Idle)
      ensures world.attempts == old(world).attempts
      ensures seen == Success(true) ==> Observed(world, a, P.Merged)
      ensures OnlyMoved(old(world)) && (seen.Success? ==> (seen.value <==> Observed(Durable(old(world)), a, P.Merged)))
      ensures old(outages) == [] ==> seen.Success? && outages == []
    {
      DurableReads(world, a);
      var reachable, live := Fetch(context.evaluation.request);
      if !reachable {
        Abandon();
        return Failure(Provider);
      }
      var merged := P.LiveIs(live, context.evaluation.request, P.Merged);
      ghost var before := world;
      MoveTo(if merged then VerifySaw(a) else Idle);
      LookMergedIsStep(before, me, a);
      Took(before, Action.Verify(me, ObserveMerged));
      seen := Success(merged);
    }

    method CommitVerification(a: nat) returns (result: Result<bool, Error>)
      requires Valid() && PcOf(world, me) == VerifySaw(a) && a < |world.attempts|
      modifies this`world, this`run, this`history
      ensures Valid() && Resting() && Puts(history, me) == old(Puts(history, me))
      ensures result == Success(true) ==> InState(world, a, M.Complete)
      ensures result == if Completable(Durable(old(world)), a) then Success(true) else Failure(Identity)
    {
      hide IsRun, Puts, Completed, SaveAccepted, Takes;
      DurableReads(world, a);
      ghost var before := world;
      CommitVerifiedIsStep(before, me, a);
      var ok := Complete(a, {P.Requested}, Action.Verify(me, CommitVerified));
      Settle(before, Action.Verify(me, CommitVerified));
      result := if ok then Success(true) else Failure(Identity);
    }

    /** Derive the target from persistence and require an independent merged observation. */
    method Verify(a: nat) returns (result: Result<bool, Error>)
      requires Valid() && Resting()
      modifies this
      ensures Valid() && Resting() && Puts(history, me) == old(Puts(history, me))
      ensures result == Success(true) ==> InState(world, a, M.Complete)
      ensures old(Undisturbed()) ==> result == Verification(Durable(old(world)), a)
    {
      hide IsRun, Puts, SameAttempt, InState, Accepted, Observed, Durable;
      Yield();
      var context := BeginVerification(a);
      if context.None? { return Failure(Identity); }
      Wait(a, context.value);
      result := LookMerged(a, context.value);
      if result != Success(true) { return; }
      Wait(a, context.value);
      result := CommitVerification(a);
    }

    /** Read the attempt for recovery. */
    method BeginRecovery(a: nat) returns (context: Option<Context>)
      requires Valid() && Resting()
      modifies this`world, this`run, this`history
      ensures Valid() && Puts(history, me) == old(Puts(history, me))
      ensures PcOf(world, me) == (if context.Some? then Pc.RecoverRead(a, context.value.state) else Idle)
      ensures context.None? ==> world == old(world)
      ensures context.Some? ==> Remembers(a, context.value.attempt)
      ensures context.Some? && a < |old(world).attempts| ==> context.value.attempt == old(world).attempts[a]
      ensures context.Some? <==> AwaitsRecovery(Durable(old(world)), a)
      ensures OnlyMoved(old(world))
      ensures context.Some? ==> InState(Durable(old(world)), a, context.value.state)
    {
      DurableReads(world, a);
      if |world.attempts| <= a || world.attempts[a].milestone !in world.t.milestones
         || !Recoverable(world.attempts[a].status)
         || world.t.milestones[world.attempts[a].milestone].row.state !in {M.Merging, M.MergeVerify} {
        return None;
      }
      var state := world.t.milestones[world.attempts[a].milestone].row.state;
      context := Some(Context(world.attempts[a], state));
      ghost var before := world;
      MoveTo(Pc.RecoverRead(a, state));
      BeginRecoverIsStep(before, me, a);
      Took(before, Action.Recover(me, BeginRecover(a)));
    }

    method LookOnce(a: nat, state: M.State, context: P.Attempt) returns (seen: Result<bool, Error>)
      requires Valid() && PcOf(world, me) == Pc.RecoverRead(a, state) && Remembers(a, context)
      modifies this`world, this`run, this`history, this`outages
      ensures Valid() && Puts(history, me) == old(Puts(history, me))
      ensures PcOf(world, me) == (if seen == Success(true) then RecoverSaw(a, state) else Idle)
      ensures world.attempts == old(world).attempts
      ensures OnlyMoved(old(world)) && (seen.Success? ==> (seen.value <==> Observed(Durable(old(world)), a, P.Merged)))
      ensures seen == Success(true) ==> Observed(world, a, P.Merged)
      ensures old(outages) == [] ==> seen.Success? && outages == []
    {
      DurableReads(world, a);
      var reachable, live := Fetch(context.evaluation.request);
      if !reachable {
        Abandon();
        return Failure(Provider);
      }
      var merged := P.LiveIs(live, context.evaluation.request, P.Merged);
      ghost var before := world;
      MoveTo(if merged then RecoverSaw(a, state) else Idle);
      LookOnceIsStep(before, me, a, state);
      Took(before, Action.Recover(me, ObserveOnce));
      seen := Success(merged);
    }

    method EnterVerification(a: nat) returns (ok: bool)
      requires a < |world.attempts|
      modifies this`world
      ensures Transition(old(world), old(world).attempts[a].milestone, M.Merging, M.MergeVerify) == (if ok then Some(world) else None)
      ensures ok <==> InState(Durable(old(world)), a, M.Merging)
      ensures !ok ==> world == old(world)
      ensures AwaitsFrom(Durable(old(world)), a, M.Merging) ==> Confirmable(Durable(world), a, Accepted(Durable(old(world)), a))
    {
      MergingLeads(world, world.attempts[a].milestone);
      ok := ApplyTransition(world.attempts[a].milestone, M.Merging, M.MergeVerify);
    }

    /** An observed merge moves a MERGING milestone on. */
    method AdvanceRecovered(a: nat, state: M.State) returns (ok: bool)
      requires Valid() && PcOf(world, me) == RecoverSaw(a, state) && a < |world.attempts|
      modifies this`world, this`run, this`history
      ensures Valid() && Puts(history, me) == old(Puts(history, me))
      ensures PcOf(world, me) == (if ok then RecoverAgain(a) else Idle) && world.attempts == old(world).attempts
      ensures ok <==> state != M.Merging || InState(Durable(old(world)), a, M.Merging)
      ensures AwaitsFrom(Durable(old(world)), a, state) ==> Confirmable(Durable(world), a, Accepted(Durable(old(world)), a))
    {
      ghost var before := world;
      ok := true;
      if state == M.Merging { ok := EnterVerification(a); }
      MoveTo(if ok then RecoverAgain(a) else Idle);
      AdvanceIsStep(before, me, a, state);
      Took(before, Action.Recover(me, Advance));
    }

    /** Read again, look again: the second observation is an independent one. */
    method ConfirmRecovery(a: nat, context: P.Attempt) returns (result: Result<bool, Error>)
      requires Valid() && PcOf(world, me) == RecoverAgain(a) && Remembers(a, context)
      modifies this
      ensures Valid() && Resting() && Puts(history, me) == old(Puts(history, me))
      ensures Remembers(a, context)
      ensures result == Success(true) ==> InState(world, a, M.Complete)
      ensures old(Undisturbed()) ==> ConfirmsAs(Durable(old(world)), a, result)
    {
      hide IsRun, Puts, SameAttempt, InState, Accepted, Observed, Durable, Confirmed;
      var awaiting := Reread(a);
      if !awaiting { return Success(false); }
      Wait(a, context);
      result := CompleteSeen(a, context);
    }

    /** The second look, and what it proves. */
    method CompleteSeen(a: nat, context: P.Attempt) returns (result: Result<bool, Error>)
      requires Valid() && PcOf(world, me) == RecoverSecond(a) && Remembers(a, context)
      modifies this
      ensures Valid() && Resting() && Puts(history, me) == old(Puts(history, me))
      ensures Remembers(a, context)
      ensures result == Success(true) ==> InState(world, a, M.Complete)
      ensures old(Undisturbed()) ==> ConfirmsAs(Durable(old(world)), a, result)
    {
      hide IsRun, Puts, InState, Accepted, Observed, Durable, AwaitsRecovery;
      result := LookAgain(a, context);
      if result != Success(true) { return; }
      Wait(a, context);
      ghost var before := world;
      result := CommitRecovery(a);
      SameTransitive(context, before.attempts[a], world.attempts[a]);
    }

    method Reread(a: nat) returns (awaiting: bool)
      requires Valid() && PcOf(world, me) == RecoverAgain(a) && a < |world.attempts|
      modifies this`world, this`run, this`history
      ensures Valid() && Puts(history, me) == old(Puts(history, me))
      ensures PcOf(world, me) == (if awaiting then RecoverSecond(a) else Idle) && world.attempts == old(world).attempts
      ensures OnlyMoved(old(world))
      ensures awaiting <==> AwaitsRecovery(Durable(old(world)), a) && InState(Durable(old(world)), a, M.MergeVerify)
    {
      DurableReads(world, a);
      awaiting := InState(world, a, M.MergeVerify) && Recoverable(world.attempts[a].status);
      ghost var before := world;
      MoveTo(if awaiting then RecoverSecond(a) else Idle);
      RereadIsStep(before, me, a);
      Took(before, Action.Recover(me, MergeSaga.Reread));
    }

    method LookAgain(a: nat, context: P.Attempt) returns (seen: Result<bool, Error>)
      requires Valid() && PcOf(world, me) == RecoverSecond(a) && Remembers(a, context)
      modifies this`world, this`run, this`history, this`outages
      ensures Valid() && Puts(history, me) == old(Puts(history, me))
      ensures PcOf(world, me) == (if seen == Success(true) then RecoverConfirmed(a) else Idle)
      ensures world.attempts == old(world).attempts
      ensures OnlyMoved(old(world)) && (seen.Success? ==> (seen.value <==> Observed(Durable(old(world)), a, P.Merged)))
      ensures old(outages) == [] ==> seen.Success? && outages == []
    {
      DurableReads(world, a);
      var reachable, live := Fetch(context.evaluation.request);
      if !reachable {
        Abandon();
        return Failure(Provider);
      }
      var merged := P.LiveIs(live, context.evaluation.request, P.Merged);
      ghost var before := world;
      MoveTo(if merged then RecoverConfirmed(a) else Idle);
      LookAgainIsStep(before, me, a);
      Took(before, Action.Recover(me, ObserveAgain));
      seen := Success(merged);
    }

    method CommitRecovery(a: nat) returns (result: Result<bool, Error>)
      requires Valid() && PcOf(world, me) == RecoverConfirmed(a) && a < |world.attempts|
      modifies this`world, this`run, this`history
      ensures Valid() && Resting() && Puts(history, me) == old(Puts(history, me))
      ensures Kept(old(world), a)
      ensures result == Success(true) ==> InState(world, a, M.Complete)
      ensures result == if Completable(Durable(old(world)), a) then Success(true) else Failure(Identity)
    {
      hide IsRun, Puts, Completed, SaveAccepted, Takes;
      DurableReads(world, a);
      ghost var before := world;
      CommitRecoveredIsStep(before, me, a);
      var ok := Complete(a, {P.Requested, P.Unknown}, Action.Recover(me, CommitRecovered));
      Settle(before, Action.Recover(me, CommitRecovered));
      result := if ok then Success(true) else Failure(Identity);
    }

    /** Observe an interrupted merge without ever sending a PUT. */
    method Recover(a: nat) returns (result: Result<bool, Error>)
      requires Valid() && Resting()
      modifies this
      ensures Valid() && Resting() && Puts(history, me) == old(Puts(history, me))
      ensures Kept(old(world), a)
      ensures result == Success(true) ==> InState(world, a, M.Complete)
      ensures old(Undisturbed()) ==> result == Recovery(Durable(old(world)), a)
    {
      hide IsRun, Puts, InState, Accepted, Observed, Durable;
      Pause(a);
      ghost var before := world;
      var context := BeginRecovery(a);
      if context.None? { return Failure(Identity); }
      result := RecoverRead(a, context.value);
      if a < |old(world).attempts| {
        SameTransitive(old(world).attempts[a], context.value.attempt, world.attempts[a]);
      }
    }

    method RecoverRead(a: nat, context: Context) returns (result: Result<bool, Error>)
      requires Valid() && PcOf(world, me) == Pc.RecoverRead(a, context.state) && Remembers(a, context.attempt)
      modifies this
      ensures Valid() && Resting() && Puts(history, me) == old(Puts(history, me))
      ensures Remembers(a, context.attempt)
      ensures result == Success(true) ==> InState(world, a, M.Complete)
      ensures old(Undisturbed()) ==> AwaitsRecovery(Durable(old(world)), a) && InState(Durable(old(world)), a, context.state) ==> result == Recovery(Durable(old(world)), a)
    {
      hide IsRun, Puts, SameAttempt, InState, Accepted, Observed, Durable;
      Wait(a, context.attempt);
      result := LookOnce(a, context.state, context.attempt);
      if result != Success(true) { return; }
      Wait(a, context.attempt);
      result := FinishRecovery(a, context);
    }

    /** From the first look on: move a merging milestone, then confirm. */
    method FinishRecovery(a: nat, context: Context) returns (result: Result<bool, Error>)
      requires Valid() && PcOf(world, me) == RecoverSaw(a, context.state) && Remembers(a, context.attempt)
      modifies this
      ensures Valid() && Resting() && Puts(history, me) == old(Puts(history, me))
      ensures Remembers(a, context.attempt)
      ensures result == Success(true) ==> InState(world, a, M.Complete)
      ensures old(Undisturbed()) ==> AwaitsFrom(Durable(old(world)), a, context.state) ==>
        result == Confirmed(Accepted(Durable(old(world)), a))
    {
      hide IsRun, Puts, SameAttempt, InState, AwaitsRecovery, Accepted, SaveAccepted, Durable;
      var moved := AdvanceRecovered(a, context.state);
      if !moved { return Failure(Identity); }
      Wait(a, context.attempt);
      result := ConfirmRecovery(a, context.attempt);
    }
  }

  lemma BeginVerifyIsStep(w: World, me: WorkerId, a: nat)
    requires PcOf(w, me) == Idle && InState(w, a, M.MergeVerify) && w.attempts[a].status == P.Requested
    ensures Takes(w, Verify(me, BeginVerify(a)), Goto(w, me, VerifyRead(a)))
  {
    OneStep(w, Verify(me, BeginVerify(a)));
  }

  lemma LookMergedIsStep(w: World, me: WorkerId, a: nat)
    requires PcOf(w, me) == VerifyRead(a)
    ensures Takes(w, Verify(me, ObserveMerged), Goto(w, me, if Observed(w, a, P.Merged) then VerifySaw(a) else Idle))
  {
    OneStep(w, Verify(me, ObserveMerged));
  }

  lemma CommitVerifiedIsStep(w: World, me: WorkerId, a: nat)
    requires PcOf(w, me) == VerifySaw(a) && a < |w.attempts|
    ensures Takes(w, Verify(me, CommitVerified), Goto(Completed(w, a, {P.Requested}), me, Idle))
  {
    OneStep(w, Verify(me, CommitVerified));
  }

  lemma BeginRecoverIsStep(w: World, me: WorkerId, a: nat)
    requires PcOf(w, me) == Idle && Known(w, a) && RowOf(w, a).state in {M.Merging, M.MergeVerify}
    requires Recoverable(w.attempts[a].status)
    ensures Step(w, Recover(me, BeginRecover(a))) == Goto(w, me, RecoverRead(a, RowOf(w, a).state))
  {
  }

  lemma LookOnceIsStep(w: World, me: WorkerId, a: nat, state: M.State)
    requires PcOf(w, me) == RecoverRead(a, state)
    ensures Takes(w, Recover(me, ObserveOnce),
      Goto(w, me, if Observed(w, a, P.Merged) then RecoverSaw(a, state) else Idle))
  {
    OneStep(w, Recover(me, ObserveOnce));
  }

  lemma AdvanceIsStep(w: World, me: WorkerId, a: nat, state: M.State)
    requires PcOf(w, me) == RecoverSaw(a, state) && a < |w.attempts|
    ensures var moved := Transition(w, w.attempts[a].milestone, M.Merging, M.MergeVerify);
      Takes(w, Recover(me, Advance),
      if state != M.Merging then Goto(w, me, RecoverAgain(a)) else if moved.None? then Goto(w, me, Idle) else Goto(moved.value, me, RecoverAgain(a)))
  {
    OneStep(w, Recover(me, Advance));
  }

  lemma RereadIsStep(w: World, me: WorkerId, a: nat)
    requires PcOf(w, me) == RecoverAgain(a) && a < |w.attempts|
    ensures Takes(w, Recover(me, Reread),
      Goto(w, me, if InState(w, a, M.MergeVerify) && Recoverable(w.attempts[a].status) then RecoverSecond(a) else Idle))
  {
    OneStep(w, Recover(me, Reread));
  }

  lemma LookAgainIsStep(w: World, me: WorkerId, a: nat)
    requires PcOf(w, me) == RecoverSecond(a)
    ensures Takes(w, Recover(me, ObserveAgain),
      Goto(w, me, if Observed(w, a, P.Merged) then RecoverConfirmed(a) else Idle))
  {
    OneStep(w, Recover(me, ObserveAgain));
  }

  lemma CommitRecoveredIsStep(w: World, me: WorkerId, a: nat)
    requires PcOf(w, me) == RecoverConfirmed(a) && a < |w.attempts|
    ensures Takes(w, Recover(me, CommitRecovered), Goto(Completed(w, a, {P.Requested, P.Unknown}), me, Idle))
  {
    OneStep(w, Recover(me, CommitRecovered));
  }

  lemma ReadIsStep(w: World, me: WorkerId, a: nat)
    requires PcOf(w, me) == Idle && Executable(w, a)
    ensures Takes(w, Execute(me, ReadAttempt(a)),
      Goto(w, me, if P.ExecutionPolicy(w.t, w.attempts[a]) then ExecChecked(a) else ExecRejecting(a)))
  {
    OneStep(w, Execute(me, ReadAttempt(a)));
  }

  /** A merging milestone may always go on to verification or be blocked. */
  lemma MergingLeads(w: World, m: P.Id)
    ensures forall target | target in {M.MergeVerify, M.Blocked} ::
      Transition(w, m, M.Merging, target).Some? <==> m in w.t.milestones && w.t.milestones[m].row.state == M.Merging
  {
  }

  lemma MergedState(w: World, a: nat)
    requires InState(w, a, M.Merging)
    ensures InState(Reported(w, a, P.MergedStatus), a, M.MergeVerify)
  {
  }

  lemma EndedState(w: World, a: nat, status: P.MergeStatus)
    requires InState(w, a, M.Merging) && status !in {P.MergedStatus, P.Unknown}
    ensures InState(Reported(w, a, status), a, M.Blocked)
  {
  }

  /** The steps that record an outcome, with where the worker stands and what it records. */
  predicate Reports(act: ExecuteAction, pc: Pc, a: nat, status: P.MergeStatus) {
    || (act == Reject && pc == ExecRejecting(a) && status == P.Rejected)
    || (act == Adopt && pc == ExecSawMerged(a) && status == P.MergedStatus)
    || (act == Finish && pc == Replied(a, status))
  }

  lemma ReportIsStep(w: World, me: WorkerId, a: nat, status: P.MergeStatus, act: ExecuteAction)
    requires a < |w.attempts| && Reports(act, PcOf(w, me), a, status)
    ensures Takes(w, Execute(me, act), Goto(Reported(w, a, status), me, Idle))
  {
    assert StepExecute(w, me, PcOf(w, me), act) == Goto(Reported(w, a, status), me, Idle);
    OneStep(w, Execute(me, act));
  }

  lemma LookIsStep(w: World, me: WorkerId, a: nat)
    requires PcOf(w, me) == ExecChecked(a)
    ensures Takes(w, Execute(me, ObserveFresh),
      Goto(w, me, if Observed(w, a, P.Merged) then ExecSawMerged(a) else if Observed(w, a, P.Open) then ExecSawOpen(a) else ExecRejecting(a)))
  {
    OneStep(w, Execute(me, ObserveFresh));
  }

  lemma MarkIsStep(w: World, me: WorkerId, a: nat)
    requires PcOf(w, me) == ExecSawOpen(a) && a < |w.attempts|
    ensures Takes(w, Execute(me, Mark),
      if w.attempts[a].status == P.Requested && !w.attempts[a].mutationStarted then Goto(w.(attempts := w.attempts[a := w.attempts[a].(mutationStarted := true)]), me, Armed(a)) else Goto(w, me, Idle))
  {
    OneStep(w, Execute(me, Mark));
  }

  lemma SendIsStep(w: World, me: WorkerId, a: nat)
    requires PcOf(w, me) == Armed(a) && a < |w.attempts|
    ensures Step(w, Execute(me, SendPut))
         == Goto(w.(sent := w.sent + [PutOf(w, a)], inFlight := w.inFlight + {PutOf(w, a)}), me, Awaiting(a))
  {
  }

  lemma ReconcileIsStep(w: World, me: WorkerId, a: nat, reachable: bool)
    requires PcOf(w, me) == Awaiting(a)
    ensures Takes(w, Execute(me, Reconcile(reachable)),
      Goto(w, me, Replied(a, if reachable && Observed(w, a, P.Merged) then P.MergedStatus else P.Unknown)))
  {
    OneStep(w, Execute(me, Reconcile(reachable)));
  }

  lemma ReplyIsStep(w: World, me: WorkerId, a: nat, status: P.MergeStatus)
    requires PcOf(w, me) == Awaiting(a) && status != P.Requested
    ensures Takes(w, Execute(me, MergeSaga.Reply(status)), Goto(w, me, Replied(a, status)))
  {
    OneStep(w, Execute(me, MergeSaga.Reply(status)));
  }

  lemma CrashIsStep(w: World, me: WorkerId)
    ensures Takes(w, Env(Crash(me)), w.(workers := w.workers - {me}))
  {
    OneStep(w, Env(Crash(me)));
  }

  lemma EvaluateIsStep(w: World, me: WorkerId, r: P.Request)
    requires PcOf(w, me) == Idle
    ensures Takes(w, Prepare(me, Evaluate(r)), Goto(w, me, PrepEvaluated(r)))
  {
    OneStep(w, Prepare(me, Evaluate(r)));
  }

  lemma FetchIsStep(w: World, me: WorkerId, r: P.Request, reachable: bool)
    requires PcOf(w, me) == PrepEvaluated(r)
    ensures Takes(w, Prepare(me, Fetch(reachable)), Goto(w, me, if reachable then PrepFetched(r, Get(w, r)) else Idle))
  {
    OneStep(w, Prepare(me, Fetch(reachable)));
  }

  lemma CommitIsStep(w: World, me: WorkerId, r: P.Request, live: Option<P.Live>, evaluation: P.Evaluation)
    requires PcOf(w, me) == PrepFetched(r, live) && evaluation.request == r
    requires evaluation.eligible <==> P.MayMerge(w.t, r, live)
    ensures Takes(w, Prepare(me, CommitIntent(evaluation)),
      Goto(if evaluation.eligible then InsertIntent(w, r, evaluation) else w, me, Idle))
  {
    OneStep(w, Prepare(me, CommitIntent(evaluation)));
  }
}
