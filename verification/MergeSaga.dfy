/** The durable merge protocol as a transition system.  Every database transaction and every
    provider call is one step; any number of workers run it at once, a worker may vanish
    between any two steps, a PUT may take effect at any later time or never, and its reply
    says whatever it likes. */
module MergeSaga {
  import opened Wrappers
  import M = MilestoneMachine
  import P = MergePolicy

  type Key = (int, int)
  type WorkerId = nat

  /** The provider mutation: merge this pull request if its head is still this one. */
  datatype Put = Put(attempt: nat, key: Key, head: P.Sha)

  /** Where a worker stands between two steps; `a` indexes its merge attempt. */
  datatype Pc =
    | Idle
    | PrepEvaluated(r: P.Request)
    | PrepFetched(r: P.Request, live: Option<P.Live>)
    | ExecChecked(a: nat)
    | ExecRejecting(a: nat)
    | ExecSawOpen(a: nat)
    | ExecSawMerged(a: nat)
    | Armed(a: nat)
    | Awaiting(a: nat)
    | Replied(a: nat, status: P.MergeStatus)
    | VerifyRead(a: nat)
    | VerifySaw(a: nat)
    | RecoverRead(a: nat, state: M.State)
    | RecoverSaw(a: nat, state: M.State)
    | RecoverAgain(a: nat)
    | RecoverSecond(a: nat)
    | RecoverConfirmed(a: nat)

  datatype World = World(
    t: P.Tables,
    attempts: seq<P.Attempt>,
    provider: map<Key, P.Live>,
    inFlight: set<Put>,
    sent: seq<Put>,
    workers: map<WorkerId, Pc>)

  /** The rest of the system and the world outside. */
  datatype EnvAction =
    | ChangeTables(tables: P.Tables)
    | MoveMilestone(m: P.Id, target: M.State)
    | ProviderPush(key: Key, head: P.Sha)
    | ProviderClose(key: Key)
    | ProviderMerge(key: Key)
    | ProviderOpen(key: Key, live: P.Live)
    | PutTakesEffect(put: Put)
    | PutIsLost(put: Put)
    | Crash(id: WorkerId)

  datatype PrepareAction =
    | Evaluate(r: P.Request) | Fetch(reachable: bool) | CommitIntent(evaluation: P.Evaluation)

  datatype ExecuteAction =
    | ReadAttempt(a: nat) | ObserveFresh | Reject | Adopt | Mark | SendPut
    | Reply(status: P.MergeStatus) | Reconcile(reachable: bool) | Finish

  datatype VerifyAction = BeginVerify(a: nat) | ObserveMerged | CommitVerified

  /** Observation only: no step of a recovery mutates the provider. */
  datatype RecoverAction = BeginRecover(a: nat) | ObserveOnce | Advance | Reread | ObserveAgain | CommitRecovered

  datatype Action =
    | Env(env: EnvAction)
    | Prepare(id: WorkerId, prepare: PrepareAction)
    | Execute(id: WorkerId, execute: ExecuteAction)
    | Verify(id: WorkerId, verify: VerifyAction)
    | Recover(id: WorkerId, recover: RecoverAction)

  // ------------------------------------------------------------------ reading the world

  function PcOf(w: World, id: WorkerId): Pc {
    if id in w.workers then w.workers[id] else Idle
  }

  function KeyOf(r: P.Request): Key { (r.repositoryNumber, r.number) }

  function PutOf(w: World, a: nat): Put
    requires a < |w.attempts|
  {
    Put(a, KeyOf(w.attempts[a].evaluation.request), w.attempts[a].head)
  }

  function Get(w: World, r: P.Request): Option<P.Live> {
    if KeyOf(r) in w.provider then Some(w.provider[KeyOf(r)]) else None
  }

  /** The provider reports exactly the attempt's pull request, in the given state. */
  predicate Observed(w: World, a: nat, state: P.PullState) {
    a < |w.attempts| && P.LiveIs(Get(w, w.attempts[a].evaluation.request), w.attempts[a].evaluation.request, state)
  }

  predicate Known(w: World, a: nat) {
    a < |w.attempts| && w.attempts[a].milestone in w.t.milestones
  }

  function RowOf(w: World, a: nat): M.Row
    requires Known(w, a)
  {
    w.t.milestones[w.attempts[a].milestone].row
  }

  predicate InState(w: World, a: nat, state: M.State) {
    Known(w, a) && RowOf(w, a).state == state
  }

  predicate SlotTaken(w: World) {
    exists i | 0 <= i < |w.attempts| :: w.attempts[i].status == P.Requested
  }

  // ------------------------------------------------------------------ changing the world

  function Goto(w: World, id: WorkerId, pc: Pc): World {
    w.(workers := w.workers[id := pc])
  }

  /** The milestone's compare-and-set transition; `None` means the transaction rolls back. */
  function Transition(w: World, m: P.Id, expected: M.State, target: M.State): Option<World> {
    if m !in w.t.milestones then None
    else
      match M.Apply(w.t.milestones[m].row, expected, target)
      case Failure(_) => None
      case Success(row) =>
        Some(w.(t := w.t.(milestones := w.t.milestones[m := w.t.milestones[m].(row := row)])))
  }

  function SetStatus(w: World, a: nat, status: P.MergeStatus): World
    requires a < |w.attempts|
  {
    w.(attempts := w.attempts[a := w.attempts[a].(status := status)])
  }

  /** `UPDATE ... SET status WHERE status='REQUESTED'`. */
  function SetStatusIfRequested(w: World, a: nat, status: P.MergeStatus): World
    requires a < |w.attempts|
  {
    if w.attempts[a].status == P.Requested then SetStatus(w, a, status) else w
  }

  /** One transaction: update the attempt and move its milestone, or neither. */
  function Together(w: World, updated: World, a: nat, expected: M.State, target: M.State): World
    requires a < |w.attempts| && a < |updated.attempts|
  {
    Transition(updated, updated.attempts[a].milestone, expected, target).GetOr(w)
  }

  /** The persisted pull request is the attempt's own and accepts the verified observation. */
  predicate SaveAccepted(w: World, a: nat)
    requires a < |w.attempts|
  {
    var r := w.attempts[a].evaluation.request;
    && r.pull in w.t.pulls && w.t.pulls[r.pull].milestone == r.milestone && w.t.pulls[r.pull].project == r.project
    && w.t.pulls[r.pull].number == r.number && w.t.pulls[r.pull].repository == r.repository
    && w.t.pulls[r.pull].headBranch == r.headBranch && w.t.pulls[r.pull].baseBranch == r.baseBranch
  }

  /** Save the merged pull request, mark the attempt MERGED where its status is one of
      `from`, and complete the milestone: one transaction. */
  function Completed(w: World, a: nat, from: set<P.MergeStatus>): World
    requires a < |w.attempts|
  {
    if !SaveAccepted(w, a) then w
    else
      var pull := w.attempts[a].evaluation.request.pull;
      var saved := w.(t := w.t.(pulls := w.t.pulls[pull :=
        w.t.pulls[pull].(state := P.Merged, headSha := w.attempts[a].head)]));
      var marked := if w.attempts[a].status in from then SetStatus(saved, a, P.MergedStatus) else saved;
      Together(w, marked, a, M.MergeVerify, M.Complete)
  }

  /** Transitions only the Gatekeeper makes. */
  predicate GatekeeperOwns(from: M.State, target: M.State) {
    (from, target) in {(M.MergeReady, M.Merging), (M.Merging, M.MergeVerify), (M.MergeVerify, M.Complete)}
  }

  predicate Recoverable(status: P.MergeStatus) { status in {P.Requested, P.Unknown} }

  /** One step; an action that is not possible leaves the world as it is. */
  function Step(w: World, act: Action): World {
    match act
    case Env(env) => StepEnv(w, env)
    case Prepare(id, prepare) => StepPrepare(w, id, PcOf(w, id), prepare)
    case Execute(id, execute) => StepExecute(w, id, PcOf(w, id), execute)
    case Verify(id, verify) => StepVerify(w, id, PcOf(w, id), verify)
    case Recover(id, recover) => StepRecover(w, id, PcOf(w, id), recover)
  }

  function StepEnv(w: World, act: EnvAction): World {
    match act
    case ChangeTables(tables) =>
      if tables.milestones == w.t.milestones then w.(t := tables) else w
    case MoveMilestone(m, target) =>
      if m !in w.t.milestones || GatekeeperOwns(w.t.milestones[m].row.state, target) then w
      else Transition(w, m, w.t.milestones[m].row.state, target).GetOr(w)
    case ProviderPush(key, head) =>
      if OpenAt(w, key) then w.(provider := w.provider[key := w.provider[key].(headSha := head)]) else w
    case ProviderClose(key) =>
      if OpenAt(w, key) then w.(provider := w.provider[key := w.provider[key].(state := P.Closed)]) else w
    case ProviderMerge(key) =>
      if OpenAt(w, key) then w.(provider := w.provider[key := w.provider[key].(state := P.Merged)]) else w
    case ProviderOpen(key, live) =>
      if key !in w.provider then w.(provider := w.provider[key := live]) else w
    case PutTakesEffect(put) => PutEffect(w, put)
    case PutIsLost(put) => w.(inFlight := w.inFlight - {put})
    case Crash(id) => w.(workers := w.workers - {id})
  }

  predicate OpenAt(w: World, key: Key) { key in w.provider && w.provider[key].state == P.Open }

  /** The provider merges only an open pull request whose head is still the one named. */
  function PutEffect(w: World, put: Put): World {
    if put in w.inFlight && OpenAt(w, put.key) && w.provider[put.key].headSha == put.head
    then w.(provider := w.provider[put.key := w.provider[put.key].(state := P.Merged)],
            inFlight := w.inFlight - {put})
    else w
  }

  function StepPrepare(w: World, id: WorkerId, pc: Pc, act: PrepareAction): World {
    match (act, pc)
    // a first evaluation only filters requests; what counts is repeated in the transaction
    case (Evaluate(r), Idle) => Goto(w, id, PrepEvaluated(r))
    case (Fetch(reachable), PrepEvaluated(r)) =>
      Goto(w, id, if reachable then PrepFetched(r, Get(w, r)) else Idle)
    case (CommitIntent(evaluation), PrepFetched(r, live)) =>
      Goto(if P.MayMerge(w.t, r, live) && evaluation.request == r && evaluation.eligible
           then InsertIntent(w, r, evaluation) else w, id, Idle)
    case _ => w
  }

  /** The preparing transaction: insert the intent unless the global slot is taken, and enter
      MERGING; all or nothing. */
  function InsertIntent(w: World, r: P.Request, evaluation: P.Evaluation): World {
    if SlotTaken(w) then w
    else
      var inserted := w.(attempts := w.attempts + [P.AttemptOf(r, evaluation)]);
      Transition(inserted, r.milestone, M.MergeReady, M.Merging).GetOr(w)
  }

  function StepExecute(w: World, id: WorkerId, pc: Pc, act: ExecuteAction): World {
    match (act, pc)
    case (ReadAttempt(a), Idle) =>
      if Executable(w, a)
      then Goto(w, id, if P.ExecutionPolicy(w.t, w.attempts[a]) then ExecChecked(a) else ExecRejecting(a))
      else w
    case (ObserveFresh, ExecChecked(a)) =>
      Goto(w, id, if Observed(w, a, P.Merged) then ExecSawMerged(a)
                  else if Observed(w, a, P.Open) then ExecSawOpen(a) else ExecRejecting(a))
    case (Reject, ExecRejecting(a)) =>
      if a < |w.attempts| then Goto(Reported(w, a, P.Rejected), id, Idle) else w
    case (Adopt, ExecSawMerged(a)) =>
      if a < |w.attempts| then Goto(Reported(w, a, P.MergedStatus), id, Idle) else w
    case (Mark, ExecSawOpen(a)) =>
      if a < |w.attempts| && w.attempts[a].status == P.Requested && !w.attempts[a].mutationStarted
      then Goto(w.(attempts := w.attempts[a := w.attempts[a].(mutationStarted := true)]), id, Armed(a))
      else Goto(w, id, Idle)
    case (SendPut, Armed(a)) =>
      if a < |w.attempts|
      then Goto(w.(sent := w.sent + [PutOf(w, a)], inFlight := w.inFlight + {PutOf(w, a)}), id, Awaiting(a))
      else w
    // any answer; one that names another pull request counts as unknown
    case (Reply(status), Awaiting(a)) =>
      if status == P.Requested then w else Goto(w, id, Replied(a, status))
    // no answer, or an unknown one: look once, and a failed look proves nothing
    case (Reconcile(reachable), Awaiting(a)) =>
      Goto(w, id, Replied(a, if reachable && Observed(w, a, P.Merged) then P.MergedStatus else P.Unknown))
    case (Finish, Replied(a, status)) =>
      if a < |w.attempts| then Goto(Reported(w, a, status), id, Idle) else w
    case _ => w
  }

  predicate Executable(w: World, a: nat) {
    && InState(w, a, M.Merging) && P.Joined(w.t, w.attempts[a])
    && w.attempts[a].status == P.Requested && !w.attempts[a].mutationStarted
  }

  /** The transaction that records an outcome: a merge moves on to verification and leaves
      the attempt open; an unknown outcome only marks the attempt; any other outcome ends the
      attempt and blocks the milestone. */
  function Reported(w: World, a: nat, status: P.MergeStatus): World
    requires a < |w.attempts|
  {
    if status == P.MergedStatus then Together(w, w, a, M.Merging, M.MergeVerify)
    else if status == P.Unknown then SetStatusIfRequested(w, a, P.Unknown)
    else Together(w, SetStatusIfRequested(w, a, status), a, M.Merging, M.Blocked)
  }

  function StepVerify(w: World, id: WorkerId, pc: Pc, act: VerifyAction): World {
    match (act, pc)
    case (BeginVerify(a), Idle) =>
      if InState(w, a, M.MergeVerify) && w.attempts[a].status == P.Requested then Goto(w, id, VerifyRead(a)) else w
    case (ObserveMerged, VerifyRead(a)) => Goto(w, id, if Observed(w, a, P.Merged) then VerifySaw(a) else Idle)
    case (CommitVerified, VerifySaw(a)) =>
      if a < |w.attempts| then Goto(Completed(w, a, {P.Requested}), id, Idle) else w
    case _ => w
  }

  function StepRecover(w: World, id: WorkerId, pc: Pc, act: RecoverAction): World {
    match (act, pc)
    case (BeginRecover(a), Idle) =>
      if (InState(w, a, M.Merging) || InState(w, a, M.MergeVerify)) && Recoverable(w.attempts[a].status)
      then Goto(w, id, RecoverRead(a, RowOf(w, a).state)) else w
    case (ObserveOnce, RecoverRead(a, state)) =>
      Goto(w, id, if Observed(w, a, P.Merged) then RecoverSaw(a, state) else Idle)
    case (Advance, RecoverSaw(a, state)) =>
      if a >= |w.attempts| then w
      else if state != M.Merging then Goto(w, id, RecoverAgain(a))
      else
        var moved := Transition(w, w.attempts[a].milestone, M.Merging, M.MergeVerify);
        if moved.None? then Goto(w, id, Idle) else Goto(moved.value, id, RecoverAgain(a))
    case (Reread, RecoverAgain(a)) =>
      Goto(w, id, if InState(w, a, M.MergeVerify) && Recoverable(w.attempts[a].status)
                  then RecoverSecond(a) else Idle)
    case (ObserveAgain, RecoverSecond(a)) =>
      Goto(w, id, if Observed(w, a, P.Merged) then RecoverConfirmed(a) else Idle)
    case (CommitRecovered, RecoverConfirmed(a)) =>
      if a < |w.attempts| then Goto(Completed(w, a, {P.Requested, P.Unknown}), id, Idle) else w
    case _ => w
  }

  /** Any finite run: the worlds it passes through, one more than the actions it takes. */
  ghost predicate IsRun(run: seq<World>, acts: seq<Action>) {
    && |run| == |acts| + 1
    && forall i {:trigger Step(run[i], acts[i])} :: 0 <= i < |acts| ==> run[i + 1] == Step(run[i], acts[i])
  }

  /** Nothing of the merge protocol has happened yet. */
  ghost predicate Initial(w: World) {
    && w.attempts == [] && w.inFlight == {} && w.sent == [] && w.workers == map[]
    && forall m :: m in w.t.milestones ==>
         M.WellFormed(w.t.milestones[m].row) && M.Effective(w.t.milestones[m].row) != M.Complete
  }
}
