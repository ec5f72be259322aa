/** The milestone lifecycle: the transition table, the validation with its BLOCKED/resume
    detour, and the compare-and-set the repository applies it with. */
module MilestoneMachine {
  import opened Wrappers

  datatype State =
    | Pending | Ready | PreparingTask | PreparingWorkspace | Coding | ValidatingChanges
    | Committing | Pushing | PrCreating | CiRunning | CiRework | ArchitectReview
    | ReviewRework | HumanDecision | HumanTest | MergeReady | Merging | MergeVerify
    | Complete | Blocked | Failed | Cancelled

  datatype TransitionError = StaleState | InvalidBlockedRecovery | InvalidTransition

  /** A persisted milestone row: its state and where a blocked one would resume. */
  datatype Row = Row(state: State, resume: Option<State>)

  function Successors(s: State): set<State> {
    match s
    case Pending => {Ready, Cancelled}
    case Ready => {PreparingTask, Blocked, Cancelled}
    case PreparingTask => {PreparingWorkspace, HumanDecision, Blocked, Failed}
    case PreparingWorkspace => {Coding, Blocked, Failed}
    case Coding => {ValidatingChanges, Blocked, Failed}
    case ValidatingChanges => {Committing, Coding, HumanDecision, Blocked, Failed}
    case Committing => {Pushing, Blocked, Failed}
    case Pushing => {PrCreating, CiRunning, Blocked, Failed}
    case PrCreating => {CiRunning, Blocked, Failed}
    case CiRunning => {ArchitectReview, CiRework, Blocked, Failed}
    case CiRework => {Coding, HumanDecision, Blocked, Failed}
    case ArchitectReview => {MergeReady, ReviewRework, HumanTest, HumanDecision, Blocked, Failed}
    case ReviewRework => {Coding, HumanDecision, Blocked, Failed}
    case HumanDecision => {PreparingTask, Coding, ArchitectReview, MergeReady, Blocked, Cancelled}
    case HumanTest => {MergeReady, ArchitectReview, ReviewRework, HumanDecision, Blocked, Cancelled}
    case MergeReady => {Merging, CiRunning, ArchitectReview, HumanTest, HumanDecision, Blocked, Failed}
    case Merging => {MergeVerify, Blocked, Failed}
    case MergeVerify => {Complete, Blocked, Failed}
    case Complete => {}
    case Blocked => {Failed, Cancelled}
    case Failed => {}
    case Cancelled => {}
  }

  predicate IsAllowed(previous: State, target: State, resume: Option<State>) {
    if previous == Blocked then
      target in {Failed, Cancelled} || (resume.Some? && target == resume.value)
    else
      target in Successors(previous)
  }

  /** `None` accepts the transition. */
  function Validate(previous: State, target: State, resume: Option<State>): Option<TransitionError> {
    if previous == Blocked && target !in {Failed, Cancelled} then
      if resume.None? || resume.value == Blocked then Some(InvalidBlockedRecovery)
      else if target != resume.value then Some(InvalidBlockedRecovery)
      else None
    else if !IsAllowed(previous, target, resume) then Some(InvalidTransition)
    else None
  }

  /** The two policies agree except on one self-loop that only the validation refuses. */
  lemma ValidateAgreesWithTable(previous: State, target: State, resume: Option<State>)
    ensures Validate(previous, target, resume).None?
       <==> IsAllowed(previous, target, resume) && !(previous == Blocked && target == Blocked)
  {
    assert previous == Blocked && target in {Failed, Cancelled} ==> target != Blocked;
  }

  /** The repository's guarded transition: compare the expected state, validate, and keep
      the resume state only while the milestone is blocked. */
  function Apply(row: Row, expected: State, target: State): Result<Row, TransitionError> {
    if row.state != expected then Failure(StaleState)
    else
      match Validate(row.state, target, row.resume)
      case Some(error) => Failure(error)
      case None =>
        var resume := if row.state == Blocked then None
                      else if target == Blocked then Some(row.state)
                      else row.resume;
        Success(Row(target, resume))
  }

  // ------------------------------------------------------------------ runs

  predicate Step(before: Row, after: Row) {
    Apply(before, before.state, after.state) == Success(after)
  }

  ghost predicate IsRun(run: seq<Row>) {
    && run != []
    && forall i :: 0 <= i < |run| - 1 ==> Step(run[i], run[i + 1])
  }

  /** What every row satisfies: a resume state is present exactly while blocked, and it is
      a state from which blocking is legal. */
  predicate WellFormed(row: Row) {
    && (row.state == Blocked <==> row.resume.Some?)
    && (row.resume.Some? ==> row.resume.value != Blocked && Blocked in Successors(row.resume.value))
  }

  lemma StepKeepsWellFormed(before: Row, after: Row)
    requires WellFormed(before) && Step(before, after)
    ensures WellFormed(after)
    ensures before.state != Blocked ==> after.state in Successors(before.state)
    ensures before.state == Blocked ==> after.state in {Failed, Cancelled, before.resume.value}
    ensures after.state == Blocked ==> after.resume == Some(before.state)
  {
  }

  lemma {:induction false} RunKeepsWellFormed(run: seq<Row>, i: nat)
    requires IsRun(run) && WellFormed(run[0]) && i < |run|
    ensures WellFormed(run[i])
  {
    if i > 0 {
      RunKeepsWellFormed(run, i - 1);
      assert Step(run[i - 1], run[i - 1 + 1]);
      StepKeepsWellFormed(run[i - 1], run[i]);
    }
  }

  /** The state a milestone is in, or will be in once it resumes. */
  function Effective(row: Row): State {
    if row.state == Blocked && row.resume.Some? then row.resume.value else row.state
  }

  /** Everything reachable once a merge intent exists. */
  const MERGE_TAIL: set<State> := {Merging, MergeVerify, Complete, Failed, Cancelled}

  lemma MergeTailIsClosed(before: Row, after: Row)
    requires WellFormed(before) && Step(before, after) && Effective(before) in MERGE_TAIL
    ensures Effective(after) in MERGE_TAIL
  {
    StepKeepsWellFormed(before, after);
  }

  /** A milestone that has once been merging is never merge-ready again, blocked or not. */
  lemma {:induction false} MergingNeverReturnsToMergeReady(run: seq<Row>, i: nat, j: nat)
    requires IsRun(run) && WellFormed(run[0]) && i <= j < |run|
    requires run[i].state in {Merging, MergeVerify}
    ensures Effective(run[j]) in MERGE_TAIL && run[j].state != MergeReady
  {
    RunKeepsWellFormed(run, j);
    if i < j {
      MergingNeverReturnsToMergeReady(run, i, j - 1);
      RunKeepsWellFormed(run, j - 1);
      assert Step(run[j - 1], run[j - 1 + 1]);
      MergeTailIsClosed(run[j - 1], run[j]);
    }
  }

  // ------------------------------------------------------------------ block/resume is a detour

  function States(run: seq<Row>): seq<State> {
    seq(|run|, i requires 0 <= i < |run| => run[i].state)
  }

  /** Drop every `X, BLOCKED` that is followed by the same `X`. */
  function Erase(states: seq<State>): seq<State> {
    if states == [] then []
    else if |states| >= 3 && states[1] == Blocked && states[2] == states[0] then Erase(states[2..])
    else [states[0]] + Erase(states[1..])
  }

  /** A run of the table with BLOCKED taken out. */
  ghost predicate IsUnblockedRun(states: seq<State>) {
    && states != []
    && Blocked !in states
    && forall i :: 0 <= i < |states| - 1 ==> states[i + 1] in Successors(states[i])
  }

  /** A run that neither stops in BLOCKED nor leaves it for good. */
  ghost predicate AlwaysResumes(run: seq<Row>) {
    forall i :: 0 <= i < |run| && run[i].state == Blocked ==>
      i + 1 < |run| && run[i + 1].state !in {Failed, Cancelled}
  }

  lemma {:induction false} ErasedRunIsUnblocked(run: seq<Row>)
    requires IsRun(run) && AlwaysResumes(run)
    requires WellFormed(run[0]) && run[0].state != Blocked
    ensures IsUnblockedRun(Erase(States(run)))
    ensures Erase(States(run))[0] == run[0].state
    ensures var e := Erase(States(run)); e[|e| - 1] == run[|run| - 1].state
    decreases |run|
  {
    var s := States(run);
    if |run| == 1 {
      assert s[1..] == [];
    } else {
      assert Step(run[0], run[1]);
      StepKeepsWellFormed(run[0], run[1]);
      if run[1].state == Blocked {
        assert Step(run[1], run[1 + 1]);
        StepKeepsWellFormed(run[1], run[2]);
        DropPrefix(run, 2);
        ErasedRunIsUnblocked(run[2..]);
        assert s[2..] == States(run[2..]);
      } else {
        DropPrefix(run, 1);
        ErasedRunIsUnblocked(run[1..]);
        assert s[1..] == States(run[1..]);
        var rest := Erase(s[1..]);
        var e := [s[0]] + rest;
        assert Erase(s) == e;
        forall i | 0 <= i < |e| - 1 ensures e[i + 1] in Successors(e[i]) {
          if i > 0 { assert rest[i - 1 + 1] in Successors(rest[i - 1]); }
        }
      }
    }
  }

  lemma DropPrefix(run: seq<Row>, n: nat)
    requires IsRun(run) && AlwaysResumes(run) && n < |run|
    ensures IsRun(run[n..]) && AlwaysResumes(run[n..])
  {
    var tail := run[n..];
    forall i | 0 <= i < |tail| - 1 ensures Step(tail[i], tail[i + 1]) {
      assert Step(run[n + i], run[n + i + 1]);
    }
    forall i | 0 <= i < |tail| && tail[i].state == Blocked
      ensures i + 1 < |tail| && tail[i + 1].state !in {Failed, Cancelled}
    {
      assert run[n + i].state == Blocked;
    }
  }

  /** Conversely every unblocked run is a run, and nothing of it is erased. */
  lemma {:induction false} UnblockedRunIsRun(states: seq<State>)
    requires IsUnblockedRun(states)
    ensures IsRun(seq(|states|, i requires 0 <= i < |states| => Row(states[i], None)))
    ensures Erase(states) == states
    decreases |states|
  {
    var run := seq(|states|, i requires 0 <= i < |states| => Row(states[i], None));
    forall i | 0 <= i < |run| - 1 ensures Step(run[i], run[i + 1]) {
      assert states[i + 1] in Successors(states[i]);
      assert states[i] != Blocked && states[i + 1] != Blocked;
    }
    if |states| > 1 {
      assert states[1] != Blocked;
      var rest := states[1..];
      forall i | 0 <= i < |rest| - 1 ensures rest[i + 1] in Successors(rest[i]) {
        assert states[i + 1 + 1] in Successors(states[i + 1]);
      }
      UnblockedRunIsRun(rest);
      assert states == [states[0]] + rest;
    } else {
      assert states[1..] == [] && states == [states[0]];
    }
  }

  /** The stations of a completed milestone: with the detours erased, it starts
      PENDING, READY, PREPARING_TASK and ends MERGE_READY, MERGING, MERGE_VERIFY, COMPLETE. */
  lemma UnblockedCompletionStations(e: seq<State>)
    requires IsUnblockedRun(e) && e[0] == Pending && e[|e| - 1] == Complete
    ensures |e| >= 7
    ensures e[1] == Ready && e[2] == PreparingTask
    ensures e[|e| - 4] == MergeReady && e[|e| - 3] == Merging && e[|e| - 2] == MergeVerify
    ensures forall i :: 0 <= i < |e| && e[i] == Merging ==> i == |e| - 3
  {
    var n := |e|;
    assert n > 1 && e[0 + 1] in Successors(e[0]);
    assert e[1] != Complete && e[1 + 1] in Successors(e[1]);
    assert e[2] != Complete && e[2 + 1] in Successors(e[2]);
    assert e[n - 2 + 1] in Successors(e[n - 2]) && e[n - 2] == MergeVerify;
    assert e[n - 3 + 1] in Successors(e[n - 3]) && e[n - 3] == Merging;
    assert e[n - 4 + 1] in Successors(e[n - 4]) && e[n - 4] == MergeReady;
    forall i | 0 <= i < n && e[i] == Merging ensures i == n - 3 {
      assert e[i + 1] in Successors(e[i]);
      if i + 2 < n { assert e[i + 1 + 1] in Successors(e[i + 1]); }
      assert i + 3 < n ==> e[i + 2 + 1] in Successors(e[i + 2]);
    }
  }

  /** Reaching COMPLETE never goes through an abandoned block. */
  lemma CompletionAlwaysResumes(run: seq<Row>)
    requires IsRun(run) && WellFormed(run[0]) && run[|run| - 1].state == Complete
    ensures AlwaysResumes(run)
  {
    forall i | 0 <= i < |run| && run[i].state == Blocked
      ensures i + 1 < |run| && run[i + 1].state !in {Failed, Cancelled}
    {
      if i + 1 < |run| && run[i + 1].state in {Failed, Cancelled} {
        if i + 2 < |run| {
          RunKeepsWellFormed(run, i + 1);
          assert Step(run[i + 1], run[i + 1 + 1]);
          StepKeepsWellFormed(run[i + 1], run[i + 2]);
          assert false;
        }
      }
    }
  }

  /** Every run from a fresh milestone to COMPLETE passes those stations, whatever detours
      through BLOCKED it takes. */
  lemma CompletedRunStations(run: seq<Row>)
    requires IsRun(run)
    requires run[0] == Row(Pending, None) && run[|run| - 1].state == Complete
    ensures var e := Erase(States(run));
      && IsUnblockedRun(e) && |e| >= 7
      && e[..3] == [Pending, Ready, PreparingTask]
      && e[|e| - 4..] == [MergeReady, Merging, MergeVerify, Complete]
  {
    CompletionAlwaysResumes(run);
    ErasedRunIsUnblocked(run);
    UnblockedCompletionStations(Erase(States(run)));
  }
}
