/** When a record is true: what HEAD did while its commit was made, over every run. */
module CustodyHistory {
  import opened Wrappers
  import M = MilestoneMachine
  import opened Custody

  // ------------------------------------------------------------------ growth along a run

  lemma GrowsTransitive(a: World, b: World, c: World)
    requires Grows(a, b) && Grows(b, c)
    ensures Grows(a, c)
  {
  }

  lemma {:induction false} RunGrows(run: seq<World>, acts: seq<Action>, i: nat, j: nat)
    requires IsRun(run, acts) && i <= j < |run|
    ensures Grows(run[i], run[j])
    decreases j
  {
    if i < j {
      RunGrows(run, acts, i, j - 1);
      StepGrows(run[j - 1], acts[j - 1]);
      assert run[j - 1 + 1] == Step(run[j - 1], acts[j - 1]);
      GrowsTransitive(run[i], run[j - 1], run[j]);
    }
  }

  // ------------------------------------------------------------------ the window of one commit

  /** The worker stands at `pc` at every moment after `from`, up to `to`. */
  ghost predicate Stands(run: seq<World>, from: nat, to: nat, pc: Pc) {
    to < |run| && forall x :: from < x <= to ==> run[x].pc == pc
  }

  /** At `i` the worker read HEAD as the parent, and stands there until `n`. */
  ghost predicate ParentAt(run: seq<World>, acts: seq<Action>, n: nat, i: nat) {
    && i < n < |run| && n <= |acts| && acts[i] == CommitParent && run[i].pc.Staged?
    && Stands(run, i, n, ParentRead(run[i].pc.e, run[i].head))
  }

  /** At `j` it then committed, on whatever HEAD was. */
  ghost predicate MadeAt(run: seq<World>, acts: seq<Action>, n: nat, i: nat, j: nat) {
    && j < n < |run| && n <= |acts| && ParentAt(run, acts, j, i) && acts[j] == CommitMake
    && run[j + 1].head == |run[j].objects|
    && Stands(run, j, n, Made(run[i].pc.e, run[i].head, Origin(run[j].head, |run[j].objects|)))
  }

  /** At `k` it then read HEAD as the commit. */
  ghost predicate ReadAt(run: seq<World>, acts: seq<Action>, n: nat, i: nat, j: nat, k: nat) {
    && k < n < |run| && n <= |acts| && MadeAt(run, acts, k, i, j) && acts[k] == CommitRead
    && Stands(run, k, n, ReadBack(run[i].pc.e, run[i].head, Origin(run[j].head, |run[j].objects|), run[k].head))
  }

  /** Whoever stands in the window came through it. */
  ghost predicate CameThrough(run: seq<World>, acts: seq<Action>, n: nat)
    requires n < |run|
  {
    match run[n].pc
    case ParentRead(_, _) => exists i: nat :: ParentAt(run, acts, n, i)
    case Made(_, _, _) => exists i: nat, j: nat :: MadeAt(run, acts, n, i, j)
    case ReadBack(_, _, _, _) => exists i: nat, j: nat, k: nat :: ReadAt(run, acts, n, i, j, k)
    case _ => true
  }

  predicate InWindow(pc: Pc) { pc.ParentRead? || pc.Made? || pc.ReadBack? }

  /** How a step may bring a worker to, or keep it at, a place in the window. */
  ghost predicate WindowStep(w: World, act: Action, after: World) {
    InWindow(after.pc) ==>
      || after.pc == w.pc
      || (act == CommitParent && w.pc.Staged? && after.pc == ParentRead(w.pc.e, w.head))
      || (act == CommitMake && w.pc.ParentRead? && after.head == |w.objects|
          && after.pc == Made(w.pc.e, w.pc.parent, Origin(w.head, |w.objects|)))
      || (act == CommitRead && w.pc.Made? && after.pc == ReadBack(w.pc.e, w.pc.parent, w.pc.origin, w.head))
  }

  lemma StepInWindow(w: World, act: Action)
    ensures WindowStep(w, act, Step(w, act))
  {
  }

  lemma {:induction false} HasWindow(run: seq<World>, acts: seq<Action>, n: nat)
    requires IsRun(run, acts) && Initial(run[0]) && n < |run|
    ensures CameThrough(run, acts, n)
  {
    if n > 0 && InWindow(run[n].pc) {
      HasWindow(run, acts, n - 1);
      StepInWindow(run[n - 1], acts[n - 1]);
      assert run[n - 1 + 1] == Step(run[n - 1], acts[n - 1]);
      if run[n].pc == run[n - 1].pc {
        WindowStays(run, acts, n - 1);
      } else {
        WindowAdvances(run, acts, n - 1);
      }
    }
  }

  lemma WindowStays(run: seq<World>, acts: seq<Action>, n: nat)
    requires IsRun(run, acts) && n + 1 < |run| && CameThrough(run, acts, n)
    requires InWindow(run[n].pc) && run[n + 1].pc == run[n].pc
    ensures CameThrough(run, acts, n + 1)
  {
    match run[n].pc
    case ParentRead(_, _) =>
      var i: nat :| ParentAt(run, acts, n, i);
      assert ParentAt(run, acts, n + 1, i);
    case Made(_, _, _) =>
      var i: nat, j: nat :| MadeAt(run, acts, n, i, j);
      assert MadeAt(run, acts, n + 1, i, j);
    case ReadBack(_, _, _, _) =>
      var i: nat, j: nat, k: nat :| ReadAt(run, acts, n, i, j, k);
      assert ReadAt(run, acts, n + 1, i, j, k);
  }

  lemma WindowAdvances(run: seq<World>, acts: seq<Action>, n: nat)
    requires IsRun(run, acts) && n + 1 < |run| && CameThrough(run, acts, n)
    requires WindowStep(run[n], acts[n], run[n + 1]) && InWindow(run[n + 1].pc) && run[n + 1].pc != run[n].pc
    ensures CameThrough(run, acts, n + 1)
  {
    match run[n + 1].pc
    case ParentRead(_, _) =>
      assert ParentAt(run, acts, n + 1, n);
    case Made(_, _, _) =>
      var i: nat :| ParentAt(run, acts, n, i);
      assert MadeAt(run, acts, n + 1, i, n);
    case ReadBack(_, _, _, _) =>
      var i: nat, j: nat :| MadeAt(run, acts, n, i, j);
      assert ReadAt(run, acts, n + 1, i, j, n);
  }

  // ------------------------------------------------------------------ when a record is true

  /** HEAD was the same when it was read as the parent and when the commit was made on it, and the
      commit was still HEAD when HEAD was read as the commit. */
  ghost predicate HeadKept(run: seq<World>, acts: seq<Action>, m: nat, i: nat, j: nat, k: nat) {
    ReadAt(run, acts, m, i, j, k) && run[i].head == run[j].head && run[j + 1].head == run[k].head
  }

  /** HEAD had been moved off the commit, to another one of just the staged entries on just the
      parent that was read. */
  ghost predicate MovedToTwin(run: seq<World>, acts: seq<Action>, m: nat, i: nat, j: nat, k: nat) {
    && ReadAt(run, acts, m, i, j, k) && run[j + 1].head != run[k].head && run[k].head < |run[k].objects|
    && run[k].objects[run[k].head] == GitCommit(Some(run[i].head), run[j].index)
  }

  /** The transaction at `m` saved record `c`. */
  ghost predicate SavedAt(run: seq<World>, acts: seq<Action>, m: nat, c: nat) {
    && m < |acts| && m + 1 < |run| && acts[m] == CommitSave && run[m].pc.ReadBack?
    && |run[m].rows| == c && |run[m + 1].rows| == c + 1
  }

  lemma StepSaves(w: World, act: Action)
    requires |w.origins| == |w.rows|
    ensures |Step(w, act).rows| > |w.rows| ==> act == CommitSave && w.pc.ReadBack? && SavesAs(w, Step(w, act))
  {
  }

  /** What the saving transaction adds. */
  ghost predicate SavesAs(before: World, after: World)
    requires before.pc.ReadBack?
  {
    var c := |before.rows|;
    && |after.rows| == |after.origins| == c + 1 && after.objects == before.objects
    && after.rows[c].sha == before.pc.sha && after.rows[c].parent == Some(before.pc.parent)
    && after.origins[c] == before.pc.origin
  }

  /** Every record was saved by a step of its own. */
  lemma {:induction false} EveryRecordWasSaved(run: seq<World>, acts: seq<Action>, n: nat, c: nat) returns (m: nat)
    requires IsRun(run, acts) && Initial(run[0]) && n < |run| && c < |run[n].rows|
    ensures m < n && SavedAt(run, acts, m, c)
  {
    Reachable(run, acts, n - 1);
    StepSaves(run[n - 1], acts[n - 1]);
    assert run[n - 1 + 1] == Step(run[n - 1], acts[n - 1]);
    if c < |run[n - 1].rows| {
      m := EveryRecordWasSaved(run, acts, n - 1, c);
    } else {
      m := n - 1;
    }
  }

  /** At the save: the record names what was made exactly when the head was kept, and a twin
      exactly when it was moved to one. */
  lemma SavedNames(run: seq<World>, acts: seq<Action>, m: nat, c: nat, i: nat, j: nat, k: nat)
    requires IsRun(run, acts) && Initial(run[0]) && SavedAt(run, acts, m, c) && ReadAt(run, acts, m, i, j, k)
    ensures NamesOrigin(run[m + 1], c) <==> HeadKept(run, acts, m, i, j, k)
    ensures NamesTwin(run[m + 1], c) <==> MovedToTwin(run, acts, m, i, j, k)
  {
    Reachable(run, acts, m);
    Reachable(run, acts, k);
    StepSaves(run[m], acts[m]);
    assert run[m + 1] == Step(run[m], acts[m]);
    assert run[j + 1] == Step(run[j], acts[j]);
    assert run[j].pc.ParentRead?;
    assert run[j + 1].objects == run[j].objects + [GitCommit(Some(run[j].head), run[j].index)];
    RunGrows(run, acts, j + 1, k);
    RunGrows(run, acts, k, m);
    assert run[m].pc == ReadBack(run[i].pc.e, run[i].head, Origin(run[j].head, |run[j].objects|), run[k].head);
  }

  /** Saved with the head kept, or moved to a twin. */
  ghost predicate TrulySaved(run: seq<World>, acts: seq<Action>, m: nat) {
    exists i: nat, j: nat, k: nat :: HeadKept(run, acts, m, i, j, k) || MovedToTwin(run, acts, m, i, j, k)
  }

  ghost predicate TrulyRecorded(run: seq<World>, acts: seq<Action>, n: nat, c: nat) {
    exists m: nat :: m < n && SavedAt(run, acts, m, c) && TrulySaved(run, acts, m)
  }

  /** What a record is worth at the save, it is worth ever after. */
  lemma TruthLasts(run: seq<World>, acts: seq<Action>, n: nat, m: nat, c: nat)
    requires IsRun(run, acts) && Initial(run[0]) && m < n < |run| && SavedAt(run, acts, m, c)
    ensures RowOk(run[n], c) <==> NamesOrigin(run[m + 1], c) || NamesTwin(run[m + 1], c)
  {
    Reachable(run, acts, m + 1);
    Reachable(run, acts, n);
    assert Traced(run[m + 1], c) && Traced(run[n], c) by { RunGrows(run, acts, m + 1, n); }
    assert Grows(run[m + 1], run[n]) by { RunGrows(run, acts, m + 1, n); }
    TruthStays(run[m + 1], run[n], c);
    TrueRecordIff(run[n], c);
  }

  lemma WindowTruth(run: seq<World>, acts: seq<Action>, n: nat, m: nat, c: nat, i: nat, j: nat, k: nat)
    requires IsRun(run, acts) && Initial(run[0]) && m < n < |run| && SavedAt(run, acts, m, c)
    requires ReadAt(run, acts, m, i, j, k)
    ensures RowOk(run[n], c) <==> HeadKept(run, acts, m, i, j, k) || MovedToTwin(run, acts, m, i, j, k)
  {
    TruthLasts(run, acts, n, m, c);
    SavedNames(run, acts, m, c, i, j, k);
  }

  lemma SavedTruth(run: seq<World>, acts: seq<Action>, n: nat, m: nat, c: nat)
    requires IsRun(run, acts) && Initial(run[0]) && m < n < |run| && SavedAt(run, acts, m, c)
    ensures RowOk(run[n], c) <==> TrulySaved(run, acts, m)
  {
    if TrulySaved(run, acts, m) {
      var i: nat, j: nat, k: nat :| HeadKept(run, acts, m, i, j, k) || MovedToTwin(run, acts, m, i, j, k);
      WindowTruth(run, acts, n, m, c, i, j, k);
    } else {
      HasWindow(run, acts, m);
      var i: nat, j: nat, k: nat :| ReadAt(run, acts, m, i, j, k);
      WindowTruth(run, acts, n, m, c, i, j, k);
    }
  }

  /** A record is true in a reachable state, its commit the accepted files on its recorded parent,
      if and only if HEAD was the same when it was read as the parent and when the commit was made,
      and was not moved between the commit and the second read, or moved to a twin of the commit. */
  lemma RecordIsTrueIff(run: seq<World>, acts: seq<Action>, n: nat, c: nat)
    requires IsRun(run, acts) && Initial(run[0]) && n < |run| && c < |run[n].rows|
    ensures RowOk(run[n], c) <==> TrulyRecorded(run, acts, n, c)
  {
    var m := EveryRecordWasSaved(run, acts, n, c);
    SavedTruth(run, acts, n, m, c);
    if TrulyRecorded(run, acts, n, c) {
      var m: nat :| m < n && SavedAt(run, acts, m, c) && TrulySaved(run, acts, m);
      SavedTruth(run, acts, n, m, c);
    }
  }

  /** The repository holds no second commit of these entries on this parent. */
  ghost predicate NoTwin(w: World, c: nat)
    requires c < |w.rows| == |w.origins| && w.origins[c].made < |w.objects|
  {
    forall sha :: 0 <= sha < |w.objects| && sha != w.origins[c].made ==>
      w.objects[sha] != GitCommit(w.rows[c].parent, w.objects[w.origins[c].made].entries)
  }

  ghost predicate KeptWhenSaved(run: seq<World>, acts: seq<Action>, n: nat, c: nat) {
    exists m: nat, i: nat, j: nat, k: nat :: m < n && SavedAt(run, acts, m, c) && HeadKept(run, acts, m, i, j, k)
  }

  lemma NoTwinWasRead(run: seq<World>, acts: seq<Action>, n: nat, m: nat, c: nat, i: nat, j: nat, k: nat)
    requires IsRun(run, acts) && Initial(run[0]) && m < n < |run| && SavedAt(run, acts, m, c)
    requires ReadAt(run, acts, m, i, j, k) && Traced(run[n], c) && NoTwin(run[n], c)
    ensures !MovedToTwin(run, acts, m, i, j, k)
  {
    SavedNames(run, acts, m, c, i, j, k);
    Reachable(run, acts, m + 1);
    RunGrows(run, acts, m + 1, n);
    TruthStays(run[m + 1], run[n], c);
  }

  /** Without such twins the record is true if and only if HEAD did not move in the window. */
  lemma RecordIsTrueIffHeadKept(run: seq<World>, acts: seq<Action>, n: nat, c: nat)
    requires IsRun(run, acts) && Initial(run[0]) && n < |run| && c < |run[n].rows|
    requires Traced(run[n], c) && NoTwin(run[n], c)
    ensures RowOk(run[n], c) <==> KeptWhenSaved(run, acts, n, c)
  {
    if KeptWhenSaved(run, acts, n, c) {
      var m: nat, i: nat, j: nat, k: nat :| m < n && SavedAt(run, acts, m, c) && HeadKept(run, acts, m, i, j, k);
      WindowTruth(run, acts, n, m, c, i, j, k);
    } else {
      var m := EveryRecordWasSaved(run, acts, n, c);
      HasWindow(run, acts, m);
      var i: nat, j: nat, k: nat :| ReadAt(run, acts, m, i, j, k);
      WindowTruth(run, acts, n, m, c, i, j, k);
      NoTwinWasRead(run, acts, n, m, c, i, j, k);
    }
  }

  // ------------------------------------------------------------------ the chain

  /** How often the milestone went from PUSHING to PR_CREATING. */
  ghost function Visits(run: seq<World>, n: nat): nat
    requires n < |run|
  {
    if n == 0 then 0 else Visits(run, n - 1) + if Enters(run[n - 1], run[n]) then 1 else 0
  }

  /** Every visit to PR_CREATING is an entry of its own. */
  lemma {:induction false} EntriesAreVisits(run: seq<World>, acts: seq<Action>, n: nat)
    requires IsRun(run, acts) && Initial(run[0]) && n < |run|
    ensures |run[n].entered| == Visits(run, n)
  {
    if n > 0 {
      EntriesAreVisits(run, acts, n - 1);
      StepMovesWell(run[n - 1], acts[n - 1]);
      assert run[n - 1 + 1] == Step(run[n - 1], acts[n - 1]);
    }
  }

  /** A milestone is in PR_CREATING, blocked or not, only after such a visit. */
  lemma {:induction false} CreatingWasEntered(run: seq<World>, acts: seq<Action>, n: nat)
    requires IsRun(run, acts) && Initial(run[0]) && n < |run|
    ensures M.WellFormed(run[n].milestone)
    ensures M.Effective(run[n].milestone) == M.PrCreating ==> run[n].entered != []
  {
    if n > 0 {
      CreatingWasEntered(run, acts, n - 1);
      StepMovesWell(run[n - 1], acts[n - 1]);
      assert run[n - 1 + 1] == Step(run[n - 1], acts[n - 1]);
      if run[n].milestone != run[n - 1].milestone {
        M.StepKeepsWellFormed(run[n - 1].milestone, run[n].milestone);
      }
    }
  }

  /** Whatever crashes, replays and other hands come between: each visit of the milestone to
      PR_CREATING is for a record whose commit was seen at the remote, whose parent is the trusted
      head of an accepted change set with the recorded hash, and for which exactly that change
      set's files were committed.  The recorded commit is that one, so that the chain is whole, if
      and only if HEAD was kept while it was made, or moved to a twin of it. */
  lemma ChainOfCustody(run: seq<World>, acts: seq<Action>, n: nat)
    requires IsRun(run, acts) && Initial(run[0]) && n < |run|
    ensures |run[n].entered| == Visits(run, n)
    ensures M.Effective(run[n].milestone) == M.PrCreating ==> run[n].entered != []
    ensures forall c :: c in run[n].entered ==> Linked(run[n], c) && run[n].rows[c].sha in run[n].seen
    ensures forall c :: c in run[n].entered ==> (InCustody(run[n], c) <==> TrulyRecorded(run, acts, n, c))
  {
    Reachable(run, acts, n);
    EntriesAreVisits(run, acts, n);
    CreatingWasEntered(run, acts, n);
    forall c | c in run[n].entered ensures Linked(run[n], c) && (InCustody(run[n], c) <==> TrulyRecorded(run, acts, n, c)) {
      RecordIsTrueIff(run, acts, n, c);
    }
  }

  // ------------------------------------------------------------------ a broken chain

  const FILES: set<FileEntry> := {FileEntry("a", 1)}
  const FIRST: GitCommit := GitCommit(None, {})
  const FOREIGN: GitCommit := GitCommit(Some(0), {})
  const EVIDENCE: ChangeSet := ChangeSet(0, DiffHash(FILES), FILES, true)

  /** A repository with the trusted head 0 and somebody's commit 1 on it, and a milestone about to
      be committed. */
  const FOUND: World := World(M.Row(M.Committing, None), [], [], [], 0, Ready, [FIRST, FOREIGN], 0, {}, {}, None, {},
    Idle, {}, [])

  const STAGED: World := FOUND.(changeSets := [EVIDENCE], work := FILES, index := FILES, pc := Staged(0))

  /** The record of commit 1, which nobody ever validated. */
  const ROW: CommitRow := CommitRow(1, Some(0), 0, DiffHash(FILES), false)

  const SAVED: World := STAGED.(work := {}, index := {}, objects := [FIRST, FOREIGN, GitCommit(Some(0), FILES)], head := 1,
    rows := [ROW], origins := [Origin(0, 2)], trustedHead := 1, pc := ToVerify(0))

  const PUSHING: World := SAVED.(milestone := M.Row(M.Pushing, None), pc := Looked(0, None))

  lemma OneMore(run: seq<World>, acts: seq<Action>, act: Action)
    requires IsRun(run, acts)
    ensures IsRun(run + [Step(run[|acts|], act)], acts + [act])
  {
  }

  lemma TwoMore(run: seq<World>, acts: seq<Action>, first: Action, second: Action)
    returns (more: seq<World>, moreActs: seq<Action>)
    requires IsRun(run, acts)
    ensures IsRun(more, moreActs) && more[0] == run[0]
    ensures more[|moreActs|] == Step(Step(run[|acts|], first), second)
  {
    var w := Step(run[|acts|], first);
    OneMore(run, acts, first);
    OneMore(run + [w], acts + [first], second);
    more, moreActs := run + [w] + [Step(w, second)], acts + [first] + [second];
  }

  lemma DiffIsValidated()
    ensures Step(Step(FOUND, Validate(FILES, true)), WriteWork(FILES))
         == FOUND.(changeSets := [EVIDENCE], work := FILES)
  {
    assert FileEntry("a", 1) in FILES;
  }

  lemma DiffIsSelected()
    ensures Step(Step(FOUND.(changeSets := [EVIDENCE], work := FILES), CommitBegin), CommitSelect)
         == STAGED.(index := {}, pc := Selected(0))
  {
    assert FileEntry("a", 1) in FILES;
  }

  lemma DiffIsStaged()
    ensures Step(Step(STAGED.(index := {}, pc := Selected(0)), CommitAdd), CommitCheck) == STAGED
  {
    assert FileEntry("a", 1) in FILES;
    assert Added(STAGED.(index := {}), Paths(FILES)) == FILES;
  }

  /** The commit is made on the head that was read; then HEAD moves to commit 1. */
  lemma HeadIsMoved()
    ensures Step(Step(STAGED, CommitParent), CommitMake)
         == SAVED.(head := 2, rows := [], origins := [], trustedHead := 0, pc := Made(0, 0, Origin(0, 2)))
    ensures Step(Step(SAVED.(head := 2, rows := [], origins := [], trustedHead := 0, pc := Made(0, 0, Origin(0, 2))),
              MoveHead(1)), CommitRead)
         == SAVED.(rows := [], origins := [], trustedHead := 0, pc := ReadBack(0, 0, Origin(0, 2), 1))
  {
    assert FILES - FILES == {};
  }

  lemma RecordIsVerified()
    ensures Step(Step(SAVED.(rows := [], origins := [], trustedHead := 0, pc := ReadBack(0, 0, Origin(0, 2), 1)),
              CommitSave), CommitVerify)
         == SAVED.(pc := Verified(0))
  {
    assert FileEntry("a", 1) in FILES;
  }

  lemma PushBegins()
    ensures Step(Step(SAVED.(pc := Verified(0)), CommitFinish), PushBegin) == PUSHING.(pc := Chained(0, true))
    ensures Step(Step(PUSHING.(pc := Chained(0, true)), PushInspect), PushLook) == PUSHING
  {
    assert [ROW][..0] == [];
  }

  const SENT: World := PUSHING.(remote := Some(1), inFlight := {1}, seen := {1}, pc := Confirmed(0))

  const ENTERED: World :=
    SENT.(rows := [ROW.(pushed := true)], entered := [0], milestone := M.Row(M.PrCreating, None), pc := Idle)

  lemma PushArrives()
    ensures Step(Step(PUSHING, PushSend(true, false)), PushReread) == SENT
  {
  }

  lemma PrIsEntered()
    ensures Step(Step(Step(SENT, PushMark), PushObserve), PushFinish) == ENTERED
  {
    var marked := ENTERED.(entered := [], milestone := M.Row(M.Pushing, None), pc := Marked(0));
    assert Step(SENT, PushMark) == marked;
    assert {1} + {1} == {1};
    assert Step(marked, PushObserve) == marked.(pc := Observed(0));
  }

  /** HEAD moves between the commit and the second look at it: everything agrees, and the
      milestone is taken to PR_CREATING for a commit whose entries nobody accepted. */
  lemma MovedHeadBreaksTheChain() returns (run: seq<World>, acts: seq<Action>)
    ensures IsRun(run, acts) && Initial(run[0])
    ensures run[|acts|].entered == [0] && !InCustody(run[|acts|], 0)
  {
    DiffIsValidated();
    DiffIsSelected();
    DiffIsStaged();
    run, acts := TwoMore([FOUND], [], Validate(FILES, true), WriteWork(FILES));
    run, acts := TwoMore(run, acts, CommitBegin, CommitSelect);
    run, acts := TwoMore(run, acts, CommitAdd, CommitCheck);
    HeadIsMoved();
    run, acts := TwoMore(run, acts, CommitParent, CommitMake);
    run, acts := TwoMore(run, acts, MoveHead(1), CommitRead);
    RecordIsVerified();
    run, acts := TwoMore(run, acts, CommitSave, CommitVerify);
    run, acts := BreakingPush(run, acts);
  }

  lemma BreakingPush(run: seq<World>, acts: seq<Action>) returns (more: seq<World>, moreActs: seq<Action>)
    requires IsRun(run, acts) && run[|acts|] == SAVED.(pc := Verified(0))
    ensures IsRun(more, moreActs) && more[0] == run[0]
    ensures more[|moreActs|].entered == [0] && !InCustody(more[|moreActs|], 0)
  {
    PushBegins();
    more, moreActs := TwoMore(run, acts, CommitFinish, PushBegin);
    more, moreActs := TwoMore(more, moreActs, PushInspect, PushLook);
    PushArrives();
    more, moreActs := TwoMore(more, moreActs, PushSend(true, false), PushReread);
    var marked := Step(more[|moreActs|], PushMark);
    OneMore(more, moreActs, PushMark);
    PrIsEntered();
    more, moreActs := TwoMore(more + [marked], moreActs + [PushMark], PushObserve, PushFinish);
    assert more[|moreActs|] == ENTERED && ENTERED.objects[1] == FOREIGN;
    assert FileEntry("a", 1) in FILES;
  }
}
