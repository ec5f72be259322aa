/** The commit and push executors as the programs they are, with anything happening between
    their steps; each is shown to be a run of the custody system. */
module WorkspaceServices {
  import opened Wrappers
  import M = MilestoneMachine
  import C = Custody
  import H = CustodyHistory

  datatype Outcome = Succeeded | Transient | Failed

  /** Steps of the executors and crashes are this worker's own; the rest is everybody else's. */
  predicate Foreign(act: C.Action) {
    act.WriteWork? || act.MoveHead? || act.Validate? || act.RemoteMoves? || act.PushLands? || act.MoveMilestone?
  }

  ghost predicate AllForeign(batch: seq<C.Action>) { forall act :: act in batch ==> Foreign(act) }

  lemma ForeignLeavesPc(w: C.World, act: C.Action)
    requires Foreign(act)
    ensures C.Step(w, act).pc == w.pc
  {
  }

  /** The step `act` takes `w` to `after`. */
  ghost predicate Takes(w: C.World, act: C.Action, after: C.World) { C.IsRun([w, after], [act]) }

  lemma OneStep(w: C.World, act: C.Action)
    ensures Takes(w, act, C.Step(w, act))
  {
    var run, acts := [w, C.Step(w, act)], [act];
    assert forall i :: 0 <= i < |acts| ==> run[i + 1] == C.Step(run[i], acts[i]);
  }

  lemma OneMore(run: seq<C.World>, acts: seq<C.Action>, act: C.Action, after: C.World)
    requires C.IsRun(run, acts) && Takes(run[|acts|], act, after)
    ensures C.IsRun(run + [after], acts + [act])
  {
    var longer, more := run + [after], acts + [act];
    var one, action := [run[|acts|], after], [act];
    assert one[0 + 1] == C.Step(one[0], action[0]);
    forall i | 0 <= i < |more| ensures longer[i + 1] == C.Step(longer[i], more[i]) {
      if i < |acts| { assert run[i + 1] == C.Step(run[i], acts[i]); }
    }
  }

  // ------------------------------------------------------------------ undisturbed executions

  /** Select, add and check the index, as far as it gets. */
  function StagedUp(w: C.World, e: nat): C.World {
    var selected := C.Select(w, e);
    if !selected.pc.Selected? then selected
    else
      var added := C.AddPaths(selected, selected.pc.e);
      if added.pc.InIndex? then C.CheckIndex(added, added.pc.e) else added
  }

  /** Read HEAD, commit, read HEAD again, and record what was read. */
  function Taken(w: C.World, e: nat): C.World {
    var made := C.MakeCommit(C.ReadParent(w, e), e, w.head);
    var origin := C.Origin(w.head, |w.objects|);
    C.SaveCommit(C.ReadCommit(made, e, w.head, origin), e, w.head, origin, made.head)
  }

  /** Stage, commit and record, as far as it gets. */
  function Recorded(w: C.World, e: nat): C.World {
    var staged := StagedUp(w, e);
    if staged.pc.Staged? then Taken(staged, staged.pc.e) else staged
  }

  /** A verified record moves the milestone on, if it was COMMITTING when the worker looked. */
  function Checked(w: C.World, c: nat, committing: bool): (Outcome, C.World) {
    var verified := C.VerifyCommit(w, c);
    if verified.pc.Verified? then (MovedAs(w, committing, M.Committing), C.FinishCommit(verified)) else (Failed, verified)
  }

  /** A worker that saw `state` fails when the milestone is not there any more. */
  function MovedAs(w: C.World, saw: bool, state: M.State): Outcome {
    if saw && w.milestone.state != state then Failed else Succeeded
  }

  /** What the commit executor does when nothing comes in between. */
  function Committed(w: C.World): (Outcome, C.World) {
    var begun := C.BeginCommit(w);
    match begun.pc
    case ToVerify(c) => Checked(begun, c, w.milestone.state == M.Committing)
    case ToCommit(e) =>
      var recorded := Recorded(begun, e);
      if recorded.pc.ToVerify? then Checked(recorded, recorded.pc.c, true) else (Failed, recorded)
    case _ => (Failed, begun)
  }

  /** The last look at the remote, and the milestone's move. */
  function Confirmed(w: C.World, c: nat, pushing: bool): (Outcome, C.World) {
    var observed := C.ObserveRemote(w, c);
    if observed.pc.Observed? then (MovedAs(w, pushing, M.Pushing), C.FinishPush(observed, c)) else (Failed, observed)
  }

  /** The mark, once the commit was seen at the remote. */
  function MarkedOff(w: C.World, c: nat): (Outcome, C.World) {
    var marked := C.MarkPushed(w, c);
    if marked.pc.Marked? then Confirmed(marked, c, true) else (Failed, marked)
  }

  /** A push whose commit does not show is worth another try only if the transport broke and left
      the remote as it was. */
  function Unseen(w: C.World, before: Option<C.Sha>, ambiguous: bool): Outcome {
    if ambiguous && w.remote == before then Transient else Failed
  }

  function Dispatched(w: C.World, c: nat, before: Option<C.Sha>, applied: bool, ambiguous: bool): (Outcome, C.World) {
    var pushed := C.PushBranch(w, c, before, applied, ambiguous);
    var reread := C.RereadRemote(pushed, c);
    if reread.pc.Confirmed? then MarkedOff(reread, c) else (Unseen(pushed, before, ambiguous), reread)
  }

  /** The push, what it came to, and its mark. */
  function Sent(w: C.World, c: nat, applied: bool, ambiguous: bool): (Outcome, C.World) {
    var looked := C.LookRemote(w, c);
    match looked.pc
    case Confirmed(_) => MarkedOff(looked, c)
    case Looked(_, before) => Dispatched(looked, c, before, applied, ambiguous)
    case _ => (Failed, looked)
  }

  /** What the push executor does when nothing comes in between. */
  function Pushed(w: C.World, applied: bool, ambiguous: bool): (Outcome, C.World) {
    var begun := C.BeginPush(w);
    if !begun.pc.Chained? then (Failed, begun)
    else
      var inspected := C.Inspect(begun, begun.pc.c, begun.pc.pushing);
      match inspected.pc
      case Inspected(c) => Sent(inspected, c, applied, ambiguous)
      case Marked(c) => Confirmed(inspected, c, begun.pc.pushing)
      case _ => (Failed, inspected)
  }

  /** The hash of a change set is that of its files. */
  predicate Hashed(w: C.World) {
    forall i :: 0 <= i < |w.changeSets| ==> w.changeSets[i].hash == C.DiffHash(w.changeSets[i].files)
  }

  /** An accepted diff waits in the work tree, untouched and not recorded yet. */
  predicate Committable(w: C.World) {
    && w.milestone.state == M.Committing && w.pc.Idle? && C.HeadMatches(w) && Hashed(w) && w.index == {}
    && var e := C.NewestAccepted(w.changeSets, w.trustedHead);
       e.Some? && C.RowForChangeSet(w.rows, e.value).None? && w.work == w.changeSets[e.value].files != {}
  }

  /** Nothing was accepted for the commit that is about to be made. */
  predicate NextIsUnseen(w: C.World) { C.NewestAccepted(w.changeSets, |w.objects|).None? }

  lemma {:induction false} AcceptedIsFound(sets: seq<C.ChangeSet>, head: C.Sha, i: nat)
    requires i < |sets| && sets[i].accepted && sets[i].trustedHead == head
    ensures C.AcceptedFor(sets, head, sets[i].hash).Some?
  {
    if i < |sets| - 1 { AcceptedIsFound(sets[..|sets| - 1], head, i); }
  }

  /** Staging an untouched accepted diff succeeds, for a change set with just those files. */
  lemma StagesAccepted(w: C.World, e: nat) returns (newest: nat)
    requires Committable(w) && e == C.NewestAccepted(w.changeSets, w.trustedHead).value
    ensures newest < |w.changeSets| && w.changeSets[newest].files == w.work && w.changeSets[newest].accepted
    ensures w.changeSets[newest].trustedHead == w.head && w.changeSets[newest].hash == C.DiffHash(w.work)
    ensures StagedUp(w.(pc := C.ToCommit(e)), e) == w.(index := w.work, pc := C.Staged(newest))
  {
    AcceptedIsFound(w.changeSets, w.trustedHead, e);
    newest := C.AcceptedFor(w.changeSets, w.trustedHead, w.changeSets[e].hash).value;
    assert w.changeSets[newest].hash == C.DiffHash(w.changeSets[newest].files);
    var selected := w.(pc := C.Selected(newest));
    assert C.Select(w.(pc := C.ToCommit(e)), e) == selected;
    assert C.Added(selected, C.Paths(w.work)) == w.work;
  }

  /** What the executor leaves of a committable world. */
  function TakenUp(w: C.World, e: nat): C.World {
    w.(objects := w.objects + [C.GitCommit(Some(w.head), w.work)], head := |w.objects|, trustedHead := |w.objects|,
       work := {}, index := {}, state := C.Ready, pc := C.Idle,
       rows := w.rows + [C.CommitRow(|w.objects|, Some(w.head), e, C.DiffHash(w.work), false)],
       origins := w.origins + [C.Origin(w.head, |w.objects|)],
       milestone := M.Row(M.Pushing, w.milestone.resume))
  }

  /** An accepted diff is committed: one commit on the old head with exactly the accepted files,
      one record of it, and the milestone moves on. */
  lemma CommitTakesCustody(w: C.World) returns (e: nat)
    requires Committable(w)
    ensures Committed(w) == (Succeeded, TakenUp(w, e))
    ensures e < |w.changeSets| && w.changeSets[e].accepted && w.changeSets[e].trustedHead == w.head
    ensures w.changeSets[e].files == w.work
  {
    var first := C.NewestAccepted(w.changeSets, w.trustedHead).value;
    e := StagesAccepted(w, first);
    assert C.BeginCommit(w) == w.(pc := C.ToCommit(first));
    assert w.work - w.work == {};
    var recorded := TakenUp(w, e).(pc := C.ToVerify(|w.rows|), milestone := w.milestone);
    assert Recorded(w.(pc := C.ToCommit(first)), first) == recorded;
    assert C.VerifyCommit(recorded, |w.rows|) == recorded.(pc := C.Verified(|w.rows|));
  }

  /** Running the commit executor again after it succeeded changes nothing and succeeds again. */
  lemma CommitReplaysQuietly(w: C.World)
    requires Committable(w) && NextIsUnseen(w)
    ensures var (outcome, after) := Committed(w); outcome == Succeeded && Committed(after) == (Succeeded, after)
  {
    var e := CommitTakesCustody(w);
    var after := TakenUp(w, e);
    var c := |w.rows|;
    assert C.RowAtHead(after) == Some(c);
    assert C.BeginCommit(after) == after.(pc := C.ToVerify(c));
    assert C.VerifyCommit(after.(pc := C.ToVerify(c)), c) == after.(pc := C.Verified(c));
  }

  /** A recorded commit waits to be pushed. */
  predicate Pushable(w: C.World, c: nat) {
    && w.milestone.state == M.Pushing && w.pc.Idle? && C.HeadMatches(w)
    && C.RowAtHead(w) == Some(c) && C.ChainHolds(w, c) && !w.rows[c].pushed
  }

  /** What the executor leaves of a pushable world whose push is applied. */
  function SentOff(w: C.World, c: nat): C.World
    requires c < |w.rows|
  {
    w.(remote := Some(w.rows[c].sha), inFlight := if w.remote == Some(w.rows[c].sha) then w.inFlight else w.inFlight + {w.head},
       rows := w.rows[c := w.rows[c].(pushed := true)], seen := w.seen + {w.rows[c].sha},
       entered := w.entered + [c], milestone := M.Row(M.PrCreating, w.milestone.resume), pc := C.Idle)
  }

  /** Everything that a push decided by the remote leaves. */
  function Arrived(w: C.World, c: nat): C.World
    requires c < |w.rows|
  {
    w.(seen := w.seen + {w.rows[c].sha}, pc := C.Confirmed(c))
  }

  lemma ArrivalIsMarked(w: C.World, c: nat)
    requires c < |w.rows| && w.rows[c].sha in w.seen && w.milestone.state == M.Pushing
    requires w.remote == Some(w.rows[c].sha)
    ensures MarkedOff(w, c) == (Succeeded, w.(rows := w.rows[c := w.rows[c].(pushed := true)], entered := w.entered + [c],
      milestone := M.Row(M.PrCreating, w.milestone.resume), pc := C.Idle))
  {
    var marked := w.(rows := w.rows[c := w.rows[c].(pushed := true)], pc := C.Marked(c));
    assert C.MarkPushed(w, c) == marked;
    assert marked.seen + {w.rows[c].sha} == marked.seen;
    assert C.ObserveRemote(marked, c) == marked.(pc := C.Observed(c));
  }

  /** A push that is applied, or was before, takes the milestone to PR_CREATING for its record,
      whatever the transport says of it.  One that does not show leaves the records and the
      milestone as they were, and is worth another try exactly if the transport broke. */
  lemma PushReachesRemote(w: C.World, c: nat, applied: bool, ambiguous: bool)
    requires Pushable(w, c)
    ensures applied || w.remote == Some(w.rows[c].sha) ==> Pushed(w, applied, ambiguous) == (Succeeded, SentOff(w, c))
    ensures !applied && w.remote != Some(w.rows[c].sha) ==>
      Pushed(w, applied, ambiguous) == (if ambiguous then Transient else Failed, w.(inFlight := w.inFlight + {w.head}))
  {
    var chained := w.(pc := C.Chained(c, true));
    assert C.BeginPush(w) == chained;
    var inspected := w.(pc := C.Inspected(c));
    assert C.Inspect(chained, c, true) == inspected;
    if w.remote == Some(w.rows[c].sha) {
      ThereIsSeen(w, c, applied, ambiguous);
    } else {
      var looked := w.(pc := C.Looked(c, w.remote));
      assert C.LookRemote(inspected, c) == looked;
      if applied { AppliedIsSeen(w, c, ambiguous); }
    }
  }

  lemma ThereIsSeen(w: C.World, c: nat, applied: bool, ambiguous: bool)
    requires Pushable(w, c) && w.remote == Some(w.rows[c].sha)
    ensures Sent(w.(pc := C.Inspected(c)), c, applied, ambiguous) == (Succeeded, SentOff(w, c))
  {
    assert C.LookRemote(w.(pc := C.Inspected(c)), c) == Arrived(w, c);
    ArrivalIsMarked(Arrived(w, c), c);
  }

  lemma AppliedIsSeen(w: C.World, c: nat, ambiguous: bool)
    requires Pushable(w, c) && w.remote != Some(w.rows[c].sha)
    ensures Sent(w.(pc := C.Inspected(c)), c, true, ambiguous) == (Succeeded, SentOff(w, c))
  {
    var pushed := C.PushBranch(w.(pc := C.Looked(c, w.remote)), c, w.remote, true, ambiguous);
    var there := w.(remote := Some(w.head), inFlight := w.inFlight + {w.head});
    assert C.RereadRemote(pushed, c) == Arrived(there, c);
    ArrivalIsMarked(Arrived(there, c), c);
  }

  lemma {:induction false} MarkKeepsRow(rows: seq<C.CommitRow>, c: nat, sha: C.Sha, e: nat)
    requires c < |rows|
    ensures C.RowWithSha(rows[c := rows[c].(pushed := true)], sha) == C.RowWithSha(rows, sha)
    ensures C.RowForChangeSet(rows[c := rows[c].(pushed := true)], e) == C.RowForChangeSet(rows, e)
  {
    var n := |rows| - 1;
    var marked := rows[c := rows[c].(pushed := true)];
    if c == n {
      assert marked[..n] == rows[..n];
    } else {
      assert marked[..n] == rows[..n][c := rows[..n][c].(pushed := true)];
      MarkKeepsRow(rows[..n], c, sha, e);
    }
  }

  /** Running the push executor again after it succeeded changes nothing and succeeds again,
      whatever the transport does. */
  lemma PushReplaysQuietly(w: C.World, c: nat, again: bool, ambiguous: bool)
    requires Pushable(w, c)
    ensures var after := SentOff(w, c); Pushed(after, again, ambiguous) == (Succeeded, after)
  {
    var after := SentOff(w, c);
    var row := C.RowWithSha(w.rows, w.trustedHead);
    MarkKeepsRow(w.rows, c, w.trustedHead, w.rows[row.value].changeSet);
    assert C.RowAtHead(after) == Some(c);
    assert C.BeginPush(after) == after.(pc := C.Chained(c, false));
    assert C.Inspect(after.(pc := C.Chained(c, false)), c, false) == after.(pc := C.Marked(c));
    assert after.seen + {w.rows[c].sha} == after.seen;
    assert C.ObserveRemote(after.(pc := C.Marked(c)), c) == after.(pc := C.Observed(c));
  }

  class WorkspaceService {
    var world: C.World
    var schedule: seq<seq<C.Action>>

    ghost const start: C.World
    ghost var run: seq<C.World>
    ghost var history: seq<C.Action>

    ghost predicate Valid()
      reads this
    {
      && C.IsRun(run, history) && start == run[0] && world == run[|history|]
      && forall batch :: batch in schedule ==> AllForeign(batch)
    }

    constructor (world: C.World, schedule: seq<seq<C.Action>>)
      requires forall batch :: batch in schedule ==> AllForeign(batch)
      ensures Valid() && this.world == world && start == world
    {
      this.world, this.schedule := world, schedule;
      this.start, this.run, this.history := world, [world], [];
    }

    /** Anything may happen to the work tree, the head, the remote and the milestone here. */
    method Interfere()
      requires Valid()
      modifies this
      ensures Valid() && world.pc == old(world.pc)
      ensures old(schedule) == [] ==> schedule == [] && world == old(world)
    {
      if schedule != [] {
        var batch := schedule[0];
        schedule := schedule[1..];
        var i := 0;
        while i < |batch|
          invariant 0 <= i <= |batch| && Valid() && world.pc == old(world.pc)
          invariant AllForeign(batch)
        {
          ForeignLeavesPc(world, batch[i]);
          OneStep(world, batch[i]);
          ghost var before := world;
          world := C.Step(world, batch[i]);
          Took(before, batch[i]);
          i := i + 1;
        }
      }
    }

    ghost method Took(before: C.World, act: C.Action)
      requires C.IsRun(run, history) && start == run[0] && before == run[|history|] && Takes(before, act, world)
      requires forall batch :: batch in schedule ==> AllForeign(batch)
      modifies this`run, this`history
      ensures Valid() && history == old(history) + [act]
    {
      OneMore(run, history, act, world);
      run, history := run + [world], history + [act];
    }

    /** The live head against the durable one; a difference marks the workspace. */
    method HeadIsTrusted() returns (ok: bool)
      modifies this`world
      ensures ok <==> C.HeadMatches(old(world))
      ensures world == if ok then old(world) else C.Mismatch(old(world))
    {
      ok := world.head == world.trustedHead;
      if !ok { world := world.(state := C.Errored, pc := C.Idle); }
    }

    /** The current diff must be the accepted one, and its evidence name the same paths. */
    method Select(e: nat) returns (selected: Option<nat>)
      requires Valid() && world.pc == C.ToCommit(e)
      modifies this`world, this`run, this`history
      ensures history == old(history) + [C.CommitSelect] && world == C.Select(old(world), e)
      ensures Valid() && world.pc == (if selected.Some? then C.Selected(selected.value) else C.Idle)
    {
      ghost var before := world;
      OneStep(world, C.CommitSelect);
      var trusted := HeadIsTrusted();
      selected := None;
      if trusted {
        world := world.(pc := C.Idle);
        if e < |world.changeSets| && C.DiffHash(world.work) == world.changeSets[e].hash {
          var found := C.AcceptedFor(world.changeSets, world.trustedHead, world.changeSets[e].hash);
          if found.Some? && C.Paths(world.changeSets[e].files) == C.Paths(world.changeSets[found.value].files) {
            selected := found;
            world := world.(pc := C.Selected(found.value));
          }
        }
      }
      Took(before, C.CommitSelect);
    }

    /** `git add` of exactly those paths. */
    method AddPaths(e: nat) returns (added: bool)
      requires Valid() && world.pc == C.Selected(e)
      modifies this`world, this`run, this`history
      ensures history == old(history) + [C.CommitAdd] && world == C.AddPaths(old(world), e)
      ensures Valid() && world.pc == (if added then C.InIndex(e) else C.Idle)
    {
      ghost var before := world;
      OneStep(world, C.CommitAdd);
      added := e < |world.changeSets|;
      if added {
        var paths := C.Paths(world.changeSets[e].files);
        world := world.(index := (set f | f in world.index && f.path !in paths) + (set f | f in world.work && f.path in paths),
                        pc := C.InIndex(e));
      } else {
        world := world.(pc := C.Idle);
      }
      Took(before, C.CommitAdd);
    }

    /** The index against the accepted files, entry by entry. */
    method CheckIndex(e: nat) returns (exact: bool)
      requires Valid() && world.pc == C.InIndex(e)
      modifies this`world, this`run, this`history
      ensures history == old(history) + [C.CommitCheck] && world == C.CheckIndex(old(world), e)
      ensures Valid() && world.pc == (if exact then C.Staged(e) else C.Idle)
    {
      ghost var before := world;
      OneStep(world, C.CommitCheck);
      exact := e < |world.changeSets| && world.index == world.changeSets[e].files;
      world := world.(pc := if exact then C.Staged(e) else C.Idle);
      Took(before, C.CommitCheck);
    }

    /** HEAD, for the parent. */
    method ReadParent(e: nat) returns (parent: C.Sha)
      requires Valid() && world.pc == C.Staged(e)
      modifies this`world, this`run, this`history
      ensures history == old(history) + [C.CommitParent] && world == C.ReadParent(old(world), e)
      ensures Valid() && world.pc == C.ParentRead(e, parent) && parent == world.head
    {
      ghost var before := world;
      OneStep(world, C.CommitParent);
      parent := world.head;
      world := world.(pc := C.ParentRead(e, parent));
      Took(before, C.CommitParent);
    }

    /** `git commit` of the index. */
    method CommitIndex(e: nat, parent: C.Sha)
      requires Valid() && world.pc == C.ParentRead(e, parent)
      modifies this`world, this`run, this`history
      ensures history == old(history) + [C.CommitMake] && world == C.MakeCommit(old(world), e, parent)
      ensures Valid()
    {
      ghost var before := world;
      OneStep(world, C.CommitMake);
      var made := |world.objects|;
      world := world.(objects := world.objects + [C.GitCommit(Some(world.head), world.index)], head := made,
                      work := world.work - world.index, index := {},
                      pc := C.Made(e, parent, C.Origin(world.head, made)));
      Took(before, C.CommitMake);
    }

    /** HEAD, for the commit. */
    method ReadCommit(e: nat, parent: C.Sha) returns (sha: C.Sha)
      requires Valid() && world.pc.Made? && world.pc.e == e && world.pc.parent == parent
      modifies this`world, this`run, this`history
      ensures history == old(history) + [C.CommitRead]
      ensures world == C.ReadCommit(old(world), e, parent, old(world).pc.origin)
      ensures Valid() && sha == world.head
    {
      ghost var before := world;
      OneStep(world, C.CommitRead);
      sha := world.head;
      world := world.(pc := C.ReadBack(e, parent, world.pc.origin, sha));
      Took(before, C.CommitRead);
    }

    /** One transaction: the record, and the durable head. */
    method SaveCommit(e: nat, parent: C.Sha, sha: C.Sha) returns (c: Option<nat>)
      requires Valid() && world.pc.ReadBack? && world.pc.e == e && world.pc.parent == parent && world.pc.sha == sha
      modifies this`world, this`run, this`history
      ensures history == old(history) + [C.CommitSave]
      ensures world == C.SaveCommit(old(world), e, parent, old(world).pc.origin, sha)
      ensures Valid() && world.pc == (if c.Some? then C.ToVerify(c.value) else C.Idle)
    {
      ghost var before := world;
      OneStep(world, C.CommitSave);
      if e >= |world.changeSets| {
        c, world := None, world.(pc := C.Idle);
      } else {
        c := Some(|world.rows|);
        world := world.(rows := world.rows + [C.CommitRow(sha, Some(parent), e, world.changeSets[e].hash, false)],
                        origins := world.origins + [world.pc.origin], trustedHead := sha,
                        state := if world.work == {} then C.Ready else C.Dirty, pc := C.ToVerify(|world.rows|));
      }
      Took(before, C.CommitSave);
    }

    /** The record, its evidence and the live workspace must agree before the milestone moves. */
    method VerifyCommit(c: nat) returns (ok: bool)
      requires Valid() && world.pc == C.ToVerify(c)
      modifies this`world, this`run, this`history
      ensures history == old(history) + [C.CommitVerify]
      ensures Valid() && world.pc == (if ok then C.Verified(c) else C.Idle)
      ensures world == C.VerifyCommit(old(world), c)
    {
      ghost var before := world;
      OneStep(world, C.CommitVerify);
      ok := false;
      if c >= |world.rows| {
        world := world.(pc := C.Idle);
      } else {
        var trusted := HeadIsTrusted();
        if trusted {
          ok := C.CommitHolds(world, c) && world.head == world.rows[c].sha;
          world := world.(pc := if ok then C.Verified(c) else C.Idle);
        }
      }
      Took(before, C.CommitVerify);
    }

    method ApplyTransition(expected: M.State, target: M.State) returns (ok: bool)
      modifies this`world
      ensures C.Transition(old(world), expected, target) == if ok then Some(world) else None
      ensures !ok ==> world == old(world)
    {
      var outcome := M.Apply(world.milestone, expected, target);
      ok := outcome.Success?;
      if ok { world := world.(milestone := outcome.value); }
    }

    /** A milestone still COMMITTING moves on; one that is PUSHING already did. */
    method Advance(c: nat) returns (moved: bool)
      requires Valid() && world.pc == C.Verified(c)
      modifies this`world, this`run, this`history
      ensures history == old(history) + [C.CommitFinish]
      ensures Valid() && world.pc.Idle? && world.rows == old(world).rows && world.changeSets == old(world).changeSets
      ensures world.objects == old(world).objects
      ensures moved ==> world.milestone.state == M.Pushing
      ensures world == C.FinishCommit(old(world))
      ensures moved <==> old(world).milestone.state == M.Committing
    {
      ghost var before := world;
      OneStep(world, C.CommitFinish);
      moved := ApplyTransition(M.Committing, M.Pushing);
      world := world.(pc := C.Idle);
      Took(before, C.CommitFinish);
    }

    method BeginCommit() returns (pc: C.Pc)
      requires Valid() && world.pc.Idle?
      modifies this`world, this`run, this`history
      ensures history == old(history) + [C.CommitBegin]
      ensures Valid() && pc == world.pc && (pc.Idle? || pc.ToCommit? || pc.ToVerify?)
      ensures world == C.BeginCommit(old(world))
    {
      ghost var before := world;
      OneStep(world, C.CommitBegin);
      world := C.BeginCommit(world);
      Took(before, C.CommitBegin);
      pc := world.pc;
    }

    /** Some record is linked to its evidence, and in custody exactly if it was truly recorded. */
    ghost predicate HasCustody()
      reads this
    {
      exists c: nat :: InChain(c)
    }

    ghost predicate InChain(c: nat)
      reads this
    {
      C.Linked(world, c) && (C.InCustody(world, c) <==> H.TrulyRecorded(run, history, |history|, c))
    }

    /** In a run that began clean, a linked record is in the chain. */
    lemma LinkedIsInChain(c: nat)
      requires Valid() && C.Initial(start) && C.Linked(world, c)
      ensures InChain(c)
    {
      H.RecordIsTrueIff(run, history, |history|, c);
    }

    /** Create, or safely replay, one validation-bound trusted commit. */
    method ExecuteCommit() returns (outcome: Outcome)
      requires Valid() && world.pc.Idle?
      modifies this
      ensures Valid() && world.pc.Idle?
      ensures outcome.Succeeded? && C.Initial(start) ==> HasCustody()
      ensures old(schedule) == [] ==> schedule == [] && (outcome, world) == Committed(old(world))
    {
      Interfere();
      var committing := world.milestone.state == M.Committing;
      var pc := BeginCommit();
      if pc.Idle? { return Failed; }
      Interfere();
      if pc.ToCommit? {
        var c := CommitAccepted(pc.e);
        if c.None? { return Failed; }
        pc := C.ToVerify(c.value);
      }
      outcome := CheckRecord(pc.c, committing);
    }

    /** A verified record lets a milestone that is still COMMITTING move on. */
    method CheckRecord(c: nat, committing: bool) returns (outcome: Outcome)
      requires Valid() && world.pc == C.ToVerify(c)
      modifies this
      ensures Valid() && world.pc.Idle?
      ensures outcome.Succeeded? && C.Initial(start) ==> HasCustody()
      ensures old(schedule) == [] ==> schedule == [] && (outcome, world) == Checked(old(world), c, committing)
    {
      var verified := VerifyCommit(c);
      if !verified { return Failed; }
      Interfere();
      var moved := FinishVerified(c);
      outcome := if moved || !committing then Succeeded else Failed;
    }

    /** What was verified lets a milestone that is still COMMITTING move on. */
    method FinishVerified(c: nat) returns (moved: bool)
      requires Valid() && world.pc == C.Verified(c)
      modifies this`world, this`run, this`history
      ensures Valid() && world.pc.Idle? && world == C.FinishCommit(old(world))
      ensures moved <==> old(world).milestone.state == M.Committing
      ensures C.Initial(start) ==> HasCustody()
    {
      if C.Initial(start) {
        C.Reachable(run, history, |history|);
        assert C.Linked(world, c);
      }
      moved := Advance(c);
      if C.Initial(start) { LinkedIsInChain(c); }
    }

    /** Stage exactly the accepted files and check the index. */
    method StageAccepted(e: nat) returns (staged: Option<nat>)
      requires Valid() && world.pc == C.ToCommit(e)
      modifies this
      ensures Valid() && world.pc == (if staged.Some? then C.Staged(staged.value) else C.Idle)
      ensures old(schedule) == [] ==> schedule == [] && world == StagedUp(old(world), e)
    {
      staged := Select(e);
      if staged.None? { return; }
      Interfere();
      var added := AddPaths(staged.value);
      if !added { return None; }
      Interfere();
      var exact := CheckIndex(staged.value);
      if !exact { staged := None; }
    }

    /** The commit itself: HEAD may move between any two of its processes. */
    method CommitStaged(e: nat) returns (c: Option<nat>)
      requires Valid() && world.pc == C.Staged(e)
      modifies this
      ensures Valid() && world.pc == (if c.Some? then C.ToVerify(c.value) else C.Idle)
      ensures old(schedule) == [] ==> schedule == [] && world == Taken(old(world), e)
    {
      var parent := ReadParent(e);
      Interfere();
      CommitIndex(e, parent);
      Interfere();
      var sha := ReadCommit(e, parent);
      Interfere();
      c := SaveCommit(e, parent, sha);
    }

    /** Stage, commit and record the accepted diff. */
    method CommitAccepted(e: nat) returns (c: Option<nat>)
      requires Valid() && world.pc == C.ToCommit(e)
      modifies this
      ensures Valid() && world.pc == (if c.Some? then C.ToVerify(c.value) else C.Idle)
      ensures old(schedule) == [] ==> schedule == [] && world == Recorded(old(world), e)
    {
      var staged := StageAccepted(e);
      if staged.None? { return None; }
      Interfere();
      c := CommitStaged(staged.value);
      Interfere();
    }

    // ---------------------------------------------------------------- push

    method BeginPush() returns (c: Option<nat>, pushing: bool)
      requires Valid() && world.pc.Idle?
      modifies this`world, this`run, this`history
      ensures history == old(history) + [C.PushBegin]
      ensures Valid() && world.pc == (if c.Some? then C.Chained(c.value, pushing) else C.Idle)
      ensures pushing <==> old(world).milestone.state == M.Pushing
      ensures world == C.BeginPush(old(world))
    {
      ghost var before := world;
      OneStep(world, C.PushBegin);
      c, pushing := None, world.milestone.state == M.Pushing;
      if world.milestone.state in {M.Pushing, M.PrCreating} {
        var row := C.RowAtHead(world);
        if row.Some? && C.ChainHolds(world, row.value) {
          c := row;
          world := world.(pc := C.Chained(row.value, pushing));
        }
      }
      Took(before, C.PushBegin);
    }

    /** `None` when the live identity is wrong; otherwise whether a push is still due. */
    method Inspect(c: nat, pushing: bool) returns (due: Option<bool>)
      requires Valid() && world.pc == C.Chained(c, pushing)
      modifies this`world, this`run, this`history
      ensures history == old(history) + [C.PushInspect]
      ensures Valid()
      ensures world.pc == (if due.None? then C.Idle else if due.value then C.Inspected(c) else C.Marked(c))
      ensures world == C.Inspect(old(world), c, pushing)
      ensures due == Some(true) ==> pushing
    {
      ghost var before := world;
      OneStep(world, C.PushInspect);
      due := None;
      if c >= |world.rows| {
        world := world.(pc := C.Idle);
      } else {
        var trusted := HeadIsTrusted();
        if trusted && world.head != world.rows[c].sha {
          world := world.(pc := C.Idle);
        } else if trusted {
          due := Some(pushing && !world.rows[c].pushed);
          world := world.(pc := if due.value then C.Inspected(c) else C.Marked(c));
        }
      }
      Took(before, C.PushInspect);
    }

    /** A first look at the remote: `None` when the commit is there already. */
    method LookRemote(c: nat) returns (before: Option<Option<C.Sha>>)
      requires Valid() && world.pc == C.Inspected(c) && c < |world.rows|
      modifies this`world, this`run, this`history
      ensures history == old(history) + [C.PushLook] && world == C.LookRemote(old(world), c)
      ensures Valid() && world.pc == (if before.None? then C.Confirmed(c) else C.Looked(c, before.value))
    {
      ghost var was := world;
      OneStep(world, C.PushLook);
      if world.remote == Some(world.rows[c].sha) {
        before, world := None, world.(seen := world.seen + {world.rows[c].sha}, pc := C.Confirmed(c));
      } else {
        before, world := Some(world.remote), world.(pc := C.Looked(c, world.remote));
      }
      Took(was, C.PushLook);
    }

    /** Push the branch; the transport may break, whether the push was applied or not. */
    method PushBranch(c: nat, before: Option<C.Sha>, applied: bool, ambiguous: bool)
      requires Valid() && world.pc == C.Looked(c, before)
      modifies this`world, this`run, this`history
      ensures history == old(history) + [C.PushSend(applied, ambiguous)]
      ensures Valid() && world == C.PushBranch(old(world), c, before, applied, ambiguous)
    {
      ghost var was := world;
      OneStep(world, C.PushSend(applied, ambiguous));
      world := world.(remote := if applied then Some(world.head) else world.remote,
                      inFlight := world.inFlight + {world.head}, pc := C.Pushed(c, before, ambiguous));
      Took(was, C.PushSend(applied, ambiguous));
    }

    /** What the remote shows decides, whatever the transport said. */
    method RereadRemote(c: nat, before: Option<C.Sha>, ambiguous: bool) returns (outcome: Outcome)
      requires Valid() && world.pc == C.Pushed(c, before, ambiguous)
      modifies this`world, this`run, this`history
      ensures history == old(history) + [C.PushReread] && world == C.RereadRemote(old(world), c)
      ensures Valid() && world.pc == (if outcome.Succeeded? then C.Confirmed(c) else C.Idle)
      ensures !outcome.Succeeded? ==> outcome == Unseen(old(world), before, ambiguous)
    {
      ghost var was := world;
      OneStep(world, C.PushReread);
      if c < |world.rows| && world.remote == Some(world.rows[c].sha) {
        outcome, world := Succeeded, world.(seen := world.seen + {world.rows[c].sha}, pc := C.Confirmed(c));
      } else {
        outcome := if ambiguous && world.remote == before then Transient else Failed;
        world := world.(pc := C.Idle);
      }
      Took(was, C.PushReread);
    }

    method MarkPushed(c: nat) returns (marked: bool)
      requires Valid() && world.pc == C.Confirmed(c)
      modifies this`world, this`run, this`history
      ensures history == old(history) + [C.PushMark] && world == C.MarkPushed(old(world), c)
      ensures Valid() && world.pc == (if marked then C.Marked(c) else C.Idle)
    {
      ghost var before := world;
      OneStep(world, C.PushMark);
      marked := c < |world.rows|;
      if marked {
        world := world.(rows := world.rows[c := world.rows[c].(pushed := true)], pc := C.Marked(c));
      } else {
        world := world.(pc := C.Idle);
      }
      Took(before, C.PushMark);
    }

    method ObserveRemote(c: nat) returns (there: bool)
      requires Valid() && world.pc == C.Marked(c)
      modifies this`world, this`run, this`history
      ensures history == old(history) + [C.PushObserve]
      ensures Valid() && world.pc == (if there then C.Observed(c) else C.Idle)
      ensures world == C.ObserveRemote(old(world), c)
    {
      ghost var before := world;
      OneStep(world, C.PushObserve);
      there := c < |world.rows| && world.rows[c].pushed && world.remote == Some(world.rows[c].sha);
      if there {
        world := world.(seen := world.seen + {world.rows[c].sha}, pc := C.Observed(c));
      } else {
        world := world.(pc := C.Idle);
      }
      Took(before, C.PushObserve);
    }

    method EnterPrCreating(c: nat) returns (moved: bool)
      requires Valid() && world.pc == C.Observed(c)
      modifies this`world, this`run, this`history
      ensures history == old(history) + [C.PushFinish]
      ensures Valid() && world.pc.Idle? && world.rows == old(world).rows && world.changeSets == old(world).changeSets
      ensures world.objects == old(world).objects && world.seen == old(world).seen
      ensures moved ==> world.milestone.state == M.PrCreating && world.entered == old(world).entered + [c]
      ensures world == C.FinishPush(old(world), c)
      ensures moved <==> old(world).milestone.state == M.Pushing
    {
      ghost var before := world;
      OneStep(world, C.PushFinish);
      moved := ApplyTransition(M.Pushing, M.PrCreating);
      if moved { world := world.(entered := world.entered + [c]); }
      world := world.(pc := C.Idle);
      Took(before, C.PushFinish);
    }

    /** Some record in the chain was seen at the remote. */
    ghost predicate HasRemoteCustody()
      reads this
    {
      exists c: nat :: InChain(c) && world.rows[c].sha in world.seen
    }

    /** Push, and independently verify, the trusted commit at the current head. */
    method ExecutePush(applied: bool, ambiguous: bool) returns (outcome: Outcome)
      requires Valid() && world.pc.Idle?
      modifies this
      ensures Valid() && world.pc.Idle?
      ensures outcome.Succeeded? && C.Initial(start) ==> HasRemoteCustody()
      ensures old(schedule) == [] ==> schedule == [] && (outcome, world) == Pushed(old(world), applied, ambiguous)
    {
      Interfere();
      var c, pushing := BeginPush();
      if c.None? { return Failed; }
      Interfere();
      var due := Inspect(c.value, pushing);
      if due.None? { return Failed; }
      if !due.value {
        outcome := ConfirmRemote(c.value, pushing);
      } else {
        Interfere();
        outcome := Push(c.value, applied, ambiguous);
      }
    }

    /** Push unless the commit is there already, and go by what the remote shows. */
    method Push(c: nat, applied: bool, ambiguous: bool) returns (outcome: Outcome)
      requires Valid() && world.pc == C.Inspected(c)
      modifies this
      ensures Valid() && world.pc.Idle?
      ensures outcome.Succeeded? && C.Initial(start) ==> HasRemoteCustody()
      ensures old(schedule) == [] ==> schedule == [] && (outcome, world) == Sent(old(world), c, applied, ambiguous)
    {
      if c >= |world.rows| {
        GoHome(c);
        return Failed;
      }
      var before := LookRemote(c);
      Interfere();
      if before.Some? {
        outcome := SendAndReread(c, before.value, applied, ambiguous);
      } else {
        outcome := MarkAndConfirm(c);
      }
    }

    /** Push, and go by what the remote shows then. */
    method SendAndReread(c: nat, before: Option<C.Sha>, applied: bool, ambiguous: bool) returns (outcome: Outcome)
      requires Valid() && world.pc == C.Looked(c, before)
      modifies this
      ensures Valid() && world.pc.Idle?
      ensures outcome.Succeeded? && C.Initial(start) ==> HasRemoteCustody()
      ensures old(schedule) == [] ==>
        schedule == [] && (outcome, world) == Dispatched(old(world), c, before, applied, ambiguous)
    {
      PushBranch(c, before, applied, ambiguous);
      Interfere();
      outcome := RereadRemote(c, before, ambiguous);
      if !outcome.Succeeded? { return; }
      Interfere();
      outcome := MarkAndConfirm(c);
    }

    /** There is no such record. */
    method GoHome(c: nat)
      requires Valid() && world.pc == C.Inspected(c) && c >= |world.rows|
      modifies this`world, this`run, this`history
      ensures Valid() && world == C.LookRemote(old(world), c)
    {
      ghost var before := world;
      OneStep(world, C.PushLook);
      world := world.(pc := C.Idle);
      Took(before, C.PushLook);
    }

    method MarkAndConfirm(c: nat) returns (outcome: Outcome)
      requires Valid() && world.pc == C.Confirmed(c)
      modifies this
      ensures Valid() && world.pc.Idle?
      ensures outcome.Succeeded? && C.Initial(start) ==> HasRemoteCustody()
      ensures old(schedule) == [] ==> schedule == [] && (outcome, world) == MarkedOff(old(world), c)
    {
      var marked := MarkPushed(c);
      if !marked { return Failed; }
      outcome := ConfirmRemote(c, true);
    }

    /** Observe the remote once more, and only then move the milestone. */
    method ConfirmRemote(c: nat, pushing: bool) returns (outcome: Outcome)
      requires Valid() && world.pc == C.Marked(c)
      modifies this
      ensures Valid() && world.pc.Idle?
      ensures outcome.Succeeded? && C.Initial(start) ==> HasRemoteCustody()
      ensures old(schedule) == [] ==> schedule == [] && (outcome, world) == Confirmed(old(world), c, pushing)
    {
      Interfere();
      var there := ObserveRemote(c);
      if !there { return Failed; }
      Interfere();
      var moved := FinishObserved(c);
      outcome := if moved || !pushing then Succeeded else Failed;
    }

    /** What was observed lets a milestone that is still PUSHING move on. */
    method FinishObserved(c: nat) returns (moved: bool)
      requires Valid() && world.pc == C.Observed(c)
      modifies this`world, this`run, this`history
      ensures Valid() && world.pc.Idle? && world == C.FinishPush(old(world), c)
      ensures moved <==> old(world).milestone.state == M.Pushing
      ensures C.Initial(start) ==> HasRemoteCustody()
    {
      if C.Initial(start) {
        C.Reachable(run, history, |history|);
        assert C.Linked(world, c) && world.rows[c].sha in world.seen;
      }
      moved := EnterPrCreating(c);
      if C.Initial(start) {
        LinkedIsInChain(c);
        assert InChain(c) && world.rows[c].sha in world.seen;
      }
    }
  }

  /** Whatever came between its steps, a service whose run began clean visits PR_CREATING once for
      each entry, always for a linked record that was seen at the remote, and one that is in
      custody exactly if it was truly recorded. */
  lemma ServiceKeepsCustody(service: WorkspaceService)
    requires service.Valid() && C.Initial(service.start)
    ensures |service.world.entered| == H.Visits(service.run, |service.history|)
    ensures M.Effective(service.world.milestone) == M.PrCreating ==> service.world.entered != []
    ensures forall c :: c in service.world.entered ==> service.InChain(c) && service.world.rows[c].sha in service.world.seen
  {
    H.ChainOfCustody(service.run, service.history, |service.history|);
  }
}
