/** From an accepted diff to the remote branch: the commit and push executors as steps over the
    rows, the local repository and the remote, with crashes and other hands in between. */
module Custody {
  import opened Wrappers
  import M = MilestoneMachine

  /** Commits are numbered as they come into being. */
  type Sha = nat

  /** One changed file against the trusted head; its content hash stands for its content. */
  datatype FileEntry = FileEntry(path: string, content: nat)

  /** The canonical hash of a diff: injective. */
  datatype DiffHash = DiffHash(files: set<FileEntry>)

  /** A Git commit: its parent, and what it changes against the trusted head it was staged for. */
  datatype GitCommit = GitCommit(parent: Option<Sha>, entries: set<FileEntry>)

  /** A validation result for the workspace. */
  datatype ChangeSet = ChangeSet(trustedHead: Sha, hash: DiffHash, files: set<FileEntry>, accepted: bool)

  /** The durable record of a trusted commit. */
  datatype CommitRow = CommitRow(sha: Sha, parent: Option<Sha>, changeSet: nat, hash: DiffHash, pushed: bool)

  datatype WorkspaceState = Ready | Dirty | Errored

  /** Where a record's commit really came from: the head it was made on, and its own name.  The
      executors never look at this; it is what the theorems compare a record with. */
  datatype Origin = Origin(on: Sha, made: Sha)

  /** Where the worker stands; `e` is the accepted change set.  Between staging and saving it runs
      three Git processes: it reads HEAD as the parent, commits, and reads HEAD again as the
      commit.  `origin` is what the commit really was. */
  datatype Pc =
    | Idle
    | ToCommit(e: nat)
    | Selected(e: nat)
    | InIndex(e: nat)
    | Staged(e: nat)
    | ParentRead(e: nat, parent: Sha)
    | Made(e: nat, parent: Sha, origin: Origin)
    | ReadBack(e: nat, parent: Sha, origin: Origin, sha: Sha)
    | ToVerify(c: nat)
    | Verified(c: nat)
    | Chained(c: nat, pushing: bool)
    | Inspected(c: nat)
    | Looked(c: nat, before: Option<Sha>)
    | Pushed(c: nat, before: Option<Sha>, ambiguous: bool)
    | Confirmed(c: nat)
    | Marked(c: nat)
    | Observed(c: nat)

  datatype World = World(
    milestone: M.Row,
    changeSets: seq<ChangeSet>, rows: seq<CommitRow>, origins: seq<Origin>, trustedHead: Sha, state: WorkspaceState,
    objects: seq<GitCommit>, head: Sha, index: set<FileEntry>, work: set<FileEntry>,
    remote: Option<Sha>, inFlight: set<Sha>,
    pc: Pc,
    seen: set<Sha>, entered: seq<nat>)

  // ------------------------------------------------------------------ reading the rows

  /** The newest accepted change set for the trusted head. */
  function NewestAccepted(sets: seq<ChangeSet>, head: Sha): (r: Option<nat>)
    ensures r.Some? ==> r.value < |sets| && sets[r.value].accepted && sets[r.value].trustedHead == head
  {
    if sets == [] then None
    else
      var last := sets[|sets| - 1];
      if last.accepted && last.trustedHead == head then Some(|sets| - 1)
      else NewestAccepted(sets[..|sets| - 1], head)
  }

  /** The newest accepted change set for the head with exactly this diff. */
  function AcceptedFor(sets: seq<ChangeSet>, head: Sha, hash: DiffHash): (r: Option<nat>)
    ensures r.Some? ==> r.value < |sets| && sets[r.value].accepted && sets[r.value].trustedHead == head
    ensures r.Some? ==> sets[r.value].hash == hash
  {
    if sets == [] then None
    else
      var last := sets[|sets| - 1];
      if last.accepted && last.trustedHead == head && last.hash == hash then Some(|sets| - 1)
      else AcceptedFor(sets[..|sets| - 1], head, hash)
  }

  function RowForChangeSet(rows: seq<CommitRow>, e: nat): (r: Option<nat>)
    ensures r.Some? ==> r.value < |rows| && rows[r.value].changeSet == e
  {
    if rows == [] then None
    else if rows[|rows| - 1].changeSet == e then Some(|rows| - 1)
    else RowForChangeSet(rows[..|rows| - 1], e)
  }

  function RowWithSha(rows: seq<CommitRow>, sha: Sha): (r: Option<nat>)
    ensures r.Some? ==> r.value < |rows| && rows[r.value].sha == sha
  {
    if rows == [] then None
    else if rows[|rows| - 1].sha == sha then Some(|rows| - 1)
    else RowWithSha(rows[..|rows| - 1], sha)
  }

  /** The record of the commit at the durable head, by way of its change set. */
  function RowAtHead(w: World): Option<nat> {
    match RowWithSha(w.rows, w.trustedHead)
    case None => None
    case Some(c) => RowForChangeSet(w.rows, w.rows[c].changeSet)
  }

  function Paths(files: set<FileEntry>): set<string> { set f | f in files :: f.path }

  /** `git add` of these paths: the index takes the work tree's version of each. */
  function Added(w: World, paths: set<string>): set<FileEntry> {
    (set f | f in w.index && f.path !in paths) + (set f | f in w.work && f.path in paths)
  }

  // ------------------------------------------------------------------ the commit executor

  function Goto(w: World, pc: Pc): World { w.(pc := pc) }

  function Transition(w: World, expected: M.State, target: M.State): Option<World> {
    match M.Apply(w.milestone, expected, target)
    case Failure(_) => None
    case Success(row) => Some(w.(milestone := row))
  }

  /** The live head is the durable one; otherwise the workspace is marked and work stops. */
  predicate HeadMatches(w: World) { w.head == w.trustedHead }

  function Mismatch(w: World): World { Goto(w.(state := Errored), Idle) }

  /** What the replay of a commit after a crash may rely on. */
  predicate EvidenceFits(w: World, e: nat, head: Sha) {
    && e < |w.changeSets| && w.changeSets[e].accepted && w.changeSets[e].trustedHead == head
    && w.changeSets[e].files != {}
  }

  function BeginCommit(w: World): World {
    if w.milestone.state !in {M.Committing, M.Pushing} then w
    else
      match NewestAccepted(w.changeSets, w.trustedHead)
      case Some(e) =>
        var row := RowForChangeSet(w.rows, e);
        if !EvidenceFits(w, e, w.trustedHead) then w
        else if row.Some? then Goto(w, ToVerify(row.value))
        else if w.milestone.state == M.Committing then Goto(w, ToCommit(e))
        else w
      case None =>
        match RowAtHead(w)
        case None => w
        case Some(c) =>
          if w.rows[c].parent.Some? && EvidenceFits(w, w.rows[c].changeSet, w.rows[c].parent.value)
          then Goto(w, ToVerify(c)) else w
  }

  /** Prove the diff is the accepted one, and find the evidence for it. */
  function Select(w: World, e: nat): World {
    if !HeadMatches(w) then Mismatch(w)
    else if e >= |w.changeSets| || DiffHash(w.work) != w.changeSets[e].hash then Goto(w, Idle)
    else
      match AcceptedFor(w.changeSets, w.trustedHead, w.changeSets[e].hash)
      case None => Goto(w, Idle)
      case Some(newest) =>
        if Paths(w.changeSets[e].files) != Paths(w.changeSets[newest].files) then Goto(w, Idle)
        else Goto(w, Selected(newest))
  }

  /** `git add` of exactly the accepted paths, in whatever state the work tree is by now. */
  function AddPaths(w: World, e: nat): World {
    if e >= |w.changeSets| then Goto(w, Idle)
    else Goto(w.(index := Added(w, Paths(w.changeSets[e].files))), InIndex(e))
  }

  /** The index is what was accepted, entry by entry, or nothing is committed. */
  function CheckIndex(w: World, e: nat): World {
    Goto(w, if e < |w.changeSets| && w.index == w.changeSets[e].files then Staged(e) else Idle)
  }

  /** The first look at HEAD, taken for the parent of the commit to come. */
  function ReadParent(w: World, e: nat): World { Goto(w, ParentRead(e, w.head)) }

  /** `git commit` of the index on whatever the head is now. */
  function MakeCommit(w: World, e: nat, parent: Sha): World {
    var sha := |w.objects|;
    Goto(w.(objects := w.objects + [GitCommit(Some(w.head), w.index)], head := sha,
            work := w.work - w.index, index := {}), Made(e, parent, Origin(w.head, sha)))
  }

  /** The second look at HEAD, taken for the commit just made. */
  function ReadCommit(w: World, e: nat, parent: Sha, origin: Origin): World {
    Goto(w, ReadBack(e, parent, origin, w.head))
  }

  /** Record the commit and advance the durable head together. */
  function SaveCommit(w: World, e: nat, parent: Sha, origin: Origin, sha: Sha): World {
    if e >= |w.changeSets| then Goto(w, Idle)
    else
      Goto(w.(rows := w.rows + [CommitRow(sha, Some(parent), e, w.changeSets[e].hash, false)],
              origins := w.origins + [origin], trustedHead := sha,
              state := if w.work == {} then Ready else Dirty), ToVerify(|w.rows|))
  }

  /** The recorded commit, its evidence and the live workspace agree. */
  predicate CommitHolds(w: World, c: nat) {
    && c < |w.rows| && w.rows[c].parent.Some?
    && EvidenceFits(w, w.rows[c].changeSet, w.rows[c].parent.value)
    && w.rows[c].hash == w.changeSets[w.rows[c].changeSet].hash && !w.rows[c].pushed
    && w.trustedHead == w.rows[c].sha
  }

  function VerifyCommit(w: World, c: nat): World {
    if c >= |w.rows| then Goto(w, Idle)
    else if !HeadMatches(w) then Mismatch(w)
    else if CommitHolds(w, c) && w.head == w.rows[c].sha then Goto(w, Verified(c)) else Goto(w, Idle)
  }

  function FinishCommit(w: World): World {
    Goto(Transition(w, M.Committing, M.Pushing).GetOr(w), Idle)
  }

  // ------------------------------------------------------------------ the push executor

  /** The record at the durable head is linked to its accepted change set. */
  predicate ChainHolds(w: World, c: nat) {
    && c < |w.rows| && w.rows[c].sha == w.trustedHead && w.rows[c].parent.Some?
    && w.rows[c].changeSet < |w.changeSets| && w.changeSets[w.rows[c].changeSet].accepted
    && w.changeSets[w.rows[c].changeSet].trustedHead == w.rows[c].parent.value
    && w.changeSets[w.rows[c].changeSet].hash == w.rows[c].hash
  }

  function BeginPush(w: World): World {
    if w.milestone.state !in {M.Pushing, M.PrCreating} then w
    else
      match RowAtHead(w)
      case None => w
      case Some(c) => if ChainHolds(w, c) then Goto(w, Chained(c, w.milestone.state == M.Pushing)) else w
  }

  /** The live head must be the record's; a milestone that was PUSHING when the worker looked, and
      whose record is not marked, is pushed. */
  function Inspect(w: World, c: nat, pushing: bool): World {
    if c >= |w.rows| then Goto(w, Idle)
    else if !HeadMatches(w) then Mismatch(w)
    else if w.head != w.rows[c].sha then Goto(w, Idle)
    else if pushing && !w.rows[c].pushed then Goto(w, Inspected(c))
    else Goto(w, Marked(c))
  }

  /** A first look at the remote; there is nothing to push when the commit is there already. */
  function LookRemote(w: World, c: nat): World {
    if c >= |w.rows| then Goto(w, Idle)
    else if w.remote == Some(w.rows[c].sha) then Goto(w.(seen := w.seen + {w.rows[c].sha}), Confirmed(c))
    else Goto(w, Looked(c, w.remote))
  }

  /** `git push` of the branch.  It may be applied at once, later or never, and the transport may
      break, which leaves its outcome ambiguous. */
  function PushBranch(w: World, c: nat, before: Option<Sha>, applied: bool, ambiguous: bool): World {
    Goto(w.(remote := if applied then Some(w.head) else w.remote, inFlight := w.inFlight + {w.head}),
         Pushed(c, before, ambiguous))
  }

  /** Only the remote itself decides what a push came to. */
  function RereadRemote(w: World, c: nat): World {
    if c >= |w.rows| || w.remote != Some(w.rows[c].sha) then Goto(w, Idle)
    else Goto(w.(seen := w.seen + {w.rows[c].sha}), Confirmed(c))
  }

  function MarkPushed(w: World, c: nat): World {
    if c >= |w.rows| then Goto(w, Idle)
    else Goto(w.(rows := w.rows[c := w.rows[c].(pushed := true)]), Marked(c))
  }

  /** Read the record and the remote once more. */
  function ObserveRemote(w: World, c: nat): World {
    if c >= |w.rows| || !w.rows[c].pushed || w.remote != Some(w.rows[c].sha) then Goto(w, Idle)
    else Goto(w.(seen := w.seen + {w.rows[c].sha}), Observed(c))
  }

  /** `entered` remembers for which record PR_CREATING was entered. */
  function FinishPush(w: World, c: nat): World {
    match Transition(w, M.Pushing, M.PrCreating)
    case None => Goto(w, Idle)
    case Some(moved) => Goto(moved.(entered := w.entered + [c]), Idle)
  }

  // ------------------------------------------------------------------ all steps

  datatype Action =
    | CommitBegin | CommitSelect | CommitAdd | CommitCheck | CommitParent | CommitMake | CommitRead
    | CommitSave | CommitVerify | CommitFinish
    | PushBegin | PushInspect | PushLook | PushSend(applied: bool, ambiguous: bool) | PushReread
    | PushMark | PushObserve | PushFinish
    | Crash
    | WriteWork(files: set<FileEntry>)
    | MoveHead(sha: Sha)
    | Validate(files: set<FileEntry>, accepted: bool)
    | RemoteMoves(sha: Sha)
    | PushLands(sha: Sha)
    | MoveMilestone(target: M.State)

  predicate ExecutorsOwn(from: M.State, target: M.State) {
    (from, target) in {(M.Committing, M.Pushing), (M.Pushing, M.PrCreating)}
  }

  /** The executors' steps, a crash between any two of them, an untrusted work tree, a head and a
      remote that others may move, validations, and every other milestone transition. */
  function Step(w: World, act: Action): World {
    match act
    case CommitBegin => if w.pc.Idle? then BeginCommit(w) else w
    case CommitSelect => if w.pc.ToCommit? then Select(w, w.pc.e) else w
    case CommitAdd => if w.pc.Selected? then AddPaths(w, w.pc.e) else w
    case CommitCheck => if w.pc.InIndex? then CheckIndex(w, w.pc.e) else w
    case CommitParent => if w.pc.Staged? then ReadParent(w, w.pc.e) else w
    case CommitMake => if w.pc.ParentRead? then MakeCommit(w, w.pc.e, w.pc.parent) else w
    case CommitRead => if w.pc.Made? then ReadCommit(w, w.pc.e, w.pc.parent, w.pc.origin) else w
    case CommitSave =>
      if w.pc.ReadBack? then SaveCommit(w, w.pc.e, w.pc.parent, w.pc.origin, w.pc.sha) else w
    case CommitVerify => if w.pc.ToVerify? then VerifyCommit(w, w.pc.c) else w
    case CommitFinish => if w.pc.Verified? then FinishCommit(w) else w
    case PushBegin => if w.pc.Idle? then BeginPush(w) else w
    case PushInspect => if w.pc.Chained? then Inspect(w, w.pc.c, w.pc.pushing) else w
    case PushLook => if w.pc.Inspected? then LookRemote(w, w.pc.c) else w
    case PushSend(applied, ambiguous) =>
      if w.pc.Looked? then PushBranch(w, w.pc.c, w.pc.before, applied, ambiguous) else w
    case PushReread => if w.pc.Pushed? then RereadRemote(w, w.pc.c) else w
    case PushMark => if w.pc.Confirmed? then MarkPushed(w, w.pc.c) else w
    case PushObserve => if w.pc.Marked? then ObserveRemote(w, w.pc.c) else w
    case PushFinish => if w.pc.Observed? then FinishPush(w, w.pc.c) else w
    case Crash => Goto(w, Idle)
    case WriteWork(files) => w.(work := files)
    case MoveHead(sha) => if sha < |w.objects| then w.(head := sha) else w
    case Validate(files, accepted) =>
      w.(changeSets := w.changeSets + [ChangeSet(w.trustedHead, DiffHash(files), files, accepted && files != {})])
    case RemoteMoves(sha) => w.(remote := Some(sha))
    case PushLands(sha) => if sha in w.inFlight then w.(remote := Some(sha), inFlight := w.inFlight - {sha}) else w
    case MoveMilestone(target) =>
      if ExecutorsOwn(w.milestone.state, target) then w
      else Transition(w, w.milestone.state, target).GetOr(w)
  }

  ghost predicate IsRun(run: seq<World>, acts: seq<Action>) {
    && |run| == |acts| + 1
    && forall i {:trigger Step(run[i], acts[i])} :: 0 <= i < |acts| ==> run[i + 1] == Step(run[i], acts[i])
  }

  /** Nothing is recorded yet. */
  ghost predicate Initial(w: World) {
    && w.changeSets == [] && w.rows == [] && w.origins == [] && w.pc == Idle && w.seen == {} && w.entered == []
    && w.head < |w.objects| && w.trustedHead < |w.objects|
    && M.WellFormed(w.milestone) && M.Effective(w.milestone) != M.PrCreating
  }

  // ------------------------------------------------------------------ the chain

  /** What a record should vouch for: the commit exists, its parent is the recorded one, its
      change set was accepted with the recorded hash, and what was committed is exactly what was
      accepted, file by file. */
  ghost predicate RowOk(w: World, c: nat) {
    && c < |w.rows| && w.rows[c].sha < |w.objects|
    && w.objects[w.rows[c].sha].parent == w.rows[c].parent
    && w.rows[c].changeSet < |w.changeSets|
    && w.changeSets[w.rows[c].changeSet].accepted
    && w.changeSets[w.rows[c].changeSet].hash == w.rows[c].hash
    && w.objects[w.rows[c].sha].entries == w.changeSets[w.rows[c].changeSet].files
  }

  /** The whole chain of custody of one record: in addition its parent is the trusted head its
      change set was accepted for. */
  ghost predicate InCustody(w: World, c: nat) {
    && RowOk(w, c)
    && w.rows[c].parent == Some(w.changeSets[w.rows[c].changeSet].trustedHead)
  }

  /** What every record does vouch for: its evidence, and that the executor made a commit of
      exactly the accepted files for it. */
  ghost predicate Traced(w: World, c: nat) {
    && c < |w.rows| == |w.origins| && w.rows[c].sha < |w.objects| && w.rows[c].parent.Some?
    && w.rows[c].changeSet < |w.changeSets|
    && w.changeSets[w.rows[c].changeSet].accepted
    && w.changeSets[w.rows[c].changeSet].hash == w.rows[c].hash
    && w.origins[c].made < |w.objects|
    && w.objects[w.origins[c].made] == GitCommit(Some(w.origins[c].on), w.changeSets[w.rows[c].changeSet].files)
  }

  /** The record names the commit that was made, and the head it was made on. */
  ghost predicate NamesOrigin(w: World, c: nat) {
    c < |w.rows| == |w.origins| && w.rows[c].sha == w.origins[c].made && w.rows[c].parent == Some(w.origins[c].on)
  }

  /** The record names some other commit, with the same entries, on the recorded parent. */
  ghost predicate NamesTwin(w: World, c: nat) {
    && c < |w.rows| == |w.origins| && w.rows[c].sha < |w.objects| && w.origins[c].made < |w.objects|
    && w.rows[c].sha != w.origins[c].made
    && w.objects[w.rows[c].sha] == GitCommit(w.rows[c].parent, w.objects[w.origins[c].made].entries)
  }

  /** So a record is true exactly when it names the commit that was made or a twin of it. */
  lemma TrueRecordIff(w: World, c: nat)
    requires Traced(w, c)
    ensures RowOk(w, c) <==> NamesOrigin(w, c) || NamesTwin(w, c)
  {
  }

  /** The executors check this much of the chain before they go on. */
  ghost predicate Linked(w: World, c: nat) {
    Traced(w, c) && w.rows[c].parent == Some(w.changeSets[w.rows[c].changeSet].trustedHead)
  }

  /** Accepted evidence with these files. */
  ghost predicate Accepts(w: World, e: nat, files: set<FileEntry>) {
    e < |w.changeSets| && w.changeSets[e].accepted && w.changeSets[e].files == files
  }

  ghost predicate MadeFor(w: World, e: nat, origin: Origin) {
    && e < |w.changeSets| && w.changeSets[e].accepted && origin.made < |w.objects|
    && w.objects[origin.made] == GitCommit(Some(origin.on), w.changeSets[e].files)
  }

  /** What a worker past its checks relies on. */
  ghost predicate PcOk(w: World) {
    match w.pc
    case Selected(e) => e < |w.changeSets| && w.changeSets[e].accepted
    case InIndex(e) => e < |w.changeSets| && w.changeSets[e].accepted
    case Staged(e) => Accepts(w, e, w.index)
    case ParentRead(e, _) => Accepts(w, e, w.index)
    case Made(e, _, origin) => MadeFor(w, e, origin)
    case ReadBack(e, _, origin, sha) => MadeFor(w, e, origin) && sha < |w.objects|
    case Verified(c) => Linked(w, c)
    case Chained(c, _) => Linked(w, c)
    case Inspected(c) => Linked(w, c)
    case Looked(c, _) => Linked(w, c)
    case Pushed(c, _, _) => Linked(w, c)
    case Confirmed(c) => Linked(w, c) && w.rows[c].sha in w.seen
    case Marked(c) => Linked(w, c)
    case Observed(c) => Linked(w, c) && w.rows[c].sha in w.seen
    case _ => true
  }

  ghost predicate Invariant(w: World) {
    && w.head < |w.objects| && w.trustedHead < |w.objects| && M.WellFormed(w.milestone)
    && |w.origins| == |w.rows| && (forall c :: 0 <= c < |w.rows| ==> Traced(w, c))
    && PcOk(w)
    && (forall k :: 0 <= k < |w.entered| ==> Linked(w, w.entered[k]) && w.rows[w.entered[k]].sha in w.seen)
  }

  /** Records, commits and change sets only accumulate; only the pushed mark is ever set. */
  ghost predicate Grows(before: World, after: World) {
    && before.changeSets <= after.changeSets && before.objects <= after.objects && before.seen <= after.seen
    && before.origins <= after.origins && |before.rows| <= |after.rows|
    && (|before.rows| == |before.origins| ==> |after.rows| == |after.origins|)
    && forall c :: 0 <= c < |before.rows| ==> after.rows[c] == before.rows[c].(pushed := after.rows[c].pushed)
  }

  lemma StepGrows(w: World, act: Action)
    ensures Grows(w, Step(w, act))
  {
  }

  lemma LinkStays(before: World, after: World, c: nat)
    requires Grows(before, after)
    ensures Traced(before, c) ==> Traced(after, c)
    ensures Linked(before, c) ==> Linked(after, c)
  {
  }

  /** What a record is worth never changes once it is there. */
  lemma TruthStays(before: World, after: World, c: nat)
    requires Grows(before, after) && Traced(before, c)
    ensures NamesOrigin(after, c) <==> NamesOrigin(before, c)
    ensures NamesTwin(after, c) <==> NamesTwin(before, c)
  {
  }

  lemma RowsStayTraced(before: World, after: World)
    requires Invariant(before) && Grows(before, after)
    requires forall c :: |before.rows| <= c < |after.rows| ==> Traced(after, c)
    ensures forall c :: 0 <= c < |after.rows| ==> Traced(after, c)
  {
    forall c | 0 <= c < |after.rows| ensures Traced(after, c) {
      if c < |before.rows| { LinkStays(before, after, c); }
    }
  }

  /** Only saving adds a record, and it records what the worker read. */
  lemma StepRows(w: World, act: Action)
    requires Invariant(w)
    ensures forall c :: |w.rows| <= c < |Step(w, act).rows| ==> Traced(Step(w, act), c)
  {
  }

  predicate CommitAction(act: Action) {
    act in {CommitBegin, CommitSelect, CommitAdd, CommitCheck, CommitParent, CommitMake, CommitRead, CommitSave,
            CommitVerify, CommitFinish}
  }

  predicate PushAction(act: Action) {
    act in {PushBegin, PushInspect, PushLook, PushReread, PushMark, PushObserve, PushFinish} || act.PushSend?
  }

  lemma StagePcOk(w: World, act: Action)
    requires Invariant(w) && act in {CommitBegin, CommitSelect, CommitAdd, CommitCheck}
    ensures PcOk(Step(w, act))
  {
  }

  lemma MakePcOk(w: World, act: Action)
    requires Invariant(w) && act in {CommitParent, CommitMake, CommitRead, CommitSave}
    ensures PcOk(Step(w, act))
  {
  }

  lemma VerifyPcOk(w: World, act: Action)
    requires Invariant(w) && act in {CommitVerify, CommitFinish}
    ensures PcOk(Step(w, act))
  {
    if act == CommitVerify && w.pc.ToVerify? && w.pc.c < |w.rows| {
      assert Traced(w, w.pc.c);
      StepGrows(w, act);
      LinkStays(w, Step(w, act), w.pc.c);
    }
  }

  lemma CommitPcOk(w: World, act: Action)
    requires Invariant(w) && CommitAction(act)
    ensures PcOk(Step(w, act))
  {
    if act in {CommitBegin, CommitSelect, CommitAdd, CommitCheck} {
      StagePcOk(w, act);
    } else if act in {CommitVerify, CommitFinish} {
      VerifyPcOk(w, act);
    } else {
      MakePcOk(w, act);
    }
  }

  lemma BeginPushPcOk(w: World)
    requires Invariant(w)
    ensures PcOk(Step(w, PushBegin))
  {
    StepGrows(w, PushBegin);
    var c := RowAtHead(w);
    if c.Some? {
      assert Traced(w, c.value);
      LinkStays(w, Step(w, PushBegin), c.value);
    }
  }

  predicate Pushing(pc: Pc) {
    pc.Chained? || pc.Inspected? || pc.Looked? || pc.Pushed? || pc.Confirmed? || pc.Marked? || pc.Observed?
  }

  lemma PushingPcOk(w: World, act: Action)
    requires Invariant(w) && PushAction(act) && act != PushBegin && Pushing(w.pc)
    ensures PcOk(Step(w, act))
  {
    hide Step;
    StepGrows(w, act);
    PushSeen(w, act);
    LinkStays(w, Step(w, act), w.pc.c);
    PushingIsOk(w, Step(w, act));
  }

  lemma PushPcOk(w: World, act: Action)
    requires Invariant(w) && PushAction(act)
    ensures PcOk(Step(w, act))
  {
    if act == PushBegin {
      BeginPushPcOk(w);
    } else if Pushing(w.pc) {
      PushingPcOk(w, act);
    } else {
      assert Step(w, act) == w;
    }
  }

  /** The push executor stays with its record, or goes home. */
  ghost predicate StaysWith(before: World, after: World)
    requires Pushing(before.pc) && before.pc.c < |before.rows|
  {
    || after.pc.Idle?
    || (Pushing(after.pc) && after.pc.c == before.pc.c
        && (after.pc.Confirmed? || after.pc.Observed? ==> before.rows[before.pc.c].sha in after.seen))
  }

  lemma PushSeen(w: World, act: Action)
    requires PushAction(act) && act != PushBegin && Pushing(w.pc) && PcOk(w)
    ensures w.pc.c < |w.rows| && StaysWith(w, Step(w, act))
  {
  }

  lemma PushingIsOk(before: World, after: World)
    requires Pushing(before.pc) && before.pc.c < |before.rows| && StaysWith(before, after)
    requires Grows(before, after) && Linked(after, before.pc.c)
    ensures PcOk(after)
  {
  }

  /** Others leave the worker where it is, with what it relies on. */
  lemma OtherPcOk(w: World, act: Action)
    requires Invariant(w) && !CommitAction(act) && !PushAction(act)
    ensures PcOk(Step(w, act))
  {
    var after := Step(w, act);
    if act != Crash {
      StepGrows(w, act);
      assert after.pc == w.pc && after.index == w.index && after.rows == w.rows;
      PcStays(w, after);
    }
  }

  lemma PcStays(before: World, after: World)
    requires PcOk(before) && Grows(before, after)
    requires after.pc == before.pc && after.index == before.index && after.rows == before.rows
    ensures PcOk(after)
  {
    match before.pc
    case Verified(c) => LinkStays(before, after, c);
    case Chained(c, _) => LinkStays(before, after, c);
    case Inspected(c) => LinkStays(before, after, c);
    case Looked(c, _) => LinkStays(before, after, c);
    case Pushed(c, _, _) => LinkStays(before, after, c);
    case Confirmed(c) => LinkStays(before, after, c);
    case Marked(c) => LinkStays(before, after, c);
    case Observed(c) => LinkStays(before, after, c);
    case _ =>
  }

  lemma StepPcOk(w: World, act: Action)
    requires Invariant(w)
    ensures PcOk(Step(w, act))
  {
    if CommitAction(act) {
      CommitPcOk(w, act);
    } else if PushAction(act) {
      PushPcOk(w, act);
    } else {
      OtherPcOk(w, act);
    }
  }

  /** PR_CREATING is entered only by the push executor, for the record it observed. */
  ghost predicate EntersObserved(before: World, after: World) {
    after.entered == before.entered || (before.pc.Observed? && after.entered == before.entered + [before.pc.c])
  }

  lemma StepEnters(w: World, act: Action)
    requires Invariant(w)
    ensures EntersObserved(w, Step(w, act))
    ensures var after := Step(w, act); after.head < |after.objects| && after.trustedHead < |after.objects|
  {
  }

  /** This step takes the milestone from PUSHING to PR_CREATING. */
  predicate Enters(before: World, after: World) {
    before.milestone.state == M.Pushing && after.milestone.state == M.PrCreating
  }

  /** A milestone moves by one step of its machine, and each move into PR_CREATING is one entry. */
  ghost predicate MovesWell(before: World, after: World) {
    && (after.milestone == before.milestone || M.Step(before.milestone, after.milestone))
    && |after.entered| == |before.entered| + if Enters(before, after) then 1 else 0
  }

  lemma FinishPushMovesWell(w: World, c: nat)
    ensures MovesWell(w, FinishPush(w, c))
  {
  }

  lemma StepMovesWell(w: World, act: Action)
    ensures MovesWell(w, Step(w, act))
  {
    if act.PushFinish? && w.pc.Observed? { FinishPushMovesWell(w, w.pc.c); }
  }

  lemma StepKeepsInvariant(w: World, act: Action)
    requires Invariant(w)
    ensures Invariant(Step(w, act))
  {
    StepGrows(w, act);
    StepRows(w, act);
    StepPcOk(w, act);
    StepEnters(w, act);
    StepMovesWell(w, act);
    KeepsInvariant(w, Step(w, act));
  }

  lemma KeepsInvariant(before: World, after: World)
    requires Invariant(before) && Grows(before, after) && PcOk(after) && MovesWell(before, after)
    requires forall c :: |before.rows| <= c < |after.rows| ==> Traced(after, c)
    requires EntersObserved(before, after) && after.head < |after.objects| && after.trustedHead < |after.objects|
    ensures Invariant(after)
  {
    RowsStayTraced(before, after);
    if after.milestone != before.milestone { M.StepKeepsWellFormed(before.milestone, after.milestone); }
    forall k | 0 <= k < |after.entered|
      ensures Linked(after, after.entered[k]) && after.rows[after.entered[k]].sha in after.seen
    {
      if k < |before.entered| {
        LinkStays(before, after, before.entered[k]);
      } else {
        LinkStays(before, after, before.pc.c);
      }
    }
  }

  lemma {:induction false} Reachable(run: seq<World>, acts: seq<Action>, n: nat)
    requires IsRun(run, acts) && Initial(run[0]) && n < |run|
    ensures Invariant(run[n])
  {
    if n > 0 {
      Reachable(run, acts, n - 1);
      StepKeepsInvariant(run[n - 1], acts[n - 1]);
      assert run[n - 1 + 1] == Step(run[n - 1], acts[n - 1]);
    }
  }

  /** What was seen at the remote was at the remote. */
  ghost predicate SeenAt(run: seq<World>, n: nat, sha: Sha) {
    exists k | 0 <= k < n && k < |run| :: run[k].remote == Some(sha)
  }

  lemma StepSees(w: World, act: Action)
    ensures forall sha :: sha in Step(w, act).seen && sha !in w.seen ==> w.remote == Some(sha)
  {
  }

  lemma {:induction false} SeenWasThere(run: seq<World>, acts: seq<Action>, n: nat)
    requires IsRun(run, acts) && Initial(run[0]) && n < |run|
    ensures forall sha :: sha in run[n].seen ==> SeenAt(run, n, sha)
  {
    if n > 0 {
      SeenWasThere(run, acts, n - 1);
      StepSees(run[n - 1], acts[n - 1]);
      assert run[n - 1 + 1] == Step(run[n - 1], acts[n - 1]);
      forall sha | sha in run[n].seen ensures SeenAt(run, n, sha) {
        if sha in run[n - 1].seen {
          assert SeenAt(run, n - 1, sha);
        } else {
          assert run[n - 1].remote == Some(sha);
        }
      }
    }
  }
}
