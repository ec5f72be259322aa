/** Validation of the worktree a coding worker left behind: findings, the decision they
    force, and the mirror of the findings in the security audit. */
module ChangeValidation {
  import opened Wrappers
  import opened SecurityLog

  datatype FindingCode =
    | Secret | WorkspaceEscape | ProtectedPath | RepositoryIdentity | GitHistory
    | EmptyChangeSet | BinaryNotScanned | TextScanLimit

  datatype Finding = Finding(code: FindingCode, severity: Severity, path: Option<string>, blocking: bool)

  datatype Decision = Accept | ReworkRequired | DecisionBlocked

  datatype ChangedFile = ChangedFile(
    path: string, deleted: bool, hasContent: bool, symlink: bool, binary: bool)

  /** What the collector saw; `scanned` holds the secret matches of each scanned path. */
  datatype Collected = Collected(
    files: seq<ChangedFile>, unsafePaths: seq<string>, escapingSymlinks: seq<string>,
    scanOmissions: seq<string>, scanned: map<string, nat>)

  datatype LiveEvidence = LiveEvidence(
    scope: Scope, collected: Option<Collected>, identityProblem: bool, historyProblem: bool)

  /** Path policy of one validation: what is protected and what the implementation task authorises. */
  datatype PathPolicy = PathPolicy(protected: set<string>, authorised: set<string>)

  datatype ChangeSet = ChangeSet(
    scope: Scope, files: seq<ChangedFile>, findings: seq<Finding>, decision: Decision)

  function EventOf(code: FindingCode): Option<(EventType, Severity)> {
    match code
    case Secret => Some((SecretDetected, High))
    case WorkspaceEscape => Some((WorkspaceEscapeAttempt, Critical))
    case ProtectedPath => Some((ProtectedPathChange, High))
    case RepositoryIdentity => Some((RepositoryIdentityMismatch, Critical))
    case GitHistory => Some((UnexpectedGitHistoryChange, Critical))
    case TextScanLimit => Some((TextScanLimitExceeded, High))
    case EmptyChangeSet => None
    case BinaryNotScanned => None
  }

  function FilesOf(live: LiveEvidence): seq<ChangedFile> {
    if live.collected.None? then [] else live.collected.value.files
  }

  // ------------------------------------------------------------------ what a finding means

  predicate UnauthorisedProtected(file: ChangedFile, policy: PathPolicy) {
    file.path in policy.protected && file.path !in policy.authorised
  }

  predicate LeaksSecret(file: ChangedFile, c: Collected) {
    && !file.deleted && file.hasContent && !file.symlink && !file.binary
    && file.path in c.scanned && c.scanned[file.path] > 0
  }

  /** The condition in the evidence that each blocking code reports. */
  ghost predicate Raised(live: LiveEvidence, policy: PathPolicy, code: FindingCode) {
    match code
    case RepositoryIdentity => live.identityProblem
    case GitHistory => live.historyProblem
    case WorkspaceEscape =>
      live.collected.Some? && live.collected.value.unsafePaths + live.collected.value.escapingSymlinks != []
    case TextScanLimit => live.collected.Some? && live.collected.value.scanOmissions != []
    case ProtectedPath => exists f :: f in FilesOf(live) && UnauthorisedProtected(f, policy)
    case Secret => live.collected.Some? &&
                   exists f :: f in FilesOf(live) && LeaksSecret(f, live.collected.value)
    case EmptyChangeSet => false
    case BinaryNotScanned => false
  }

  ghost predicate Reports(findings: seq<Finding>, code: FindingCode) {
    exists f :: f in findings && f.blocking && f.code == code
  }

  const UNSAFE_CODES: set<FindingCode> := {RepositoryIdentity, GitHistory, WorkspaceEscape}

  /** The decision the evidence itself calls for. */
  ghost function Verdict(live: LiveEvidence, policy: PathPolicy): Decision {
    if exists code :: code in UNSAFE_CODES && Raised(live, policy, code) then DecisionBlocked
    else if FilesOf(live) == [] || exists code :: Raised(live, policy, code) then ReworkRequired
    else Accept
  }

  lemma ReportsOfConcat(a: seq<Finding>, b: seq<Finding>, code: FindingCode)
    ensures Reports(a + b, code) <==> Reports(a, code) || Reports(b, code)
  {
    forall f ensures f in a + b <==> f in a || f in b {}
  }

  /** A file's own findings. */
  method ReviewFile(file: ChangedFile, c: Option<Collected>, policy: PathPolicy) returns (found: seq<Finding>)
    ensures Reports(found, ProtectedPath) <==> UnauthorisedProtected(file, policy)
    ensures Reports(found, Secret) <==> c.Some? && LeaksSecret(file, c.value)
    ensures forall f :: f in found ==> f.code in {ProtectedPath, Secret, BinaryNotScanned}
    ensures forall f :: f in found && f.blocking ==> f.code != BinaryNotScanned
  {
    found := [];
    if file.path in policy.protected {
      var authorised := file.path in policy.authorised;
      found := [Finding(ProtectedPath, if authorised then Info else High, Some(file.path), !authorised)];
      assert found[0].code == ProtectedPath;
    }
    if file.deleted || !file.hasContent || file.symlink {
      return;
    }
    if file.binary {
      ghost var before := found;
      found := found + [Finding(BinaryNotScanned, Warning, Some(file.path), false)];
      ReportsOfConcat(before, [Finding(BinaryNotScanned, Warning, Some(file.path), false)], ProtectedPath);
      return;
    }
    if c.None? || file.path !in c.value.scanned {
      return;
    }
    ghost var protection := found;
    var hit := Finding(Secret, High, Some(file.path), true);
    for match_ := 0 to c.value.scanned[file.path]
      invariant found == protection + seq(match_, i => hit)
    {
      found := found + [hit];
    }
    ghost var hits := seq(c.value.scanned[file.path], i => hit);
    ReportsOfConcat(protection, hits, ProtectedPath);
    ReportsOfConcat(protection, hits, Secret);
    assert c.value.scanned[file.path] > 0 ==> hits[0] == hit;
  }

  /** One finding per listed path. */
  method ReportPaths(code: FindingCode, severity: Severity, paths: seq<string>) returns (found: seq<Finding>)
    ensures Reports(found, code) <==> paths != []
    ensures forall f :: f in found ==> f.code == code && f.blocking
  {
    found := [];
    for i := 0 to |paths|
      invariant |found| == i
      invariant forall f :: f in found ==> f.code == code && f.blocking
    {
      found := found + [Finding(code, severity, Some(paths[i]), true)];
    }
    assert paths != [] ==> found[0] in found;
  }

  method IdentityFindings(live: LiveEvidence) returns (found: seq<Finding>)
    ensures forall code :: Reports(found, code) <==>
      (code == RepositoryIdentity && live.identityProblem) || (code == GitHistory && live.historyProblem)
    ensures forall f :: f in found ==> f.blocking
  {
    var identity := if live.identityProblem then [Finding(RepositoryIdentity, Critical, None, true)] else [];
    var history := if live.historyProblem then [Finding(GitHistory, Critical, None, true)] else [];
    found := identity + history;
    forall code ensures Reports(found, code) <==> Reports(identity, code) || Reports(history, code) {
      ReportsOfConcat(identity, history, code);
    }
    assert live.identityProblem ==> identity[0].code == RepositoryIdentity;
    assert live.historyProblem ==> history[0].code == GitHistory;
  }

  /** Unsafe paths, scan omissions and the note about an empty change set. */
  method GeneralFindings(live: LiveEvidence) returns (found: seq<Finding>)
    ensures forall code :: code !in {RepositoryIdentity, GitHistory, ProtectedPath, Secret} ==>
      (Reports(found, code) <==> Raised(live, PathPolicy({}, {}), code))
    ensures forall f :: f in found ==> f.code in {WorkspaceEscape, TextScanLimit, EmptyChangeSet}
    ensures forall f :: f in found && f.code != EmptyChangeSet ==> f.blocking
  {
    var escapes, omissions := [], [];
    if live.collected.Some? {
      var c := live.collected.value;
      escapes := ReportPaths(WorkspaceEscape, Critical, c.unsafePaths + c.escapingSymlinks);
      omissions := ReportPaths(TextScanLimit, High, c.scanOmissions);
    }
    var note := if FilesOf(live) == [] && !live.identityProblem
                then [Finding(EmptyChangeSet, Warning, None, false)] else [];
    found := escapes + omissions + note;
    forall code ensures Reports(found, code) <==>
      Reports(escapes, code) || Reports(omissions, code) || Reports(note, code)
    {
      ReportsOfConcat(escapes, omissions, code);
      ReportsOfConcat(escapes + omissions, note, code);
    }
  }

  method ReviewFiles(files: seq<ChangedFile>, c: Option<Collected>, policy: PathPolicy) returns (found: seq<Finding>)
    ensures Reports(found, ProtectedPath) <==> exists f :: f in files && UnauthorisedProtected(f, policy)
    ensures Reports(found, Secret) <==> c.Some? && exists f :: f in files && LeaksSecret(f, c.value)
    ensures forall f :: f in found ==> f.code in {ProtectedPath, Secret, BinaryNotScanned}
    ensures forall f :: f in found && f.blocking ==> f.code != BinaryNotScanned
  {
    found := [];
    for i := 0 to |files|
      invariant Reports(found, ProtectedPath) <==> exists f :: f in files[..i] && UnauthorisedProtected(f, policy)
      invariant Reports(found, Secret) <==> (c.Some? && exists f :: f in files[..i] && LeaksSecret(f, c.value))
      invariant forall f :: f in found ==> f.code in {ProtectedPath, Secret, BinaryNotScanned}
      invariant forall f :: f in found && f.blocking ==> f.code != BinaryNotScanned
    {
      var own := ReviewFile(files[i], c, policy);
      ReportsOfConcat(found, own, ProtectedPath);
      ReportsOfConcat(found, own, Secret);
      assert files[..i + 1] == files[..i] + [files[i]];
      found := found + own;
    }
    assert files[..|files|] == files;
  }

  method CollectFindings(live: LiveEvidence, policy: PathPolicy) returns (findings: seq<Finding>)
    ensures forall code :: Reports(findings, code) <==> Raised(live, policy, code)
    ensures forall f :: f in findings && f.code in UNSAFE_CODES ==> f.blocking
  {
    var identity := IdentityFindings(live);
    var general := GeneralFindings(live);
    var reviewed := ReviewFiles(FilesOf(live), live.collected, policy);
    findings := identity + general + reviewed;
    forall code ensures Reports(findings, code) <==> Raised(live, policy, code) {
      ReportsOfConcat(identity, general, code);
      ReportsOfConcat(identity + general, reviewed, code);
    }
  }

  method Decide(findings: seq<Finding>, files: seq<ChangedFile>) returns (decision: Decision)
    requires forall f :: f in findings && f.code in UNSAFE_CODES ==> f.blocking
    ensures decision == DecisionBlocked <==> exists code :: code in UNSAFE_CODES && Reports(findings, code)
    ensures decision == Accept <==> files != [] && forall code :: !Reports(findings, code)
  {
    if exists f :: f in findings && f.code in UNSAFE_CODES {
      decision := DecisionBlocked;
      ghost var f :| f in findings && f.code in UNSAFE_CODES;
      assert Reports(findings, f.code);
    } else if files == [] || exists f :: f in findings && f.blocking {
      decision := ReworkRequired;
      assert files != [] ==> exists f :: f in findings && f.blocking && Reports(findings, f.code);
    } else {
      decision := Accept;
    }
  }

  class ChangeValidationService {
    const security: SecurityPolicy
    var changeSets: seq<ChangeSet>

    constructor (security: SecurityPolicy)
      ensures this.security == security && changeSets == []
    {
      this.security := security;
      changeSets := [];
    }

    /** Decide, save the change set, and rewrite the unresolved conditions of the workspace
        to mirror the findings. */
    method Validate(live: LiveEvidence, policy: PathPolicy) returns (result: ChangeSet)
      requires Consistent(security.log)
      modifies this, security
      ensures Consistent(security.log)
      ensures result.decision == Verdict(live, policy)
      ensures forall code :: Reports(result.findings, code) <==> Raised(live, policy, code)
      ensures changeSets == old(changeSets) + [result] && result.scope == live.scope
      ensures ActiveTypes(security.log, live.scope) == RaisedTypes(live, policy)
      ensures ExtendsWithin(old(security.log), security.log, live.scope)
    {
      var findings := CollectFindings(live, policy);
      var files := FilesOf(live);
      var decision := Decide(findings, files);
      result := ChangeSet(live.scope, files, findings, decision);
      var activeTypes := set f | f in findings && f.blocking && EventOf(f.code).Some? :: EventOf(f.code).value.0;
      ghost var start := security.log;
      changeSets := changeSets + [result];
      security.ResolveCleanRevalidation(live.scope, activeTypes);
      ghost var cleaned := security.log;
      RecordFindings(findings, live.scope, activeTypes);
      MirrorIsExact(start, cleaned, security.log, live.scope, activeTypes);
      RaisedTypesOf(live, policy, findings, activeTypes);
    }

    /** Append one blocking event for every mapped blocking finding. */
    method RecordFindings(findings: seq<Finding>, scope: Scope, ghost activeTypes: set<EventType>)
      requires Consistent(security.log)
      requires activeTypes == set f | f in findings && f.blocking && EventOf(f.code).Some? :: EventOf(f.code).value.0
      modifies security
      ensures Consistent(security.log)
      ensures old(security.log).events <= security.log.events && security.log.resolved == old(security.log).resolved
      ensures forall k: nat :: |old(security.log).events| <= k < |security.log.events| ==>
        InScope(security.log.events[k], scope) && security.log.events[k].kind in activeTypes
      ensures forall t :: t in activeTypes ==> Recorded(security.log, |old(security.log).events|, t)
    {
      ghost var base := |security.log.events|;
      for i := 0 to |findings|
        modifies security
        invariant Consistent(security.log)
        invariant old(security.log).events <= security.log.events && security.log.resolved == old(security.log).resolved
        invariant forall k: nat :: base <= k < |security.log.events| ==>
          InScope(security.log.events[k], scope) && security.log.events[k].kind in activeTypes
        invariant forall j :: 0 <= j < i && Mapped(findings[j]) ==>
          Recorded(security.log, base, EventOf(findings[j].code).value.0)
      {
        var mapped := EventOf(findings[i].code);
        if mapped.Some? && findings[i].blocking {
          ghost var earlier := security.log;
          assert findings[i] in findings;
          var r := security.Record(Event(mapped.value.0, mapped.value.1, Some(scope.project),
            Some(scope.milestone), CHANGE_VALIDATION, Some(scope.workspace), true));
          RecordedStays(earlier, security.log, base);
          assert security.log.events[|earlier.events|].kind == mapped.value.0;
        }
      }
    }
  }

  predicate Mapped(f: Finding) { f.blocking && EventOf(f.code).Some? }

  lemma RecordedStays(earlier: Log, later: Log, base: nat)
    requires earlier.events <= later.events
    ensures forall t :: Recorded(earlier, base, t) ==> Recorded(later, base, t)
  {
    forall t | Recorded(earlier, base, t) ensures Recorded(later, base, t) {
      var k :| base <= k < |earlier.events| && earlier.events[k].kind == t;
      assert later.events[k].kind == t;
    }
  }

  ghost predicate Recorded(log: Log, from: nat, kind: EventType) {
    exists k :: from <= k < |log.events| && log.events[k].kind == kind
  }

  /** The condition types the evidence of a validation raises. */
  ghost function RaisedTypes(live: LiveEvidence, policy: PathPolicy): set<EventType> {
    set code: FindingCode | Raised(live, policy, code) && EventOf(code).Some? :: EventOf(code).value.0
  }

  lemma RaisedTypesOf(live: LiveEvidence, policy: PathPolicy, findings: seq<Finding>, activeTypes: set<EventType>)
    requires forall code :: Reports(findings, code) <==> Raised(live, policy, code)
    requires activeTypes == set f | f in findings && f.blocking && EventOf(f.code).Some? :: EventOf(f.code).value.0
    ensures activeTypes == RaisedTypes(live, policy)
  {
    forall t | t in RaisedTypes(live, policy) ensures t in activeTypes {
      var code :| Raised(live, policy, code) && EventOf(code).Some? && EventOf(code).value.0 == t;
      assert Reports(findings, code);
      var f :| f in findings && f.blocking && f.code == code;
    }
    forall t | t in activeTypes ensures t in RaisedTypes(live, policy) {
      var f :| f in findings && f.blocking && EventOf(f.code).Some? && EventOf(f.code).value.0 == t;
      assert Reports(findings, f.code);
    }
  }

  /** Resolve what vanished, then record what is there: whatever conditions were open before,
      exactly the current ones are open after. */
  lemma MirrorIsExact(start: Log, cleaned: Log, final: Log, scope: Scope, activeTypes: set<EventType>)
    requires Consistent(start) && cleaned.events == start.events
    requires forall i: nat :: i in cleaned.resolved <==>
      i in start.resolved || Vanished(start, scope, activeTypes, i)
    requires cleaned.events <= final.events && final.resolved == cleaned.resolved
    requires forall k: nat :: |cleaned.events| <= k < |final.events| ==>
      InScope(final.events[k], scope) && final.events[k].kind in activeTypes
    requires forall t :: t in activeTypes ==> Recorded(final, |cleaned.events|, t)
    ensures ActiveTypes(final, scope) == activeTypes
    ensures ExtendsWithin(start, final, scope)
  {
    forall t | t in ActiveTypes(final, scope) ensures t in activeTypes {
      var i: nat :| i < |final.events| && Unresolved(final, i) && InScope(final.events[i], scope) && final.events[i].kind == t;
      if i < |start.events| {
        assert final.events[i] == start.events[i];
        assert !Vanished(start, scope, activeTypes, i);
      }
    }
    forall t | t in activeTypes ensures t in ActiveTypes(final, scope) {
      assert Recorded(final, |cleaned.events|, t);
      var k :| |cleaned.events| <= k < |final.events| && final.events[k].kind == t;
      assert k !in final.resolved;
      assert Unresolved(final, k);
    }
    forall i: nat | i in final.resolved && i !in start.resolved
      ensures i < |start.events| && InScope(start.events[i], scope)
    {
      assert Vanished(start, scope, activeTypes, i);
    }
  }

  /** A validation accepts exactly when there is something to accept and it leaves no
      condition open for its workspace. */
  lemma AcceptIffNothingRaised(live: LiveEvidence, policy: PathPolicy)
    ensures Verdict(live, policy) == Accept <==> FilesOf(live) != [] && RaisedTypes(live, policy) == {}
  {
    if Verdict(live, policy) != Accept && FilesOf(live) != [] {
      var code :| Raised(live, policy, code);
      assert !Raised(live, policy, EmptyChangeSet) && !Raised(live, policy, BinaryNotScanned);
      assert EventOf(code).value.0 in RaisedTypes(live, policy);
    }
    if RaisedTypes(live, policy) != {} {
      var t :| t in RaisedTypes(live, policy);
      var code :| Raised(live, policy, code) && EventOf(code).Some? && EventOf(code).value.0 == t;
    }
  }

  /** Rewriting one scope leaves every other workspace's conditions, and every host- or
      project-wide block, exactly as they were. */
  lemma OtherScopesUntouched(before: Log, after: Log, scope: Scope, other: Scope)
    requires Consistent(before) && ExtendsWithin(before, after, scope) && other != scope
    ensures ActiveTypes(after, other) == ActiveTypes(before, other)
  {
    forall i: nat | i < |before.events| && InScope(before.events[i], other)
      ensures Unresolved(before, i) <==> Unresolved(after, i)
    {
      assert after.events[i] == before.events[i];
    }
    forall t ensures t in ActiveTypes(after, other) <==> t in ActiveTypes(before, other) {
      if t in ActiveTypes(after, other) {
        var i: nat :| i < |after.events| && Unresolved(after, i) && InScope(after.events[i], other) && after.events[i].kind == t;
        assert i < |before.events|;
        assert after.events[i] == before.events[i];
      }
      if t in ActiveTypes(before, other) {
        var i: nat :| i < |before.events| && Unresolved(before, i) && InScope(before.events[i], other) && before.events[i].kind == t;
        assert after.events[i] == before.events[i];
      }
    }
  }

  /** With nothing else open, the milestone is unblocked exactly when no condition is left. */
  lemma BlockedAfterValidation(log: Log, scope: Scope)
    requires Consistent(log)
    requires forall i: nat | i < |log.events| && Unresolved(log, i) ::
      BlocksWork(log.events[i], scope.project, scope.milestone) ==> InScope(log.events[i], scope)
    ensures Blocked(log, scope.project, scope.milestone) <==> ActiveTypes(log, scope) != {}
  {
    if ActiveTypes(log, scope) != {} {
      var t :| t in ActiveTypes(log, scope);
      var i: nat :| i < |log.events| && Unresolved(log, i) && InScope(log.events[i], scope);
      assert BlocksWork(log.events[i], scope.project, scope.milestone);
    }
    if Blocked(log, scope.project, scope.milestone) {
      var i: nat :| i < |log.events| && Unresolved(log, i) && BlocksWork(log.events[i], scope.project, scope.milestone);
      assert log.events[i].kind in ActiveTypes(log, scope);
    }
  }
}
