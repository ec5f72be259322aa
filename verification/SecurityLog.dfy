/** The append-only security audit: events, their resolutions, and the queries privileged
    work consults.  SQLite is the sole authority for active security conditions. */
module SecurityLog {
  import opened Wrappers

  datatype EventType =
    | UnauthorisedMessage | SecretDetected | WorkspaceEscapeAttempt | ProtectedPathChange
    | RepositoryIdentityMismatch | UnexpectedGitHistoryChange | TextScanLimitExceeded
    | PrShaMismatch | UnauthorisedGateResponse | GithubCredentialError
    | DatabaseIntegrityFailure | ResourceLimitExceeded

  datatype Severity = Info | Warning | High | Critical

  datatype Event = Event(
    kind: EventType, severity: Severity, project: Option<nat>, milestone: Option<nat>,
    component: string, reference: Option<string>, blocking: bool)

  /** Events are identified by their position; each has at most one resolution row. */
  datatype Log = Log(events: seq<Event>, resolved: set<nat>)

  datatype SecurityError = SeverityTooLow | NoSuchEvent | AlreadyResolved

  predicate Wide(severity: Severity) { severity in {High, Critical} }

  /** The schema's row check. */
  ghost predicate Consistent(log: Log) {
    && (forall i :: i in log.resolved ==> i < |log.events|)
    && (forall i :: 0 <= i < |log.events| && log.events[i].blocking ==> Wide(log.events[i].severity))
  }

  predicate Unresolved(log: Log, i: nat) { i < |log.events| && i !in log.resolved }

  /** Blocking conditions the change validation raised for one workspace. */
  datatype Scope = Scope(project: nat, milestone: nat, workspace: string)

  const CHANGE_VALIDATION: string := "change_validation"

  predicate InScope(e: Event, scope: Scope) {
    && e.project == Some(scope.project) && e.milestone == Some(scope.milestone)
    && e.component == CHANGE_VALIDATION && e.reference == Some(scope.workspace) && e.blocking
  }

  function ActiveTypes(log: Log, scope: Scope): set<EventType> {
    set i: nat | i < |log.events| && Unresolved(log, i) && InScope(log.events[i], scope)
      :: log.events[i].kind
  }

  /** An unresolved serious event of the project, of the milestone, or of the whole host. */
  predicate Blocked(log: Log, project: nat, milestone: nat) {
    exists i: nat | i < |log.events| :: Unresolved(log, i) && BlocksWork(log.events[i], project, milestone)
  }

  predicate BlocksWork(e: Event, project: nat, milestone: nat) {
    && e.blocking && Wide(e.severity)
    && (e.project.None? || e.project.value == project)
    && (e.milestone.None? || e.milestone.value == milestone)
  }

  /** `after` continues `before`: nothing is deleted or reopened, and everything new or newly
      resolved belongs to the scope. */
  ghost predicate ExtendsWithin(before: Log, after: Log, scope: Scope) {
    && before.events <= after.events
    && before.resolved <= after.resolved
    && (forall i: nat :: i in after.resolved && i !in before.resolved ==>
         i < |before.events| && InScope(before.events[i], scope))
    && (forall i: nat :: |before.events| <= i < |after.events| ==> InScope(after.events[i], scope))
  }

  class SecurityPolicy {
    var log: Log

    constructor ()
      ensures log == Log([], {})
    {
      log := Log([], {});
    }

    method Record(event: Event) returns (r: Result<nat, SecurityError>)
      requires Consistent(log)
      modifies this
      ensures Consistent(log)
      ensures r.Failure? <==> event.blocking && !Wide(event.severity)
      ensures r.Failure? ==> log == old(log)
      ensures r.Success? ==> r.value == |old(log).events|
      ensures r.Success? ==> log == Log(old(log).events + [event], old(log).resolved)
    {
      if event.blocking && !Wide(event.severity) {
        return Failure(SeverityTooLow);
      }
      r := Success(|log.events|);
      log := Log(log.events + [event], log.resolved);
    }

    method Resolve(id: nat) returns (r: Result<(), SecurityError>)
      requires Consistent(log)
      modifies this
      ensures Consistent(log)
      ensures r.Success? <==> Unresolved(old(log), id)
      ensures log == if r.Success? then Log(old(log).events, old(log).resolved + {id}) else old(log)
    {
      if id >= |log.events| {
        return Failure(NoSuchEvent);
      }
      if id in log.resolved {
        return Failure(AlreadyResolved);
      }
      log := Log(log.events, log.resolved + {id});
      r := Success(());
    }

    /** Resolve exactly the vanished conditions of one workspace scope. */
    method ResolveCleanRevalidation(scope: Scope, activeTypes: set<EventType>)
      requires Consistent(log)
      modifies this
      ensures Consistent(log)
      ensures log.events == old(log).events
      ensures forall i: nat :: i in log.resolved <==>
        i in old(log).resolved || Vanished(old(log), scope, activeTypes, i)
    {
      var fetched := log;
      for row := 0 to |fetched.events|
        invariant Consistent(log) && log.events == fetched.events
        invariant forall i: nat :: i in log.resolved <==>
          i in fetched.resolved || (i < row && Vanished(fetched, scope, activeTypes, i))
      {
        if Vanished(fetched, scope, activeTypes, row) {
          var r := Resolve(row);
        }
      }
    }

    method IsBlocked(project: nat, milestone: nat) returns (blocked: bool)
      ensures blocked <==> Blocked(log, project, milestone)
    {
      blocked := exists i: nat | i < |log.events| ::
        Unresolved(log, i) && BlocksWork(log.events[i], project, milestone);
    }
  }

  predicate Vanished(log: Log, scope: Scope, activeTypes: set<EventType>, i: nat) {
    Unresolved(log, i) && InScope(log.events[i], scope) && log.events[i].kind !in activeTypes
  }
}
