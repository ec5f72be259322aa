/** Required checks, and the clocks of the CI loop: polling, the grace period of missing CI,
    and the schedule of infrastructure retries.  Times are microseconds. */
module CiPolicy {
  import opened Wrappers

  datatype CheckStatus = CheckQueued | CheckRunning | CheckCompleted
  datatype Conclusion = ConcludedPassed | ConcludedFailed | ConcludedCancelled | Skipped | Neutral | Unresolved
  datatype Check = Check(status: CheckStatus, conclusion: Option<Conclusion>)

  datatype Status = Queued | Running | Passed | Failed | Cancelled | Unknown
  datatype Classification = Implementation | Test | Configuration | TransientInfrastructure | ExternalDependency | UnknownCause

  predicate Any(checks: seq<Check>, conclusion: Conclusion) {
    exists c | c in checks :: c.conclusion == Some(conclusion)
  }

  /** Version one of the policy: every applicable job is required. */
  function Evaluate(checks: seq<Check>): Status {
    if checks == [] then Unknown
    else if exists c | c in checks :: c.status == CheckQueued then Queued
    else if exists c | c in checks :: c.status == CheckRunning then Running
    else if forall c | c in checks :: c.conclusion == Some(ConcludedPassed) then Passed
    else if Any(checks, ConcludedFailed) then Failed
    else if Any(checks, ConcludedCancelled) then Cancelled
    else Unknown
  }

  /** It fails closed: it passes exactly when there are checks and each completed and passed,
      and one that did not pass is enough for anything else. */
  lemma PassesOnlyOnProof(checks: seq<Check>)
    ensures Evaluate(checks) == Passed <==>
      checks != [] && forall c :: c in checks ==> c == Check(CheckCompleted, Some(ConcludedPassed))
    ensures Evaluate(checks) == Failed <==>
      (forall c :: c in checks ==> c.status == CheckCompleted) && Any(checks, ConcludedFailed)
  {
    if Evaluate(checks) == Passed || Evaluate(checks) == Failed {
      forall c | c in checks ensures c.status == CheckCompleted {
        match c.status
        case CheckQueued => assert false;
        case CheckRunning => assert false;
        case CheckCompleted =>
      }
    }
    if Any(checks, ConcludedFailed) {
      var c :| c in checks && c.conclusion == Some(ConcludedFailed);
      assert checks[0] in checks;
    }
  }

  // ------------------------------------------------------------------ clocks

  datatype MissingPolicy = MissingPolicy(grace: int, maxObservations: int)
  datatype PollingPolicy = PollingPolicy(initial: int, medium: int, long: int, mediumAfter: int, longAfter: int)
  datatype Policies = Policies(missing: MissingPolicy, polling: PollingPolicy, delays: seq<int>)

  /** A grace period and observation limit the constructor accepts, and delays that wait. */
  predicate Sound(p: Policies) {
    && p.missing.grace > 0 && p.missing.maxObservations > 0
    && p.polling.initial > 0 && p.polling.medium > 0 && p.polling.long > 0
    && forall d | d in p.delays :: d > 0
  }

  function PollAt(p: PollingPolicy, started: int, now: int): int {
    var age := now - started;
    now + if age >= p.longAfter then p.long else if age >= p.mediumAfter then p.medium else p.initial
  }

  function RetryAt(delays: seq<int>, attempt: nat, now: int): Option<int> {
    if attempt >= |delays| then None else Some(now + delays[attempt])
  }

  function DeadlineAt(p: MissingPolicy, now: int): int { now + p.grace }

  function Min(a: int, b: int): int { if b < a then b else a }
}
