/** The job machine under retry scheduling: the transition table and its repository, the retry
    decision with its jittered backoff, and the promotion of due retries. */
module JobRetries {
  import opened Wrappers

  datatype State =
    | Queued | Dispatched | Running | WaitingExternal | RetryWait
    | Succeeded | Failed | Cancelled | Abandoned

  datatype Classification = Transient | Permanent | Policy | CancelledFailure | Unknown

  datatype Job = Job(
    state: State, attempt: nat, maxAttempts: nat, updatedAt: real, nextRetry: Option<real>, exhausted: bool)

  datatype Refusal = Stale | BackInTime | NotAllowed | AttemptsExhausted | BadRetry

  predicate Terminal(s: State) { s in {Succeeded, Failed, Cancelled, Abandoned} }

  function Successors(s: State): set<State> {
    match s
    case Queued => {Dispatched, Cancelled}
    case Dispatched => {Running, Failed, Cancelled}
    case Running => {WaitingExternal, Succeeded, RetryWait, Failed, Cancelled}
    case WaitingExternal => {Succeeded, RetryWait, Failed, Cancelled}
    case RetryWait => {Queued, Failed, Cancelled}
    case _ => {}
  }

  /** A requested transition. */
  datatype Request = Request(
    expected: State, target: State, at: real, nextRetry: Option<real>, hasError: bool, exhausted: bool)

  /** The repository's guarded transition. */
  function Apply(job: Job, r: Request): Result<Job, Refusal> {
    if job.state != r.expected then Failure(Stale)
    else if r.at < job.updatedAt then Failure(BackInTime)
    else if r.target !in Successors(job.state) then Failure(NotAllowed)
    else if r.target == Running then
      if job.attempt + 1 > job.maxAttempts then Failure(AttemptsExhausted)
      else Success(job.(state := Running, attempt := job.attempt + 1, updatedAt := r.at))
    else if r.target == RetryWait && (r.nextRetry.None? || r.nextRetry.value <= r.at || !r.hasError) then Failure(BadRetry)
    else if r.target == RetryWait && job.attempt >= job.maxAttempts then Failure(AttemptsExhausted)
    else Success(job.(state := r.target, updatedAt := r.at, nextRetry := r.nextRetry, exhausted := r.exhausted))
  }

  /** Abandonment by recovery: from any state that is not terminal. */
  function Abandon(job: Job, expected: State, at: real): Result<Job, Refusal> {
    if job.state != expected then Failure(Stale)
    else if at < job.updatedAt then Failure(BackInTime)
    else if Terminal(job.state) then Failure(NotAllowed)
    else Success(job.(state := Abandoned, updatedAt := at))
  }

  // ------------------------------------------------------------------ every run is finite

  datatype Move = Moved(r: Request) | Abandoning(expected: State, at: real)

  function Step(job: Job, move: Move): Result<Job, Refusal> {
    match move
    case Moved(r) => Apply(job, r)
    case Abandoning(expected, at) => Abandon(job, expected, at)
  }

  ghost predicate IsRun(run: seq<Job>, moves: seq<Move>) {
    && |run| == |moves| + 1
    && forall i :: 0 <= i < |moves| ==> Step(run[i], moves[i]) == Success(run[i + 1])
  }

  /** How far a state is within one attempt. */
  function Rank(s: State): nat {
    match s
    case Running => 5
    case WaitingExternal => 4
    case RetryWait => 3
    case Queued => 2
    case Dispatched => 1
    case _ => 0
  }

  ghost function Measure(job: Job): nat
    requires job.attempt <= job.maxAttempts
  {
    6 * (job.maxAttempts - job.attempt) + Rank(job.state)
  }

  lemma StepDescends(job: Job, move: Move)
    requires job.attempt <= job.maxAttempts && Step(job, move).Success?
    ensures var next := Step(job, move).value;
      && next.attempt <= next.maxAttempts && next.maxAttempts == job.maxAttempts
      && Measure(next) < Measure(job)
      && next.attempt == job.attempt + if next.state == Running then 1 else 0
  {
  }

  /** How often a run enters RUNNING. */
  ghost function Entries(run: seq<Job>): nat {
    if |run| <= 1 then 0 else Entries(run[..|run| - 1]) + if run[|run| - 1].state == Running then 1 else 0
  }

  /** Every run of a job is finite, whatever is retried, promoted, recovered or abandoned: it has
      at most six steps for each attempt and two more, it enters RUNNING at most `maxAttempts`
      times, and that many times exactly its attempt number says. */
  lemma {:induction false} RunsAreFinite(run: seq<Job>, moves: seq<Move>)
    requires IsRun(run, moves) && run[0].state == Queued && run[0].attempt == 0
    ensures var last := run[|run| - 1];
      && last.maxAttempts == run[0].maxAttempts && last.attempt <= last.maxAttempts
      && |moves| + Measure(last) <= 6 * run[0].maxAttempts + 2
      && Entries(run) == last.attempt <= run[0].maxAttempts
  {
    if moves != [] {
      var n := |moves| - 1;
      assert IsRun(run[..n + 1], moves[..n]) by {
        forall i | 0 <= i < n ensures Step(run[..n + 1][i], moves[..n][i]) == Success(run[..n + 1][i + 1]) {
          assert Step(run[i], moves[i]) == Success(run[i + 1]);
        }
      }
      RunsAreFinite(run[..n + 1], moves[..n]);
      assert Step(run[n], moves[n]) == Success(run[n + 1]);
      StepDescends(run[n], moves[n]);
      assert run[..|run| - 1] == run[..n + 1];
    }
  }

  /** Waiting for a retry always means that an attempt remains. */
  predicate RetryWaits(job: Job) { job.state == RetryWait ==> job.attempt < job.maxAttempts && job.nextRetry.Some? }

  lemma {:induction false} RetryWaitMeansAttemptsRemain(run: seq<Job>, moves: seq<Move>, n: nat)
    requires IsRun(run, moves) && run[0].state == Queued && n < |run|
    ensures RetryWaits(run[n])
  {
    if n > 0 { assert Step(run[n - 1], moves[n - 1]) == Success(run[n - 1 + 1]); }
  }

  // ------------------------------------------------------------------ the retry decision

  /** A schedule of delays and a jitter factor, as the constructor accepts them. */
  datatype Backoff = Backoff(schedule: seq<real>, jitter: real)

  predicate Sound(b: Backoff) {
    && b.schedule != [] && 0.0 <= b.jitter <= 1.0
    && (forall i :: 0 <= i < |b.schedule| ==> b.schedule[i] >= 0.0)
    && forall i :: 0 <= i < |b.schedule| - 1 ==> b.schedule[i] <= b.schedule[i + 1]
  }

  function Base(b: Backoff, attempt: nat): real
    requires Sound(b) && attempt >= 1
  {
    b.schedule[if attempt - 1 < |b.schedule| - 1 then attempt - 1 else |b.schedule| - 1]
  }

  function Times(x: real, factor: real): real { x * factor }

  function Low(b: Backoff, attempt: nat): real
    requires Sound(b) && attempt >= 1
  {
    Times(Base(b, attempt), 1.0 - b.jitter)
  }

  function High(b: Backoff, attempt: nat): real
    requires Sound(b) && attempt >= 1
  {
    Times(Base(b, attempt), 1.0 + b.jitter)
  }

  /** The sampled delay, or an error when the jitter source leaves its bounds. */
  function DelayFor(b: Backoff, attempt: nat, sampled: real): (r: Option<real>)
    requires Sound(b) && attempt >= 1
  {
    if Low(b, attempt) <= sampled <= High(b, attempt) then Some(if sampled < 0.0 then 0.0 else sampled) else None
  }

  /** The bounds are real and ordered. */
  lemma BoundsAreOrdered(b: Backoff, attempt: nat)
    requires Sound(b) && attempt >= 1
    ensures 0.0 <= Low(b, attempt) <= Base(b, attempt) <= High(b, attempt)
  {
    Shrink(Base(b, attempt), b.jitter);
  }

  lemma Shrink(x: real, j: real)
    requires 0.0 <= x && 0.0 <= j <= 1.0
    ensures 0.0 <= Times(x, 1.0 - j) <= x <= Times(x, 1.0 + j)
  {
    assert x * (1.0 - j) == x - x * j && x * (1.0 + j) == x + x * j;
    assert 0.0 <= x * j <= x;
  }

  /** Later attempts never wait within smaller bounds. */
  lemma BoundsGrow(b: Backoff, attempt: nat, later: nat)
    requires Sound(b) && 1 <= attempt <= later
    ensures Base(b, attempt) <= Base(b, later)
    ensures Low(b, attempt) <= Low(b, later) && High(b, attempt) <= High(b, later)
  {
    var i := if attempt - 1 < |b.schedule| - 1 then attempt - 1 else |b.schedule| - 1;
    var j := if later - 1 < |b.schedule| - 1 then later - 1 else |b.schedule| - 1;
    ScheduleGrows(b, i, j);
    Scale(Base(b, attempt), Base(b, later), 1.0 - b.jitter);
    Scale(Base(b, attempt), Base(b, later), 1.0 + b.jitter);
  }

  lemma Scale(x: real, y: real, factor: real)
    requires x <= y && factor >= 0.0
    ensures Times(x, factor) <= Times(y, factor)
  {
  }

  lemma {:induction false} ScheduleGrows(b: Backoff, i: nat, j: nat)
    requires Sound(b) && i <= j < |b.schedule|
    ensures b.schedule[i] <= b.schedule[j]
    decreases j
  {
    if i < j { ScheduleGrows(b, i, j - 1); }
  }

  datatype Decision = Decision(retry: bool, at: Option<real>, exhausted: bool)

  /** Only transient failures with attempts left are retried. */
  function Decide(c: Classification, attempt: nat, maxAttempts: nat, now: real, delay: real): Decision {
    if c != Transient then Decision(false, None, false)
    else if attempt >= maxAttempts then Decision(false, None, true)
    else Decision(true, Some(now + delay), false)
  }

  /** What a failure asks the repository for. */
  function RetryTransition(job: Job, c: Classification, now: real, delay: real): Request {
    var d := Decide(c, job.attempt, job.maxAttempts, now, delay);
    Request(job.state, if d.retry then RetryWait else Failed, now, d.at, true, d.exhausted)
  }

  /** Where the retry policy and the repository do not agree: the request made for a failed job is
      refused if and only if a retry is due after no delay at all, which a schedule of zero, or a
      jitter factor of one, allows. */
  lemma RetryIsRefusedIff(job: Job, c: Classification, now: real, b: Backoff, sampled: real)
    requires Sound(b) && 1 <= job.attempt <= job.maxAttempts && job.state in {Running, WaitingExternal}
    requires job.updatedAt <= now && DelayFor(b, job.attempt, sampled).Some?
    ensures Apply(job, RetryTransition(job, c, now, DelayFor(b, job.attempt, sampled).value)).Failure?
       <==> c == Transient && job.attempt < job.maxAttempts && sampled <= 0.0
  {
  }

  /** A positive schedule with a jitter factor below one never asks for that. */
  lemma PositiveSchedulesAreAccepted(job: Job, c: Classification, now: real, b: Backoff, sampled: real)
    requires Sound(b) && b.schedule[0] > 0.0 && b.jitter < 1.0
    requires 1 <= job.attempt <= job.maxAttempts && job.state in {Running, WaitingExternal}
    requires job.updatedAt <= now && DelayFor(b, job.attempt, sampled).Some?
    ensures Apply(job, RetryTransition(job, c, now, DelayFor(b, job.attempt, sampled).value)).Success?
  {
    BoundsGrow(b, 1, job.attempt);
    assert Base(b, 1) == b.schedule[0];
    Positive(Base(b, job.attempt), 1.0 - b.jitter);
    assert Low(b, job.attempt) > 0.0;
    assert sampled >= Low(b, job.attempt);
    RetryIsRefusedIff(job, c, now, b, sampled);
  }

  lemma Positive(x: real, y: real)
    requires x > 0.0 && y > 0.0
    ensures Times(x, y) > 0.0
  {
  }

  /** What an accepted failure leaves: a retry within the jitter bounds while attempts remain and
      the failure is transient, and otherwise the end, exhausted only for a transient failure. */
  lemma FailureOutcome(job: Job, c: Classification, now: real, b: Backoff, sampled: real, after: Job)
    requires Sound(b) && 1 <= job.attempt <= job.maxAttempts && job.state in {Running, WaitingExternal}
    requires DelayFor(b, job.attempt, sampled).Some?
    requires Apply(job, RetryTransition(job, c, now, DelayFor(b, job.attempt, sampled).value)) == Success(after)
    ensures after.state in {RetryWait, Failed} && after.attempt == job.attempt
    ensures after.state == RetryWait <==> c == Transient && job.attempt < job.maxAttempts
    ensures after.state == RetryWait ==> after.nextRetry.Some?
    ensures after.state == RetryWait ==>
      now + Low(b, job.attempt) <= after.nextRetry.value <= now + High(b, job.attempt)
    ensures after.exhausted <==> c == Transient && job.attempt == job.maxAttempts
  {
    BoundsAreOrdered(b, job.attempt);
  }

  // ------------------------------------------------------------------ promotion

  /** A job that waits was given its retry time after it failed. */
  predicate RowOk(job: Job) {
    && job.attempt <= job.maxAttempts
    && (job.state == RetryWait ==> job.nextRetry.Some? && job.updatedAt < job.nextRetry.value)
  }

  lemma StepKeepsRow(job: Job, move: Move)
    requires RowOk(job) && Step(job, move).Success?
    ensures RowOk(Step(job, move).value)
  {
  }

  /** The retry time has come. */
  predicate IsDue(job: Job, now: real) {
    job.state == RetryWait && job.nextRetry.Some? && job.nextRetry.value <= now
  }

  /** A retry is never due before the backoff after its failure is over. */
  lemma NoEarlyRetry(job: Job, c: Classification, failedAt: real, b: Backoff, sampled: real, waiting: Job, now: real)
    requires Sound(b) && 1 <= job.attempt <= job.maxAttempts && job.state in {Running, WaitingExternal}
    requires DelayFor(b, job.attempt, sampled).Some?
    requires Apply(job, RetryTransition(job, c, failedAt, DelayFor(b, job.attempt, sampled).value)) == Success(waiting)
    requires IsDue(waiting, now)
    ensures failedAt + Low(b, job.attempt) <= now
  {
    FailureOutcome(job, c, failedAt, b, sampled, waiting);
  }

  predicate Due(jobs: map<nat, Job>, id: nat, now: real) { id in jobs && IsDue(jobs[id], now) }

  /** By retry time, then by identity. */
  predicate NotLater(jobs: map<nat, Job>, a: nat, b: nat)
    requires a in jobs && b in jobs && jobs[a].nextRetry.Some? && jobs[b].nextRetry.Some?
  {
    || jobs[a].nextRetry.value < jobs[b].nextRetry.value
    || (jobs[a].nextRetry.value == jobs[b].nextRetry.value && a <= b)
  }

  /** The due retries that a promotion takes: distinct, and all of them, or the earliest ones up to
      the limit. */
  ghost predicate TakesDue(jobs: map<nat, Job>, now: real, limit: nat, due: seq<nat>) {
    && |due| <= limit && (forall i :: 0 <= i < |due| ==> Due(jobs, due[i], now))
    && (forall i, j :: 0 <= i < j < |due| ==> due[i] != due[j])
    && forall id :: Due(jobs, id, now) && id !in due ==>
         |due| == limit && forall k :: 0 <= k < |due| ==> NotLater(jobs, due[k], id)
  }

  /** A due retry goes back into the queue with the attempts it has, or ends for want of them. */
  predicate Promoted(before: Job, after: Job) {
    && after.attempt == before.attempt && after.maxAttempts == before.maxAttempts
    && after.state == (if before.attempt >= before.maxAttempts then Failed else Queued)
    && (after.exhausted <==> before.attempt >= before.maxAttempts)
  }

  /** Which of the taken jobs had attempts left, and which had none. */
  ghost predicate Split(before: map<nat, Job>, taken: seq<nat>, promoted: seq<nat>, exhausted: seq<nat>) {
    && (forall id :: id in promoted <==> id in taken && id in before && before[id].attempt < before[id].maxAttempts)
    && (forall id :: id in exhausted <==> id in taken && id in before && before[id].attempt >= before[id].maxAttempts)
  }

  lemma SplitMore(before: map<nat, Job>, taken: seq<nat>, promoted: seq<nat>, exhausted: seq<nat>, id: nat)
    requires Split(before, taken, promoted, exhausted) && id in before
    ensures var left := before[id].attempt < before[id].maxAttempts;
      Split(before, taken + [id], if left then promoted + [id] else promoted, if left then exhausted else exhausted + [id])
  {
  }

  /** What the repository accepts: a fresh state, a move of the table, attempts left for a start or
      a retry, and for a retry an error and a time that is still to come. */
  predicate Acceptable(job: Job, r: Request) {
    && r.expected == job.state && job.updatedAt <= r.at && r.target in Successors(job.state)
    && (r.target in {Running, RetryWait} ==> job.attempt < job.maxAttempts)
    && (r.target == RetryWait ==> r.hasError && r.nextRetry.Some? && r.at < r.nextRetry.value)
  }

  class JobRepository {
    var jobs: map<nat, Job>

    ghost predicate Valid()
      reads this
    {
      forall id :: id in jobs ==> RowOk(jobs[id])
    }

    constructor (jobs: map<nat, Job>)
      requires forall id :: id in jobs ==> RowOk(jobs[id])
      ensures Valid() && this.jobs == jobs
    {
      this.jobs := jobs;
    }

    /** An acceptable transition is stored, counts an attempt exactly when it starts one, and brings
        the job closer to its end; anything else changes nothing. */
    method ApplyTransition(id: nat, r: Request) returns (outcome: Result<Job, Refusal>)
      requires Valid() && id in jobs
      modifies this
      ensures Valid() && jobs.Keys == old(jobs).Keys
      ensures outcome.Success? <==> Acceptable(old(jobs)[id], r)
      ensures outcome.Success? ==> jobs[id] == outcome.value && jobs[id].state == r.target && jobs[id].updatedAt == r.at
      ensures outcome.Success? ==> Measure(jobs[id]) < Measure(old(jobs)[id])
      ensures outcome.Success? ==> jobs[id].maxAttempts == old(jobs)[id].maxAttempts
      ensures outcome.Success? ==> jobs[id].attempt == old(jobs)[id].attempt + if r.target == Running then 1 else 0
      ensures outcome.Success? && r.target != Running ==>
        jobs[id].nextRetry == r.nextRetry && jobs[id].exhausted == r.exhausted
      ensures forall other :: other in jobs && (other != id || outcome.Failure?) ==> jobs[other] == old(jobs)[other]
    {
      outcome := Apply(jobs[id], r);
      if outcome.Success? {
        StepDescends(jobs[id], Moved(r));
        StepKeepsRow(jobs[id], Moved(r));
        jobs := jobs[id := outcome.value];
      }
    }

    /** The earliest due retry that was not taken yet. */
    method EarliestDue(now: real, taken: seq<nat>) returns (found: Option<nat>)
      ensures found.None? ==> forall id :: Due(jobs, id, now) ==> id in taken
      ensures found.Some? ==> Due(jobs, found.value, now) && found.value !in taken
      ensures found.Some? ==>
        forall id :: Due(jobs, id, now) && id !in taken ==> NotLater(jobs, found.value, id)
    {
      var rest := jobs.Keys;
      found := None;
      while rest != {}
        invariant rest <= jobs.Keys
        invariant found.None? ==> forall id :: Due(jobs, id, now) && id !in rest ==> id in taken
        invariant found.Some? ==> Due(jobs, found.value, now) && found.value !in taken
        invariant found.Some? ==>
          forall id :: Due(jobs, id, now) && id !in taken && id !in rest ==> NotLater(jobs, found.value, id)
        decreases |rest|
      {
        var id :| id in rest;
        rest := rest - {id};
        if IsDue(jobs[id], now) && id !in taken && (found.None? || NotLater(jobs, id, found.value)) {
          found := Some(id);
        }
      }
    }

    /** The query for due retries, earliest first, up to a limit. */
    method DueRetries(now: real, limit: nat) returns (due: seq<nat>)
      ensures TakesDue(jobs, now, limit, due)
    {
      due := [];
      while |due| < limit
        invariant |due| <= limit && (forall i :: 0 <= i < |due| ==> Due(jobs, due[i], now))
        invariant forall i, j :: 0 <= i < j < |due| ==> due[i] != due[j]
        invariant forall id, k :: Due(jobs, id, now) && id !in due && 0 <= k < |due| ==> NotLater(jobs, due[k], id)
        decreases limit - |due|
      {
        var next := EarliestDue(now, due);
        if next.None? { return; }
        due := due + [next.value];
      }
    }

    method PromoteOne(id: nat, now: real) returns (left: bool)
      requires Valid() && Due(jobs, id, now)
      modifies this
      ensures Valid() && jobs.Keys == old(jobs).Keys && Promoted(old(jobs)[id], jobs[id])
      ensures left <==> old(jobs)[id].attempt < old(jobs)[id].maxAttempts
      ensures forall other :: other in jobs && other != id ==> jobs[other] == old(jobs)[other]
    {
      assert RowOk(jobs[id]);
      left := jobs[id].attempt < jobs[id].maxAttempts;
      if left {
        var _ := ApplyTransition(id, Request(RetryWait, Queued, now, None, true, false));
      } else {
        var _ := ApplyTransition(id, Request(RetryWait, Failed, now, None, true, true));
      }
    }

    /** Put every due retry back into the queue; one without attempts left ends instead. */
    method PromoteDueRetries(now: real, limit: nat) returns (promoted: seq<nat>, exhausted: seq<nat>, ghost due: seq<nat>)
      requires Valid()
      modifies this
      ensures Valid() && jobs.Keys == old(jobs).Keys && TakesDue(old(jobs), now, limit, due)
      ensures forall id :: id in jobs && id !in due ==> jobs[id] == old(jobs)[id]
      ensures forall id :: id in due ==> id in old(jobs) && Promoted(old(jobs)[id], jobs[id])
      ensures Split(old(jobs), due, promoted, exhausted)
    {
      promoted, exhausted := [], [];
      var taken := DueRetries(now, limit);
      due := taken;
      var i := 0;
      while i < |taken|
        invariant 0 <= i <= |taken| && jobs.Keys == old(jobs).Keys && Valid()
        invariant forall id :: id in jobs && id !in taken[..i] ==> jobs[id] == old(jobs)[id]
        invariant forall k :: 0 <= k < i ==> Promoted(old(jobs)[taken[k]], jobs[taken[k]])
        invariant Split(old(jobs), taken[..i], promoted, exhausted)
      {
        var id := taken[i];
        assert id !in taken[..i];
        assert taken[..i + 1] == taken[..i] + [id];
        assert Due(old(jobs), id, now);
        SplitMore(old(jobs), taken[..i], promoted, exhausted, id);
        var left := PromoteOne(id, now);
        if left { promoted := promoted + [id]; } else { exhausted := exhausted + [id]; }
        i := i + 1;
      }
      assert taken[..i] == taken;
    }
  }
}
