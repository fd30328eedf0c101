// The job state machine: frozen job records, the transition table and the pure
// operations on one record (jobs.py, first half). Times are whole seconds.

module Jobs {
  import opened Basics
  import opened Ids

  datatype JobStatus = Accepted | Quarantined | Running | Retry | Succeeded | DeadLetter | Rejected

  predicate Claimable(s: JobStatus) {
    s.Accepted? || s.Retry?
  }

  predicate Terminal(s: JobStatus) {
    s.Succeeded? || s.DeadLetter? || s.Rejected?
  }

  // The fields of a row that no operation changes ..
  datatype JobInfo = JobInfo(
    vendorId: Uuid,
    jobId: Uuid,
    objectKey: string,
    maxRetries: nat,
    idempotencyKey: string,
    originalFilename: Option<string>,
    contentSha256: Option<string>,
    createdAt: nat)

  // .. and those they do.
  datatype JobRecord = JobRecord(
    info: JobInfo,
    status: JobStatus,
    attemptCount: nat,
    leaseOwner: Option<string>,
    leaseExpiresAt: Option<nat>,
    resultSummary: Option<string>,
    updatedAt: nat)
  {
    function Id(): Uuid { info.jobId }

    function MaxAttempts(): nat { info.maxRetries + 1 }

    function AttemptsRemaining(): nat {
      if attemptCount <= MaxAttempts() then MaxAttempts() - attemptCount else 0
    }
  }

  datatype JobAttempt = JobAttempt(jobId: Uuid, attemptNumber: nat, outcome: string, detail: Option<string>)

  datatype IllegalTransition = IllegalTransition(current: JobStatus, target: JobStatus)
  datatype Result = Ok(job: JobRecord) | Raised(error: IllegalTransition)

  // The edges of the transition table.
  predicate Allowed(current: JobStatus, target: JobStatus) {
    match current
    case Quarantined => target.Accepted? || target.Rejected?
    case Accepted => target.Running?
    case Retry => target.Running?
    case Running => target.Succeeded? || target.Retry? || target.DeadLetter?
    case _ => false
  }

  function NewJob(vendorId: Uuid, jobId: Uuid, objectKey: string, scanRequired: bool, filename: Option<string>,
                  sha256: Option<string>, maxRetries: nat, now: nat): JobRecord {
    JobRecord(JobInfo(vendorId, jobId, objectKey, maxRetries, Text(vendorId) + ":" + Text(jobId), filename, sha256, now),
              if scanRequired then Quarantined else Accepted, 0, None, None, None, now)
  }

  function WithStatus(job: JobRecord, status: JobStatus, summary: Option<string>, clearLease: bool, now: nat): JobRecord {
    job.(status := status,
         leaseOwner := if clearLease then None else job.leaseOwner,
         leaseExpiresAt := if clearLease then None else job.leaseExpiresAt,
         resultSummary := if summary.Some? then summary else job.resultSummary,
         updatedAt := now)
  }

  // `claim_job`: note that no attempt ceiling is consulted here.
  function Claim(job: JobRecord, owner: string, now: nat, leaseSeconds: nat): Result {
    if !Claimable(job.status) then Raised(IllegalTransition(job.status, Running))
    else Ok(job.(status := Running, attemptCount := job.attemptCount + 1, leaseOwner := Some(owner),
                 leaseExpiresAt := Some(now + leaseSeconds), updatedAt := now))
  }

  function CompleteSuccess(job: JobRecord, summary: string, now: nat): Result {
    if !Allowed(job.status, Succeeded) then Raised(IllegalTransition(job.status, Succeeded))
    else Ok(WithStatus(job, Succeeded, Some(summary), false, now))
  }

  // The table is asked about RETRY even when the outcome is DEAD_LETTER.
  function CompleteRetryableFailure(job: JobRecord, reason: string, now: nat): Result {
    if !Allowed(job.status, Retry) then Raised(IllegalTransition(job.status, Retry))
    else if job.attemptCount >= job.MaxAttempts() then Ok(WithStatus(job, DeadLetter, Some(reason), true, now))
    else Ok(WithStatus(job, Retry, Some(reason), true, now))
  }

  function CompleteTerminalFailure(job: JobRecord, reason: string, now: nat): Result {
    if !Allowed(job.status, DeadLetter) then Raised(IllegalTransition(job.status, DeadLetter))
    else Ok(WithStatus(job, DeadLetter, Some(reason), true, now))
  }

  function ReleaseQuarantine(job: JobRecord, now: nat): Result {
    if !Allowed(job.status, Accepted) then Raised(IllegalTransition(job.status, Accepted))
    else Ok(WithStatus(job, Accepted, None, true, now))
  }

  function RejectQuarantine(job: JobRecord, reason: string, now: nat): Result {
    if !Allowed(job.status, Rejected) then Raised(IllegalTransition(job.status, Rejected))
    else Ok(WithStatus(job, Rejected, Some(reason), true, now))
  }

  predicate LeaseExpired(job: JobRecord, now: nat) {
    job.status.Running? && job.leaseExpiresAt.Some? && job.leaseExpiresAt.value <= now
  }

  function ReleaseExpiredLease(job: JobRecord, now: nat): Result {
    if !LeaseExpired(job, now) then Raised(IllegalTransition(job.status, Retry))
    else if job.attemptCount >= job.MaxAttempts() then
      Ok(WithStatus(job, DeadLetter, Some("lease expired with attempts exhausted"), true, now))
    else Ok(WithStatus(job, Retry, Some("lease expired"), true, now))
  }

  // ----- what the operations keep -----

  // A row of the ledger: its attempts stay under the ceiling, a claimable row has
  // an attempt left, and a lease exists exactly where the row is RUNNING or SUCCEEDED.
  predicate RowOk(job: JobRecord) {
    && job.attemptCount <= job.MaxAttempts()
    && (Claimable(job.status) ==> job.attemptCount <= job.info.maxRetries)
    && (job.status.Accepted? || job.status.Quarantined? || job.status.Rejected? <==> job.attemptCount == 0)
    && (job.status.Running? || job.status.Succeeded? <==> job.leaseExpiresAt.Some?)
  }

  datatype JobOp =
    | OpClaim(owner: string, leaseSeconds: nat)
    | OpSuccess(summary: string)
    | OpRetryable(reason: string)
    | OpTerminal(reason: string)
    | OpRelease
    | OpReject(reason: string)
    | OpExpire

  function ApplyOp(job: JobRecord, op: JobOp, now: nat): Result {
    match op
    case OpClaim(owner, leaseSeconds) => Claim(job, owner, now, leaseSeconds)
    case OpSuccess(summary) => CompleteSuccess(job, summary, now)
    case OpRetryable(reason) => CompleteRetryableFailure(job, reason, now)
    case OpTerminal(reason) => CompleteTerminalFailure(job, reason, now)
    case OpRelease => ReleaseQuarantine(job, now)
    case OpReject(reason) => RejectQuarantine(job, reason, now)
    case OpExpire => ReleaseExpiredLease(job, now)
  }

  // Where each operation leads: only a failure that may be retried asks for the ceiling.
  predicate Leads(job: JobRecord, op: JobOp, status: JobStatus) {
    match op
    case OpClaim(_, _) => status.Running?
    case OpSuccess(_) => status.Succeeded?
    case OpTerminal(_) => status.DeadLetter?
    case OpRelease => status.Accepted?
    case OpReject(_) => status.Rejected?
    case _ => if job.attemptCount > job.info.maxRetries then status.DeadLetter? else status.Retry?
  }

  // A claim takes the lease, a success leaves it in the row, everything else drops it.
  predicate LeaseAfter(job: JobRecord, op: JobOp, now: nat, after: JobRecord) {
    match op
    case OpClaim(owner, leaseSeconds) => after.leaseOwner == Some(owner) && after.leaseExpiresAt == Some(now + leaseSeconds)
    case OpSuccess(_) => after.leaseOwner == job.leaseOwner && after.leaseExpiresAt == job.leaseExpiresAt
    case _ => after.leaseOwner.None? && after.leaseExpiresAt.None?
  }

  function SummaryAfter(job: JobRecord, op: JobOp): Option<string> {
    match op
    case OpClaim(_, _) => job.resultSummary
    case OpRelease => job.resultSummary
    case OpSuccess(summary) => Some(summary)
    case OpRetryable(reason) => Some(reason)
    case OpTerminal(reason) => Some(reason)
    case OpReject(reason) => Some(reason)
    case OpExpire => Some(if job.attemptCount > job.info.maxRetries then "lease expired with attempts exhausted" else "lease expired")
  }

  // The records an operation accepts ..
  predicate Accepts(job: JobRecord, op: JobOp, now: nat) {
    match op
    case OpClaim(_, _) => job.status.Accepted? || job.status.Retry?
    case OpRelease => job.status.Quarantined?
    case OpReject(_) => job.status.Quarantined?
    case OpExpire => job.status.Running? && job.leaseExpiresAt.Some? && now >= job.leaseExpiresAt.value
    case _ => job.status.Running?
  }

  // .. and the move it names when it raises.
  function Wanted(op: JobOp): JobStatus {
    match op
    case OpClaim(_, _) => Running
    case OpSuccess(_) => Succeeded
    case OpTerminal(_) => DeadLetter
    case OpRelease => Accepted
    case OpReject(_) => Rejected
    case _ => Retry
  }

  // Every record operation raises exactly outside its states. One that does not raise
  // follows an edge of the table, keeps the identity of the row and keeps RowOk; only a claim
  // consumes an attempt, and only a claim and a release leave the summary alone.
  lemma OperationsFollowTable(job: JobRecord, op: JobOp, now: nat)
    ensures ApplyOp(job, op, now).Ok? <==> Accepts(job, op, now)
    ensures ApplyOp(job, op, now).Raised? ==> ApplyOp(job, op, now).error == IllegalTransition(job.status, Wanted(op))
    ensures ApplyOp(job, op, now).Ok? ==>
              var after := ApplyOp(job, op, now).job;
              && Allowed(job.status, after.status) && Leads(job, op, after.status)
              && LeaseAfter(job, op, now, after)
              && after.info == job.info && after.updatedAt == now
              && after.attemptCount == job.attemptCount + (if op.OpClaim? then 1 else 0)
              && after.resultSummary == SummaryAfter(job, op)
              && (RowOk(job) ==> RowOk(after))
  {
  }

  // Some operation moves some record along the edge.
  ghost predicate Taken(current: JobStatus, target: JobStatus) {
    exists job: JobRecord, op, now ::
      job.status == current && ApplyOp(job, op, now).Ok? && ApplyOp(job, op, now).job.status == target
  }

  // The table has exactly the edges that the operations take; the claimable states are those
  // with an edge to RUNNING, the terminal ones those with no edge at all.
  lemma TableIsExact(current: JobStatus, target: JobStatus)
    ensures Allowed(current, target) <==> Taken(current, target)
    ensures Claimable(current) <==> Taken(current, Running)
    ensures Terminal(current) <==> forall any :: !Taken(current, any)
  {
    forall any | Allowed(current, any)
      ensures Taken(current, any)
    {
      EdgeTaken(current, any);
    }
    forall any | Taken(current, any)
      ensures Allowed(current, any)
    {
      var job: JobRecord, op, now :|
        job.status == current && ApplyOp(job, op, now).Ok? && ApplyOp(job, op, now).job.status == any;
      OperationsFollowTable(job, op, now);
    }
    hide Taken;
    if !Terminal(current) {
      assert Allowed(current, if current.Quarantined? then Rejected else if current.Running? then DeadLetter else Running);
    }
  }

  lemma EdgeTaken(current: JobStatus, target: JobStatus)
    requires Allowed(current, target)
    ensures Taken(current, target)
  {
    var u := Uuid(0);
    var job := NewJob(u, u, "", false, None, None, 1, 0).(status := current);
    var op := match target
      case Running => OpClaim("", 0)
      case Succeeded => OpSuccess("")
      case Retry => OpRetryable("")
      case DeadLetter => OpTerminal("")
      case Accepted => OpRelease
      case _ => OpReject("");
    assert ApplyOp(job, op, 0).Ok? && ApplyOp(job, op, 0).job.status == target;
  }
}
