/**
 * Bootstrap work as its transactions leave it in the database: operations, their one invitation,
 * scheduling jobs, leases and immutable attempt records. Each function is one transaction; a
 * refusal rolls back. An operation id stands for the (tenant, operation) pair.
 */
module BootstrapModel {
  import opened Ids
  import Backoff

  datatype OpStatus = Pending | Waiting | Succeeded | AttentionRequired | Superseded
  datatype InvitationStatus = InvitationPending | InvitationExpired | InvitationAccepted | InvitationCancelled

  datatype Invitation = Invitation(generation: int, expiresAt: Time, status: InvitationStatus, version: int)

  /** `result` is the worker-result row, `invitations` the rows bound to this operation. */
  datatype Operation = Operation(
    status: OpStatus, version: int, superseded: bool,
    result: Option<Uuid>, invitations: map<Uuid, Invitation>)

  datatype Kind = Initialize | Expire
  datatype JobKey = JobKey(operation: Uuid, kind: Kind, generation: int)
  datatype Lease = Lease(id: Uuid, until: Time)
  datatype JobState = JobPending | JobClaimed(lease: Lease) | JobAttention | JobDone

  datatype Job = Job(
    state: JobState, attempts: int, cycleStart: int, recovery: Option<Uuid>, available: Time, lastError: Code)

  datatype Code = NoCode | AuthorityUnavailable | LifecycleStale | LifecycleBlocked | InvalidIntent
                | IntentConflict | DependencyUnavailable | ExecutionFailed | LeaseExpired

  datatype AttemptOutcome = Completed | Deferred | Retry | Attention | LeaseRanOut | RecoveredCompletion

  datatype AttemptKey = AttemptKey(job: JobKey, number: int)
  datatype Attempt = Attempt(lease: Uuid, outcome: AttemptOutcome, code: Code, recovery: Option<Uuid>)

  datatype Claim = Claim(key: JobKey, lease: Uuid, attempt: int, cycleStart: int, recovery: Option<Uuid>, until: Time)

  /** `issued` remembers every lease id ever handed out. */
  datatype Db = Db(
    clock: Time,
    operations: map<Uuid, Operation>,
    jobs: map<JobKey, Job>,
    attempts: map<AttemptKey, Attempt>,
    issued: set<Uuid>)

  datatype Failure = Invalid | Conflict | BrokerAuthority | Authority | Stale | Blocked | Dependency
                   | LeaseLost | NotFound | VersionConflict | Storage

  datatype Result<+T> = Ok(value: T) | Err(error: Failure)

  const MaxAttempts := 20
  const LeaseTime: Time := 30 * Second

  function RetryDelay(attempt: int): Time { Backoff.BootstrapDelay(attempt) / 1000 }

  /** The row the worker result points at. */
  function BoundInvitation(op: Operation): Option<Invitation> {
    if op.result.Some? && op.result.value in op.invitations then Some(op.invitations[op.result.value]) else None
  }

  predicate Final(op: Operation) { op.superseded || op.status == Succeeded || op.status == AttentionRequired }

  /** Whether business state already settles the job, and when its work falls due. */
  function ScheduleOutcome(op: Operation, kind: Kind, generation: int, now: Time): Result<(bool, Time)> {
    if Final(op) then Ok((true, now))
    else if kind == Initialize then Ok((op.status == Waiting, now))
    else if op.status != Waiting then Err(Conflict)
    else match BoundInvitation(op)
      case None => Err(Storage)
      case Some(inv) => Ok((inv.generation != generation, inv.expiresAt))
  }

  /** The insert trigger: generation 1 to initialize, the current invitation generation to expire. */
  predicate MayCreate(op: Operation, key: JobKey) {
    && key.generation >= 1
    && (key.kind == Initialize ==> key.generation == 1)
    && (key.kind == Expire ==> BoundInvitation(op).Some? && BoundInvitation(op).value.generation == key.generation)
  }

  /** Appends the attempt record of the current claim and closes its lease. */
  function FinishJob(db: Db, key: JobKey, state: JobState, outcome: AttemptOutcome, code: Code, available: Time): Result<Db>
    requires key in db.jobs && db.jobs[key].state.JobClaimed?
  {
    var j := db.jobs[key];
    var slot := AttemptKey(key, j.attempts);
    var lease := j.state.lease.id;
    if slot in db.attempts || (exists k | k in db.attempts :: db.attempts[k].lease == lease) then Err(Storage)
    else Ok(db.(
      attempts := db.attempts[slot := Attempt(lease, outcome, code, j.recovery)],
      jobs := db.jobs[key := j.(state := state, available := available, lastError := code)]))
  }

  datatype ClaimAnswer = Found(claim: Claim) | Nothing | Failed(error: Failure)

  function Committed(db: Db, r: Result<Db>): (Db, ClaimAnswer) {
    match r case Ok(next) => (next, Nothing) case Err(e) => (db, Failed(e))
  }

  /** A claimed job: wait for a live lease, otherwise close the abandoned attempt. */
  function Recover(db: Db, key: JobKey, terminal: bool, retryAt: Time): (Db, ClaimAnswer)
    requires key in db.jobs && db.jobs[key].state.JobClaimed?
  {
    var j := db.jobs[key];
    var used := j.attempts - j.cycleStart;
    if j.state.lease.until > db.clock then (db, Nothing)
    else if terminal then Committed(db, FinishJob(db, key, JobDone, RecoveredCompletion, NoCode, db.clock))
    else Committed(db, FinishJob(db, key, if used >= MaxAttempts then JobAttention else JobPending,
                                 LeaseRanOut, LeaseExpired, retryAt))
  }

  /** A pending job: lease it when it is due and still needed. */
  function Begin(db: Db, key: JobKey, schedule: (bool, Time), lease: Uuid): (Db, ClaimAnswer)
    requires key in db.jobs
  {
    var j := db.jobs[key];
    if schedule.0 || j.available > db.clock || schedule.1 > db.clock then (db, Nothing)
    else if j.attempts + 1 - j.cycleStart > MaxAttempts then (db, Failed(Storage))
    else (Leased(db, key, lease), Found(Claim(key, lease, j.attempts + 1, j.cycleStart, j.recovery, db.clock + LeaseTime)))
  }

  function Leased(db: Db, key: JobKey, lease: Uuid): Db requires key in db.jobs {
    var j := db.jobs[key];
    db.(jobs := db.jobs[key := j.(state := JobClaimed(Lease(lease, db.clock + LeaseTime)), attempts := j.attempts + 1)],
        issued := db.issued + {lease})
  }

  function RetryAt(db: Db, key: JobKey): Time requires key in db.jobs {
    db.clock + RetryDelay(db.jobs[key].attempts - db.jobs[key].cycleStart)
  }

  function ClaimExisting(db: Db, key: JobKey, lease: Uuid, retryAt: Time): (Db, ClaimAnswer)
    requires key in db.jobs && key.operation in db.operations
  {
    var j := db.jobs[key];
    if j.state == JobDone || j.state == JobAttention then (db, Nothing)
    else match ScheduleOutcome(db.operations[key.operation], key.kind, key.generation, db.clock)
      case Err(e) => (db, Failed(e))
      case Ok(schedule) =>
        if j.state.JobClaimed? then Recover(db, key, schedule.0, retryAt)
        else Begin(db, key, schedule, lease)
  }

  function NewJob(db: Db, key: JobKey): Db { db.(jobs := db.jobs[key := Job(JobPending, 0, 0, None, db.clock, NoCode)]) }

  /** The transaction Claim runs for one discovered candidate, under a fresh lease id. */
  function ClaimOne(db: Db, key: JobKey, lease: Uuid): (Db, ClaimAnswer) {
    if !IsV7(key.operation) then (db, Failed(Invalid))
    else if key.operation !in db.operations then (db, Failed(Conflict))
    else if key in db.jobs then ClaimExisting(db, key, lease, RetryAt(db, key))
    else if !MayCreate(db.operations[key.operation], key) then (db, Failed(Storage))
    else
      var r := ClaimExisting(NewJob(db, key), key, lease, RetryAt(NewJob(db, key), key));
      if r.1.Failed? then (db, r.1) else r
  }

  function Classify(failure: Option<Failure>): (Code, bool) {
    match failure
    case None => (NoCode, false)
    case Some(BrokerAuthority) => (AuthorityUnavailable, true)
    case Some(Authority) => (AuthorityUnavailable, false)
    case Some(Stale) => (LifecycleStale, false)
    case Some(Blocked) => (LifecycleBlocked, false)
    case Some(Invalid) => (InvalidIntent, true)
    case Some(Conflict) => (IntentConflict, true)
    case Some(Storage) => (DependencyUnavailable, false)
    case Some(Dependency) => (DependencyUnavailable, false)
    case _ => (ExecutionFailed, false)
  }

  predicate ValidFinish(c: Claim, code: Code, permanent: bool) {
    && IsV7(c.lease) && c.attempt >= 1 && c.cycleStart >= 0 && 1 <= c.attempt - c.cycleStart <= MaxAttempts && c.key.generation >= 1
    && (permanent ==> code == InvalidIntent || code == IntentConflict || code == AuthorityUnavailable)
    && (!permanent ==> code != InvalidIntent && code != IntentConflict)
    && code != LeaseExpired && IsV7(c.key.operation)
  }

  /** The claim is the job's current one and its lease has not run out. */
  predicate HoldsLease(db: Db, c: Claim) {
    && c.key in db.jobs && db.jobs[c.key].state.JobClaimed? && db.jobs[c.key].state.lease.id == c.lease
    && db.jobs[c.key].state.lease.until > db.clock
    && db.jobs[c.key].attempts == c.attempt && db.jobs[c.key].cycleStart == c.cycleStart && db.jobs[c.key].recovery == c.recovery
  }

  /** Saves a worker's outcome; the flag asks for an operator's attention. */
  function Finish(db: Db, c: Claim, code: Code, permanent: bool): Result<(Db, bool)> {
    FinishWith(db, c, code, permanent, if c.key in db.jobs then RetryAt(db, c.key) else db.clock)
  }

  function FinishWith(db: Db, c: Claim, code: Code, permanent: bool, retryAt: Time): Result<(Db, bool)> {
    if !ValidFinish(c, code, permanent) then Err(Invalid)
    else if c.key.operation !in db.operations then Err(Conflict)
    else if !HoldsLease(db, c) then Err(LeaseLost)
    else
      var op := db.operations[c.key.operation];
      match ScheduleOutcome(op, c.key.kind, c.key.generation, db.clock)
      case Err(e) => Err(e)
      case Ok(schedule) =>
        if schedule.0 then Flagged(FinishJob(db, c.key, JobDone, Completed, NoCode, db.clock), op.status == AttentionRequired)
        else if code == NoCode then
          if c.key.kind != Expire || schedule.1 <= db.clock then Err(Conflict)
          else Flagged(FinishJob(db, c.key, JobPending, Deferred, NoCode, schedule.1), false)
        else
          var stop := permanent || c.attempt - c.cycleStart >= MaxAttempts;
          Flagged(FinishJob(db, c.key, if stop then JobAttention else JobPending, if stop then Attention else Retry, code,
                            retryAt), stop)
  }

  function Flagged(r: Result<Db>, attention: bool): Result<(Db, bool)> {
    match r case Ok(next) => Ok((next, attention)) case Err(e) => Err(e)
  }

  /** What other subsystems answer while a worker transaction runs. */
  datatype Surroundings = Surroundings(
    intent: bool, authority: Option<Failure>, accessExists: bool, current: bool, active: bool, catalog: bool,
    recheck: Option<Failure>, now: Time)

  datatype WorkerResult = WorkerResult(invitation: Option<Uuid>, status: OpStatus)

  const InvitationLifetime: Time := 7 * 24 * Hour

  /** CoreBootstrapWorker.Reconcile: create the one invitation, or return the result kept before. */
  function Reconcile(db: Db, id: Uuid, invitation: Uuid, w: Surroundings): Result<(Db, WorkerResult)> {
    if !IsV7(id) then Err(Invalid)
    else if id !in db.operations then Err(Conflict)
    else
      var op := db.operations[id];
      if !w.intent then Err(Invalid)
      else if w.authority.Some? then Err(w.authority.value)
      else if op.superseded then Err(Conflict)
      else if op.result.Some? then Ok((db, WorkerResult(op.result, op.status)))
      else if op.status != Pending || op.version != 1 || w.accessExists then Err(Conflict)
      else if !w.current then Err(Stale)
      else if !w.active then Err(Blocked)
      else if !w.catalog then Err(Authority)
      else if !IsV7(invitation) then Err(Dependency)
      else if invitation in op.invitations then Err(Conflict)
      else if w.recheck.Some? then Err(w.recheck.value)
      else
        var next := op.(status := Waiting, version := op.version + 1, result := Some(invitation),
                        invitations := op.invitations[invitation := Invitation(1, w.now + InvitationLifetime, InvitationPending, 1)]);
        Ok((db.(operations := db.operations[id := next]), WorkerResult(Some(invitation), Waiting)))
  }

  /** CoreBootstrapWorker.ExpireInvitation for one delivery generation; `w.now` is the worker's clock. */
  function ExpireInvitation(db: Db, id: Uuid, generation: int, w: Surroundings): Result<(Db, WorkerResult)> {
    if !IsV7(id) || generation < 1 then Err(Invalid)
    else if id !in db.operations then Err(Conflict)
    else
      var op := db.operations[id];
      var kept := WorkerResult(op.result, op.status);
      if !w.intent then Err(Invalid)
      else if w.authority.Some? then Err(w.authority.value)
      else if Final(op) then Ok((db, kept))
      else if op.status != Waiting || BoundInvitation(op).None? then Err(Conflict)
      else
        var inv := BoundInvitation(op).value;
        if inv.generation != generation || w.now < inv.expiresAt then Ok((db, kept))
        else if inv.status != InvitationPending && inv.status != InvitationExpired then Err(Conflict)
        else if inv.expiresAt > db.clock then Err(Conflict)
        else if w.recheck.Some? then Err(w.recheck.value)
        else
          var ended := if inv.status == InvitationPending then inv.(status := InvitationExpired, version := inv.version + 1) else inv;
          var next := op.(status := AttentionRequired, version := op.version + 1, invitations := op.invitations[op.result.value := ended]);
          Ok((db.(operations := db.operations[id := next]), WorkerResult(op.result, AttentionRequired)))
  }

  /** ReissueTenantBootstrapInvitation: the same invitation under the next delivery generation. */
  function Reissue(db: Db, id: Uuid, expectedVersion: int, w: Surroundings): Result<Db> {
    if !IsV7(id) || expectedVersion < 1 then Err(Invalid)
    else if id !in db.operations then Err(NotFound)
    else
      var op := db.operations[id];
      if !w.intent then Err(Invalid)
      else if op.superseded then Err(Conflict)
      else if w.authority.Some? then Err(w.authority.value)
      else if op.version != expectedVersion then Err(VersionConflict)
      else if BoundInvitation(op).None? || !w.accessExists || (op.status != Waiting && op.status != AttentionRequired) then Err(Conflict)
      else if !w.current then Err(Stale)
      else if !w.active then Err(Blocked)
      else
        var inv := BoundInvitation(op).value;
        if inv.status != InvitationPending && inv.status != InvitationExpired then Err(Conflict)
        else if !w.catalog then Err(Dependency)
        else if w.now + InvitationLifetime <= db.clock then Err(Conflict)
        else if w.recheck.Some? then Err(w.recheck.value)
        else
          var again := Invitation(inv.generation + 1, w.now + InvitationLifetime, InvitationPending, inv.version + 1);
          var next := op.(status := Waiting, version := op.version + 1, invitations := op.invitations[op.result.value := again]);
          Ok(db.(operations := db.operations[id := next]))
  }

  /** RetryTenantBootstrapJob: an operator opens another cycle of a job that asked for attention. */
  function RetryJob(db: Db, key: JobKey, expectedVersion: int, expectedAttempt: int, recovery: Uuid, w: Surroundings): Result<Db> {
    if !IsV7(key.operation) || expectedVersion < 1 || expectedAttempt < 1 || key.generation < 1 || (key.kind == Initialize && key.generation != 1)
    then Err(Invalid)
    else if key.operation !in db.operations then Err(NotFound)
    else
      var op := db.operations[key.operation];
      if !w.intent then Err(Invalid)
      else if op.superseded then Err(Conflict)
      else if w.authority.Some? then Err(w.authority.value)
      else if op.version != expectedVersion then Err(VersionConflict)
      else if !w.current then Err(Stale)
      else if !w.active then Err(Blocked)
      else if key !in db.jobs || (key.kind == Expire && (BoundInvitation(op).None? || BoundInvitation(op).value.generation != key.generation)) then Err(NotFound)
      else
        var j := db.jobs[key];
        if j.state != JobAttention || j.attempts != expectedAttempt then Err(Conflict)
        else if key.kind == Initialize && (op.status != Pending || op.result.Some?) then Err(Conflict)
        else if key.kind == Expire && (op.status != Waiting || BoundInvitation(op).value.status !in {InvitationPending, InvitationExpired}) then Err(Conflict)
        else if !IsV7(recovery) || j.recovery == Some(recovery) then Err(Dependency)
        else if w.recheck.Some? then Err(w.recheck.value)
        else Ok(db.(jobs := db.jobs[key := j.(state := JobPending, cycleStart := j.attempts, recovery := Some(recovery), available := db.clock, lastError := NoCode)]))
  }
}
