/** What the Bootstrap queue and worker promise over every run. */
module BootstrapGuarantees {
  import opened Ids
  import Backoff
  import opened BootstrapModel
  import opened BootstrapRuns

  /** What history never takes back. */
  ghost predicate Later(a: Db, b: Db) {
    && a.clock <= b.clock && a.issued <= b.issued
    && (forall s | s in a.attempts :: s in b.attempts && b.attempts[s] == a.attempts[s])
    && (forall k | k in a.jobs :: k in b.jobs && a.jobs[k].attempts <= b.jobs[k].attempts && (a.jobs[k].state == JobDone ==> b.jobs[k] == a.jobs[k]))
    && (forall id | id in a.operations :: id in b.operations && Evolves(a.operations[id], b.operations[id]))
  }

  lemma FinishJobLater(db: Db, key: JobKey, state: JobState, outcome: AttemptOutcome, code: Code, available: Time)
    requires key in db.jobs && db.jobs[key].state.JobClaimed?
    ensures var r := FinishJob(db, key, state, outcome, code, available); r.Ok? ==> Later(db, r.value)
  {}

  lemma ClaimLater(db: Db, key: JobKey, lease: Uuid)
    ensures Later(db, ClaimOne(db, key, lease).0)
  {
    if key.operation in db.operations {
      if key in db.jobs { ExistingLater(db, key, lease, RetryAt(db, key)); }
      else { ExistingLater(NewJob(db, key), key, lease, RetryAt(NewJob(db, key), key)); }
    }
  }

  lemma RecoverLater(db: Db, key: JobKey, terminal: bool, retryAt: Time)
    requires key in db.jobs && db.jobs[key].state.JobClaimed?
    ensures Later(db, Recover(db, key, terminal, retryAt).0)
  {
    var state := if db.jobs[key].attempts - db.jobs[key].cycleStart >= MaxAttempts then JobAttention else JobPending;
    FinishJobLater(db, key, JobDone, RecoveredCompletion, NoCode, db.clock);
    FinishJobLater(db, key, state, LeaseRanOut, LeaseExpired, retryAt);
  }

  lemma LeasedLater(db: Db, key: JobKey, lease: Uuid)
    requires key in db.jobs && db.jobs[key].state == JobPending
    ensures Later(db, Leased(db, key, lease))
  {}

  lemma ExistingLater(db: Db, key: JobKey, lease: Uuid, retryAt: Time)
    requires key in db.jobs && key.operation in db.operations
    ensures Later(db, ClaimExisting(db, key, lease, retryAt).0)
  {
    if db.jobs[key].state.JobClaimed? {
      RecoverLater(db, key, true, retryAt);
      RecoverLater(db, key, false, retryAt);
    } else if db.jobs[key].state == JobPending {
      LeasedLater(db, key, lease);
    }
  }

  /** A save is FinishJob on a held lease, or refused. */
  lemma SaveIsFinishJob(db: Db, c: Claim, code: Code, permanent: bool, retryAt: Time) returns (state: JobState, outcome: AttemptOutcome, kept: Code, at: Time)
    requires FinishWith(db, c, code, permanent, retryAt).Ok?
    ensures HoldsLease(db, c) && !state.JobClaimed?
    ensures FinishJob(db, c.key, state, outcome, kept, at) == Ok(FinishWith(db, c, code, permanent, retryAt).value.0)
  {
    var t := FinishWith(db, c, code, permanent, retryAt).value.0;
    var j := t.jobs[c.key];
    var a := t.attempts[AttemptKey(c.key, c.attempt)];
    state, outcome, kept, at := j.state, a.outcome, j.lastError, j.available;
  }

  lemma SaveLater(db: Db, c: Claim, code: Code, permanent: bool, retryAt: Time)
    ensures var r := FinishWith(db, c, code, permanent, retryAt); r.Ok? ==> Later(db, r.value.0)
  {
    if FinishWith(db, c, code, permanent, retryAt).Ok? {
      var state, outcome, kept, at := SaveIsFinishJob(db, c, code, permanent, retryAt);
      FinishJobLater(db, c.key, state, outcome, kept, at);
    }
  }

  lemma EvolvedLater(db: Db, t: Db, id: Uuid)
    requires OperationsInv(db) && EvolvesAt(db, t, id)
    ensures Later(db, t)
  {}

  lemma RetryLater(db: Db, key: JobKey, version: int, attempt: int, recovery: Uuid, w: Surroundings)
    ensures var r := RetryJob(db, key, version, attempt, recovery, w); r.Ok? ==> Later(db, r.value)
  {}

  lemma StepLater(db: Db, step: Step)
    requires Inv(db) && Enabled(db, step)
    ensures Later(db, Next(db, step))
  {
    if IsBusiness(step) {
      BusinessEvolves(db, step);
      EvolvedLater(db, Next(db, step), step.id);
    } else {
      match step
      case RunRetry(key, v, n, recovery, w) => RetryLater(db, key, v, n, recovery, w);
      case ClaimJob(key, lease) => ClaimLater(db, key, lease);
      case SaveOutcome(c, code, permanent) => SaveLater(db, c, code, permanent, if c.key in db.jobs then RetryAt(db, c.key) else db.clock);
      case _ =>
    }
  }

  lemma EvolvesTransitive(a: Operation, b: Operation, c: Operation)
    requires OperationInv(a) && OperationInv(b) && OperationInv(c) && Evolves(a, b) && Evolves(b, c)
    ensures Evolves(a, c)
  {}

  lemma LaterTransitive(a: Db, b: Db, c: Db)
    requires OperationsInv(a) && OperationsInv(b) && OperationsInv(c) && Later(a, b) && Later(b, c)
    ensures Later(a, c)
  {
    forall id | id in a.operations ensures id in c.operations && Evolves(a.operations[id], c.operations[id]) {
      EvolvesTransitive(a.operations[id], b.operations[id], c.operations[id]);
    }
  }

  lemma {:induction false} RunLater(db: Db, steps: seq<Step>, end: Db)
    requires Inv(db) && Reaches(db, steps, end)
    ensures Inv(end) && Later(db, end)
    decreases |steps|
  {
    if steps != [] {
      var next := Next(db, steps[0]);
      StepKeepsInv(db, steps[0]);
      StepLater(db, steps[0]);
      RunLater(next, steps[1..], end);
      LaterTransitive(db, next, end);
    }
  }

  // ---- Attempts -------------------------------------------------------------------------------

  /**
   * In every reachable database the attempt records of a job are exactly 1..n, n being the attempt
   * count or one less while claimed; leases never repeat; a cycle never passes 20 attempts; and no
   * attempt was ever deferred, the clock not going back.
   */
  lemma AttemptRecordsAreContiguous(clock: Time, steps: seq<Step>, db: Db, key: JobKey)
    requires Reaches(Empty(clock), steps, db) && key in db.jobs
    ensures var j := db.jobs[key];
            && (forall n :: AttemptKey(key, n) in db.attempts <==> 1 <= n <= (if j.state.JobClaimed? then j.attempts - 1 else j.attempts))
            && j.attempts - j.cycleStart <= 20 && (j.state == JobPending ==> j.attempts - j.cycleStart < 20)
    ensures forall s, t | s in db.attempts && t in db.attempts && s != t :: db.attempts[s].lease != db.attempts[t].lease
    ensures forall s | s in db.attempts :: db.attempts[s].outcome != Deferred
  {
    EmptySound(clock);
    RunKeepsInv(Empty(clock), steps, db);
    forall n ensures AttemptKey(key, n) in db.attempts <==> 1 <= n <= Spent(db.jobs[key]) {
      assert RecordInv(db, AttemptKey(key, n));
    }
  }

  /** Saving succeeds for the current lease alone; anything else leaves the database as it was. */
  lemma OnlyTheCurrentLeaseSaves(db: Db, c: Claim, code: Code, permanent: bool)
    requires Inv(db)
    ensures !HoldsLease(db, c) ==> Finish(db, c, code, permanent).Err? && Next(db, SaveOutcome(c, code, permanent)) == db
    ensures Finish(db, c, code, permanent).Ok? ==>
              var t := Finish(db, c, code, permanent).value.0;
              && t.attempts.Keys == db.attempts.Keys + {AttemptKey(c.key, c.attempt)}
              && t.attempts[AttemptKey(c.key, c.attempt)].lease == c.lease
              && !t.jobs[c.key].state.JobClaimed? && t.jobs[c.key].attempts == c.attempt
  {
    SaveRecords(db, c, code, permanent, if c.key in db.jobs then RetryAt(db, c.key) else db.clock);
  }

  lemma SaveRecords(db: Db, c: Claim, code: Code, permanent: bool, retryAt: Time)
    ensures !HoldsLease(db, c) ==> FinishWith(db, c, code, permanent, retryAt).Err?
    ensures FinishWith(db, c, code, permanent, retryAt).Ok? ==>
              var t := FinishWith(db, c, code, permanent, retryAt).value.0;
              && t.attempts.Keys == db.attempts.Keys + {AttemptKey(c.key, c.attempt)}
              && t.attempts[AttemptKey(c.key, c.attempt)].lease == c.lease
              && !t.jobs[c.key].state.JobClaimed? && t.jobs[c.key].attempts == c.attempt
  {
    if FinishWith(db, c, code, permanent, retryAt).Ok? {
      var state, outcome, kept, at := SaveIsFinishJob(db, c, code, permanent, retryAt);
    }
  }

  /** A saved or abandoned claim can never be saved again, whatever happens in between. */
  lemma StaleSaveIsRefusedForever(db: Db, c: Claim, steps: seq<Step>, end: Db, code: Code, permanent: bool)
    requires Inv(db) && Recorded(db, c.lease) && Reaches(db, steps, end)
    ensures Finish(end, c, code, permanent).Err? && Next(end, SaveOutcome(c, code, permanent)) == end
  {
    RunLater(db, steps, end);
    var s :| s in db.attempts && db.attempts[s].lease == c.lease;
    assert s in end.attempts && end.attempts[s].lease == c.lease;
    OnlyTheCurrentLeaseSaves(end, c, code, permanent);
  }

  /** The dispatcher's classification is always one the queue accepts, for any claim it handed out. */
  lemma ClassifiedFailureIsAccepted(db: Db, key: JobKey, lease: Uuid, failure: Option<Failure>)
    requires Inv(db) && IsV7(lease) && ClaimOne(db, key, lease).1.Found?
    ensures var (t, answer) := ClaimOne(db, key, lease); var (code, permanent) := Classify(failure);
            answer.claim.lease == lease && HoldsLease(t, answer.claim) && ValidFinish(answer.claim, code, permanent)
  {
    ClassificationFits(failure);
    if key in db.jobs { FoundIsCurrent(db, key, lease, RetryAt(db, key)); }
    else {
      NewJobKeepsInv(db, key);
      FoundIsCurrent(NewJob(db, key), key, lease, RetryAt(NewJob(db, key), key));
    }
  }

  /**
   * What a failed attempt is filed under: only an authority of the broker, an invalid intent or a conflict ends the
   * job's cycle at once; stale or blocked lifecycle, missing authority and unavailable storage are tried again.
   */
  lemma FailureIsFiledAs(failure: Failure)
    ensures var (code, permanent) := Classify(Some(failure));
            && (permanent <==> failure in {BrokerAuthority, Invalid, Conflict})
            && (code == AuthorityUnavailable <==> failure in {BrokerAuthority, Authority})
            && (code == LifecycleStale <==> failure == Stale) && (code == LifecycleBlocked <==> failure == Blocked)
            && (code == InvalidIntent <==> failure == Invalid) && (code == IntentConflict <==> failure == Conflict)
            && (code == DependencyUnavailable <==> failure in {Storage, Dependency})
            && (code == ExecutionFailed <==> failure in {LeaseLost, NotFound, VersionConflict})
  {}

  lemma ClassificationFits(failure: Option<Failure>)
    ensures var (code, permanent) := Classify(failure);
            && (permanent ==> code == InvalidIntent || code == IntentConflict || code == AuthorityUnavailable)
            && (!permanent ==> code != InvalidIntent && code != IntentConflict) && code != LeaseExpired
  {}

  lemma FoundIsCurrent(db: Db, key: JobKey, lease: Uuid, retryAt: Time)
    requires Inv(db) && key in db.jobs && ClaimExisting(db, key, lease, retryAt).1.Found?
    ensures var (t, answer) := ClaimExisting(db, key, lease, retryAt);
            && answer.claim.key == key && answer.claim.lease == lease && HoldsLease(t, answer.claim)
            && answer.claim.cycleStart >= 0 && 1 <= answer.claim.attempt - answer.claim.cycleStart <= MaxAttempts
            && answer.claim.attempt == db.jobs[key].attempts + 1 && key.generation >= 1
  {}

  /** While a lease runs nobody else gets the job, under any lease id. */
  lemma LiveLeaseExcludes(db: Db, key: JobKey, other: Uuid)
    requires key in db.jobs && key.operation in db.operations && db.jobs[key].state.JobClaimed? && db.jobs[key].state.lease.until > db.clock
    ensures ClaimOne(db, key, other).0 == db && !ClaimOne(db, key, other).1.Found?
  {
    LiveLeaseHolds(db, key, other, RetryAt(db, key));
  }

  lemma LiveLeaseHolds(db: Db, key: JobKey, other: Uuid, retryAt: Time)
    requires key in db.jobs && key.operation in db.operations && db.jobs[key].state.JobClaimed? && db.jobs[key].state.lease.until > db.clock
    ensures ClaimExisting(db, key, other, retryAt).0 == db && !ClaimExisting(db, key, other, retryAt).1.Found?
  {}

  /** The wait the queue adds is the doubling law of the attempt within its cycle, in microseconds. */
  lemma RetryDelayIsDoubling(attempt: int)
    requires attempt >= 1
    ensures RetryDelay(attempt) == Backoff.Doubling(attempt, 30) / 1000
    ensures RetryDelay(attempt) >= Second
  {
    Backoff.BootstrapDelayIsDoubling(attempt);
    Backoff.DelaysGrow(attempt, attempt);
  }

  /** A retryable failure is not picked up again before its delay has passed. */
  lemma RetryWaitsOut(db: Db, c: Claim, code: Code, permanent: bool, retryAt: Time, elapsed: nat, lease: Uuid, again: Time)
    requires Inv(db) && code != NoCode && FinishWith(db, c, code, permanent, retryAt).Ok?
    requires db.clock + elapsed < retryAt
    ensures var t := FinishWith(db, c, code, permanent, retryAt).value.0;
            !ClaimExisting(t.(clock := t.clock + elapsed), c.key, lease, again).1.Found?
  {
    var state, outcome, kept, at := SaveIsFinishJob(db, c, code, permanent, retryAt);
  }

  // ---- One business effect --------------------------------------------------------------------

  /** At most one invitation per operation, ever: once made it is the one every later state holds. */
  lemma OneInvitationPerOperation(db: Db, steps: seq<Step>, end: Db, id: Uuid)
    requires Inv(db) && Reaches(db, steps, end) && id in db.operations
    ensures id in end.operations && |end.operations[id].invitations| <= 1
    ensures db.operations[id].result.Some? ==>
              && end.operations[id].result == db.operations[id].result
              && end.operations[id].invitations.Keys == db.operations[id].invitations.Keys
  {
    RunLater(db, steps, end);
    var op := end.operations[id];
    assert OperationInv(db.operations[id]) && OperationInv(op);
    if op.result.Some? {
      assert op.invitations.Keys == {op.result.value};
      assert |op.invitations| == |op.invitations.Keys|;
    }
  }

  /** A repeated initialization, by any worker at any later time, returns the first result or is refused. */
  lemma ReconcileIsIdempotent(db: Db, id: Uuid, first: Uuid, w: Surroundings, steps: seq<Step>, end: Db, second: Uuid, v: Surroundings)
    requires Inv(db) && Reconcile(db, id, first, w).Ok? && Reaches(Reconcile(db, id, first, w).value.0, steps, end)
    ensures var again := Reconcile(end, id, second, v);
            again.Ok? ==> again.value.0 == end && again.value.1.invitation == Reconcile(db, id, first, w).value.1.invitation
  {
    var next := Reconcile(db, id, first, w).value.0;
    assert next == Next(db, RunReconcile(id, first, w));
    StepKeepsInv(db, RunReconcile(id, first, w));
    RunLater(next, steps, end);
    assert next.operations[id].result.Some?;
  }

  /**
   * An expiry job for generation g changes something exactly when the invitation is still at g and
   * past its expiry on both clocks; one that has moved on is never touched.
   */
  lemma ExpiryTouchesOnlyItsGeneration(db: Db, id: Uuid, generation: int, w: Surroundings)
    requires Inv(db) && ExpireInvitation(db, id, generation, w).Ok?
    ensures ExpireInvitation(db, id, generation, w).value.0 != db <==>
              && db.operations[id].status == Waiting
              && BoundInvitation(db.operations[id]).value.generation == generation
              && BoundInvitation(db.operations[id]).value.expiresAt <= w.now
    ensures ExpireInvitation(db, id, generation, w).value.0 != db ==>
              BoundInvitation(db.operations[id]).value.expiresAt <= db.clock
  {
    var op := db.operations[id];
    assert OperationInv(op);
    var t := ExpireInvitation(db, id, generation, w).value.0;
    if t != db { assert t.operations[id].status == AttentionRequired; }
    if op.status == Waiting && BoundInvitation(op).value.generation == generation && BoundInvitation(op).value.expiresAt <= w.now {
      assert t.operations[id].status == AttentionRequired;
    }
  }

  /** Reissued once, an invitation is out of reach of every older expiry job for good. */
  lemma StaleExpiryIsHarmless(db: Db, steps: seq<Step>, end: Db, id: Uuid, generation: int, w: Surroundings)
    requires Inv(db) && id in db.operations && Moved(db.operations[id], generation) && Reaches(db, steps, end)
    ensures Next(end, RunExpire(id, generation, w)) == end
  {
    RunLater(db, steps, end);
    MovedIsUntouched(end, id, generation, w);
  }

  lemma MovedIsUntouched(db: Db, id: Uuid, generation: int, w: Surroundings)
    requires id in db.operations && OperationInv(db.operations[id]) && Moved(db.operations[id], generation)
    ensures Next(db, RunExpire(id, generation, w)) == db
  {}

  /** A job is done only when business state settles it, and both stay so in every later state. */
  lemma DoneMeansSettledForever(db: Db, key: JobKey, steps: seq<Step>, end: Db)
    requires Inv(db) && key in db.jobs && db.jobs[key].state == JobDone && Reaches(db, steps, end)
    ensures Settled(db.operations[key.operation], key)
    ensures key in end.jobs && key.operation in end.operations && end.jobs[key] == db.jobs[key] && Settled(end.operations[key.operation], key)
  {
    RunLater(db, steps, end);
    assert JobInv(end.clock, end.operations[key.operation], key, end.jobs[key]);
  }

  // ---- What each operation needs and leaves ------------------------------------------------------

  /** An invitation is made only for an untouched operation under current authority and a fresh, active tenant. */
  lemma InvitationNeedsAuthority(db: Db, id: Uuid, invitation: Uuid, w: Surroundings)
    requires Reconcile(db, id, invitation, w).Ok?
    ensures var t := Reconcile(db, id, invitation, w).value.0;
            && (t != db ==>
                  && w.intent && w.authority.None? && w.recheck.None? && w.current && w.active && w.catalog && !w.accessExists
                  && db.operations[id].status == Pending && !db.operations[id].superseded && db.operations[id].result.None?
                  && IsV7(invitation) && t.operations[id].status == Waiting && t.operations[id].version == 2
                  && BoundInvitation(t.operations[id]) == Some(Invitation(1, w.now + 7 * 24 * Hour, InvitationPending, 1)))
            && (t == db ==> db.operations[id].result.Some?)
  {
    if Reconcile(db, id, invitation, w).value.0 == db { assert Reconcile(db, id, invitation, w).value.0.operations[id] == db.operations[id]; }
  }

  /** A reissue keeps the invitation's identity, raises its generation by one and reopens the operation. */
  lemma ReissueMovesOneGeneration(db: Db, id: Uuid, expected: int, w: Surroundings)
    requires Inv(db) && Reissue(db, id, expected, w).Ok?
    ensures var a, b := db.operations[id], Reissue(db, id, expected, w).value.operations[id];
            && b.result == a.result && b.invitations.Keys == a.invitations.Keys && BoundInvitation(a).Some?
            && BoundInvitation(b) == Some(Invitation(BoundInvitation(a).value.generation + 1, w.now + 7 * 24 * Hour, InvitationPending,
                                                     BoundInvitation(a).value.version + 1))
            && BoundInvitation(b).value.expiresAt > db.clock
            && a.version == expected && b.version == expected + 1 && b.status == Waiting && !b.superseded
            && w.authority.None? && w.recheck.None? && w.current && w.active && w.accessExists
  {}

  /** An operator's retry reopens a job that asked for attention, with 20 attempts ahead and its history kept. */
  lemma RetryOpensOneCycle(db: Db, key: JobKey, version: int, attempt: int, recovery: Uuid, w: Surroundings)
    requires Inv(db) && RetryJob(db, key, version, attempt, recovery, w).Ok?
    ensures var t := RetryJob(db, key, version, attempt, recovery, w).value; var a, b := db.jobs[key], t.jobs[key];
            && a.state == JobAttention && a.attempts == attempt == b.attempts == b.cycleStart && b.state == JobPending
            && b.recovery == Some(recovery) && b.recovery != a.recovery && b.available == db.clock
            && t.attempts == db.attempts && t.operations == db.operations && !Settled(db.operations[key.operation], key)
  {}

  /** For a claimed job the schedule calls exactly the settled operations terminal, and an expiry that is not is due. */
  lemma ScheduleIsSettled(clock: Time, op: Operation, key: JobKey, j: Job)
    requires OperationInv(op) && JobInv(clock, op, key, j) && j.state.JobClaimed?
    requires ScheduleOutcome(op, key.kind, key.generation, clock).Ok?
    ensures ScheduleOutcome(op, key.kind, key.generation, clock).value.0 <==> Settled(op, key)
    ensures !Settled(op, key) ==> ScheduleOutcome(op, key.kind, key.generation, clock).value.1 <= clock
  {}

  /** A save leaves the job done exactly when the operation settles it, and asks for attention exactly when the cycle is spent or the failure final. */
  lemma SaveIsExact(db: Db, c: Claim, code: Code, permanent: bool, retryAt: Time)
    requires Inv(db) && FinishWith(db, c, code, permanent, retryAt).Ok?
    ensures var t := FinishWith(db, c, code, permanent, retryAt).value.0;
            var op, j := db.operations[c.key.operation], t.jobs[c.key];
            && (j.state == JobDone <==> Settled(op, c.key))
            && (j.state == JobAttention <==> !Settled(op, c.key) && (permanent || c.attempt - c.cycleStart >= 20))
            && (j.state == JobPending ==> j.available == retryAt)
            && t.operations == db.operations
  {
    ScheduleIsSettled(db.clock, db.operations[c.key.operation], c.key, db.jobs[c.key]);
  }

  /** The dispatcher is told to raise attention exactly for a job left so, or an operation already so. */
  lemma SaveFlagsAttention(db: Db, c: Claim, code: Code, permanent: bool, retryAt: Time)
    requires Inv(db) && FinishWith(db, c, code, permanent, retryAt).Ok?
    ensures var (t, attention) := FinishWith(db, c, code, permanent, retryAt).value;
            attention <==> t.jobs[c.key].state == JobAttention || db.operations[c.key.operation].status == AttentionRequired
  {
    ScheduleIsSettled(db.clock, db.operations[c.key.operation], c.key, db.jobs[c.key]);
  }

  /** An expired lease is closed by whoever looks next, under its own number and lease. */
  lemma AbandonedClaimIsClosed(db: Db, key: JobKey, other: Uuid, retryAt: Time)
    requires Inv(db) && key in db.jobs && db.jobs[key].state.JobClaimed? && db.jobs[key].state.lease.until <= db.clock
    requires ScheduleOutcome(db.operations[key.operation], key.kind, key.generation, db.clock).Ok?
    ensures var (t, answer) := ClaimExisting(db, key, other, retryAt); var j := db.jobs[key];
            && answer == Nothing && AttemptKey(key, j.attempts) in t.attempts
            && t.attempts[AttemptKey(key, j.attempts)].lease == j.state.lease.id
            && (t.jobs[key].state == JobDone <==> Settled(db.operations[key.operation], key))
            && (t.jobs[key].state == JobAttention <==> !Settled(db.operations[key.operation], key) && j.attempts - j.cycleStart >= 20)
            && t.jobs[key].attempts == j.attempts && !t.jobs[key].state.JobClaimed?
  {
    ScheduleIsSettled(db.clock, db.operations[key.operation], key, db.jobs[key]);
    FinishJobSucceeds(db, key, JobDone, RecoveredCompletion, NoCode, db.clock);
  }

  /** A lease runs for 30 seconds, and only on a job that is due and unsettled. */
  lemma LeaseIsEarned(db: Db, key: JobKey, lease: Uuid, retryAt: Time)
    requires Inv(db) && key in db.jobs && ClaimExisting(db, key, lease, retryAt).1.Found?
    ensures var (t, answer) := ClaimExisting(db, key, lease, retryAt); var op, j := db.operations[key.operation], db.jobs[key];
            && answer.claim.until == db.clock + 30 * Second && t.jobs[key].state == JobClaimed(Lease(lease, answer.claim.until))
            && j.state == JobPending && j.available <= db.clock && !Settled(op, key) && t.issued == db.issued + {lease}
            && (key.kind == Expire ==> BoundInvitation(op).Some? && BoundInvitation(op).value.expiresAt <= db.clock)
  {
    assert JobInv(db.clock, db.operations[key.operation], key, db.jobs[key]);
  }
}
