/**
 * Every interleaving of dispatchers, workers, lease expiries, crashes (a worker that simply never
 * saves), reissues, operator retries, acceptances and recoveries over the Bootstrap database.
 */
module BootstrapRuns {
  import opened Ids
  import opened BootstrapModel

  datatype Step =
    | Tick(elapsed: nat)
    | OpenOperation(id: Uuid)
    | ClaimJob(key: JobKey, lease: Uuid)
    | SaveOutcome(claim: Claim, code: Code, permanent: bool)
    | RunReconcile(id: Uuid, invitation: Uuid, around: Surroundings)
    | RunExpire(id: Uuid, generation: int, around: Surroundings)
    | RunReissue(id: Uuid, expectedVersion: int, around: Surroundings)
    | RunRetry(key: JobKey, expectedVersion: int, expectedAttempt: int, recovery: Uuid, around: Surroundings)
    | Accept(id: Uuid)
    | Supersede(id: Uuid)
    | EndInvitation(id: Uuid, status: InvitationStatus)

  /** Random identifiers do not repeat; the database clock does not go back. */
  predicate Enabled(db: Db, step: Step) {
    match step
    case ClaimJob(_, lease) => lease !in db.issued
    case OpenOperation(id) => id !in db.operations
    case _ => true
  }

  function With(db: Db, id: Uuid, op: Operation): Db { db.(operations := db.operations[id := op]) }

  /** Acceptance: the waiting operation succeeds and its pending invitation is consumed. */
  function AcceptInvitation(db: Db, id: Uuid): Db {
    if id in db.operations && db.operations[id].status == Waiting && !db.operations[id].superseded
      && BoundInvitation(db.operations[id]).Some? && BoundInvitation(db.operations[id]).value.status == InvitationPending
    then
      var op := db.operations[id];
      var inv := BoundInvitation(op).value;
      With(db, id, op.(status := Succeeded, version := op.version + 1,
                       invitations := op.invitations[op.result.value := inv.(status := InvitationAccepted, version := inv.version + 1)]))
    else db
  }

  function EndPending(db: Db, id: Uuid, status: InvitationStatus): Db {
    if id in db.operations && BoundInvitation(db.operations[id]).Some? && status != InvitationPending
      && BoundInvitation(db.operations[id]).value.status == InvitationPending
    then
      var op := db.operations[id];
      var inv := BoundInvitation(op).value;
      With(db, id, op.(invitations := op.invitations[op.result.value := inv.(status := status, version := inv.version + 1)]))
    else db
  }

  function Next(db: Db, step: Step): Db {
    match step
    case Tick(elapsed) => db.(clock := db.clock + elapsed)
    case OpenOperation(id) => With(db, id, Operation(Pending, 1, false, None, map[]))
    case ClaimJob(key, lease) => ClaimOne(db, key, lease).0
    case SaveOutcome(c, code, permanent) => (match Finish(db, c, code, permanent) case Ok(r) => r.0 case _ => db)
    case RunReconcile(id, inv, w) => (match Reconcile(db, id, inv, w) case Ok(r) => r.0 case _ => db)
    case RunExpire(id, g, w) => (match ExpireInvitation(db, id, g, w) case Ok(r) => r.0 case _ => db)
    case RunReissue(id, v, w) => (match Reissue(db, id, v, w) case Ok(r) => r case _ => db)
    case RunRetry(key, v, n, recovery, w) => (match RetryJob(db, key, v, n, recovery, w) case Ok(r) => r case _ => db)
    case Accept(id) => AcceptInvitation(db, id)
    case Supersede(id) =>
      if id in db.operations
      then With(db, id, db.operations[id].(status := Superseded, superseded := true, version := db.operations[id].version + 1)) else db
    case EndInvitation(id, status) => EndPending(db, id, status)
  }

  ghost predicate Reaches(db: Db, steps: seq<Step>, end: Db)
    decreases |steps|
  {
    if steps == [] then db == end else Enabled(db, steps[0]) && Reaches(Next(db, steps[0]), steps[1..], end)
  }

  function Empty(clock: Time): Db { Db(clock, map[], map[], map[], {}) }

  // ---- The invariant --------------------------------------------------------------------------

  /** One invitation at most, made by the transition out of pending and never rebound. */
  predicate OperationInv(op: Operation) {
    && (op.result.None? ==> op.invitations == map[])
    && (op.result.Some? ==> op.invitations.Keys == {op.result.value} && op.invitations[op.result.value].generation >= 1)
    && (op.superseded <==> op.status == Superseded)
    && (op.status == Pending ==> op.result.None? && op.version == 1)
    && (op.status == Waiting || op.status == AttentionRequired || op.status == Succeeded ==> op.result.Some?)
  }

  predicate Settled(op: Operation, key: JobKey) {
    || op.superseded || op.status == Succeeded
    || (key.kind == Initialize && op.status != Pending)
    || (key.kind == Expire && (op.status == AttentionRequired || Moved(op, key.generation)))
  }

  predicate Moved(op: Operation, generation: int) {
    BoundInvitation(op).Some? && BoundInvitation(op).value.generation > generation
  }

  predicate KeyFits(op: Operation, key: JobKey) {
    && key.generation >= 1 && (key.kind == Initialize ==> key.generation == 1)
    && (key.kind == Expire ==> BoundInvitation(op).Some? && key.generation <= BoundInvitation(op).value.generation)
  }

  function Spent(j: Job): int { if j.state.JobClaimed? then j.attempts - 1 else j.attempts }

  predicate JobInv(clock: Time, op: Operation, key: JobKey, j: Job) {
    && KeyFits(op, key)
    && 0 <= j.cycleStart <= j.attempts && j.attempts - j.cycleStart <= MaxAttempts
    && (j.state == JobPending ==> j.attempts - j.cycleStart < MaxAttempts)
    && (j.state.JobClaimed? ==> j.cycleStart < j.attempts)
    && (j.state == JobDone ==> Settled(op, key))
    && (j.state.JobClaimed? && key.kind == Expire && !Moved(op, key.generation) ==> BoundInvitation(op).value.expiresAt <= clock)
  }

  /** The records of a job are exactly 1..n, n being the attempts made and closed. */
  predicate RecordInv(db: Db, slot: AttemptKey) {
    slot in db.attempts <==> slot.job in db.jobs && 1 <= slot.number <= Spent(db.jobs[slot.job])
  }

  predicate LeaseInv(db: Db) {
    && (forall s | s in db.attempts :: db.attempts[s].lease in db.issued && db.attempts[s].outcome != Deferred)
    && (forall s, t | s in db.attempts && t in db.attempts && db.attempts[s].lease == db.attempts[t].lease :: s == t)
    && (forall k | k in db.jobs && db.jobs[k].state.JobClaimed? ::
          db.jobs[k].state.lease.id in db.issued && !Recorded(db, db.jobs[k].state.lease.id))
    && (forall k, l | k in db.jobs && l in db.jobs && db.jobs[k].state.JobClaimed? && db.jobs[l].state.JobClaimed?
          && db.jobs[k].state.lease.id == db.jobs[l].state.lease.id :: k == l)
  }

  predicate Recorded(db: Db, lease: Uuid) { exists s :: s in db.attempts && db.attempts[s].lease == lease }

  predicate OperationsInv(db: Db) { forall id | id in db.operations :: OperationInv(db.operations[id]) }

  predicate JobsInv(db: Db) {
    forall k | k in db.jobs :: k.operation in db.operations && JobInv(db.clock, db.operations[k.operation], k, db.jobs[k])
  }

  ghost predicate RecordsInv(db: Db) { forall s: AttemptKey :: RecordInv(db, s) }

  ghost predicate Inv(db: Db) { OperationsInv(db) && JobsInv(db) && RecordsInv(db) && LeaseInv(db) }

  // ---- Steps on an operation ------------------------------------------------------------------

  /** What one business step may do to an operation, as far as its jobs can tell. */
  predicate Evolves(a: Operation, b: Operation) {
    && (a.superseded ==> b.superseded)
    && (a.status == Succeeded ==> b.status == Succeeded || b.superseded)
    && (a.status != Pending ==> b.status != Pending)
    && (a.result.Some? ==> b.result == a.result)
    && (BoundInvitation(a).Some? ==>
          && BoundInvitation(b).Some? && BoundInvitation(a).value.generation <= BoundInvitation(b).value.generation
          && (BoundInvitation(a).value.generation == BoundInvitation(b).value.generation ==>
                BoundInvitation(a).value.expiresAt == BoundInvitation(b).value.expiresAt)
          && (a.status == AttentionRequired ==>
                b.status == AttentionRequired || b.superseded || BoundInvitation(a).value.generation < BoundInvitation(b).value.generation))
  }

  lemma EvolvingKeepsJob(clock: Time, a: Operation, b: Operation, key: JobKey, j: Job)
    requires OperationInv(a) && OperationInv(b) && Evolves(a, b) && JobInv(clock, a, key, j)
    ensures JobInv(clock, b, key, j)
  {}

  predicate IsBusiness(step: Step) {
    step.RunReconcile? || step.RunExpire? || step.RunReissue? || step.Accept? || step.Supersede? || step.EndInvitation?
  }

  /** Exactly one operation may differ, and it evolved. */
  predicate EvolvesAt(db: Db, t: Db, id: Uuid) {
    t == db || (id in db.operations && id in t.operations && t == With(db, id, t.operations[id])
                && OperationInv(t.operations[id]) && Evolves(db.operations[id], t.operations[id]))
  }

  lemma ReconcileEvolves(db: Db, id: Uuid, invitation: Uuid, w: Surroundings)
    requires OperationsInv(db)
    ensures var r := Reconcile(db, id, invitation, w); r.Ok? ==> EvolvesAt(db, r.value.0, id)
  {}

  lemma ExpireEvolves(db: Db, id: Uuid, generation: int, w: Surroundings)
    requires OperationsInv(db)
    ensures var r := ExpireInvitation(db, id, generation, w); r.Ok? ==> EvolvesAt(db, r.value.0, id)
  {}

  lemma ReissueEvolves(db: Db, id: Uuid, version: int, w: Surroundings)
    requires OperationsInv(db)
    ensures var r := Reissue(db, id, version, w); r.Ok? ==> EvolvesAt(db, r.value, id)
  {}

  lemma AcceptEvolves(db: Db, id: Uuid)
    requires OperationsInv(db)
    ensures EvolvesAt(db, AcceptInvitation(db, id), id)
  {}

  lemma EndPendingEvolves(db: Db, id: Uuid, status: InvitationStatus)
    requires OperationsInv(db)
    ensures EvolvesAt(db, EndPending(db, id, status), id)
  {}

  lemma SupersedeEvolves(db: Db, id: Uuid)
    requires OperationsInv(db)
    ensures EvolvesAt(db, Next(db, Supersede(id)), id)
  {}

  lemma BusinessEvolves(db: Db, step: Step)
    requires OperationsInv(db) && IsBusiness(step)
    ensures EvolvesAt(db, Next(db, step), step.id)
  {
    match step
    case RunReconcile(id, inv, w) => ReconcileEvolves(db, id, inv, w);
    case RunExpire(id, g, w) => ExpireEvolves(db, id, g, w);
    case RunReissue(id, v, w) => ReissueEvolves(db, id, v, w);
    case Accept(id) => AcceptEvolves(db, id);
    case Supersede(id) => SupersedeEvolves(db, id);
    case EndInvitation(id, status) => EndPendingEvolves(db, id, status);
  }

  lemma EvolvedKeepsInv(db: Db, t: Db, id: Uuid)
    requires Inv(db) && EvolvesAt(db, t, id)
    ensures Inv(t)
  {
    if t != db {
      forall k | k in t.jobs ensures k.operation in t.operations && JobInv(t.clock, t.operations[k.operation], k, t.jobs[k]) {
        if k.operation == id {
          EvolvingKeepsJob(db.clock, db.operations[id], t.operations[id], k, db.jobs[k]);
        }
      }
      forall s: AttemptKey ensures RecordInv(t, s) { assert RecordInv(db, s); }
      assert forall lease: Uuid :: Recorded(t, lease) == Recorded(db, lease);
    }
  }

  // ---- Steps on a job -------------------------------------------------------------------------

  /** Replacing one job row and nothing else; `mayClose` is what FinishJob adds to the records. */
  lemma JobUpdateKeepsJobs(db: Db, key: JobKey, j: Job)
    requires JobsInv(db) && key.operation in db.operations && JobInv(db.clock, db.operations[key.operation], key, j)
    ensures JobsInv(db.(jobs := db.jobs[key := j]))
  {}

  /** The record slot and the lease are always free: closing a claim cannot fail. */
  lemma FinishJobSucceeds(db: Db, key: JobKey, state: JobState, outcome: AttemptOutcome, code: Code, available: Time)
    requires Inv(db) && key in db.jobs && db.jobs[key].state.JobClaimed?
    ensures FinishJob(db, key, state, outcome, code, available).Ok?
  {
    assert RecordInv(db, AttemptKey(key, db.jobs[key].attempts));
    assert !Recorded(db, db.jobs[key].state.lease.id);
  }

  lemma FinishJobKeepsRecords(db: Db, key: JobKey, state: JobState, outcome: AttemptOutcome, code: Code, available: Time)
    requires Inv(db) && key in db.jobs && db.jobs[key].state.JobClaimed? && !state.JobClaimed?
    requires FinishJob(db, key, state, outcome, code, available).Ok?
    ensures RecordsInv(FinishJob(db, key, state, outcome, code, available).value)
  {
    var t := FinishJob(db, key, state, outcome, code, available).value;
    forall s: AttemptKey ensures RecordInv(t, s) { assert RecordInv(db, s); }
  }

  lemma FinishJobKeepsLeases(db: Db, key: JobKey, state: JobState, outcome: AttemptOutcome, code: Code, available: Time)
    requires LeaseInv(db) && key in db.jobs && db.jobs[key].state.JobClaimed? && !state.JobClaimed? && outcome != Deferred
    requires FinishJob(db, key, state, outcome, code, available).Ok?
    ensures LeaseInv(FinishJob(db, key, state, outcome, code, available).value)
  {
    var t := FinishJob(db, key, state, outcome, code, available).value;
    var slot, lease := AttemptKey(key, db.jobs[key].attempts), db.jobs[key].state.lease.id;
    forall k | k in t.jobs && t.jobs[k].state.JobClaimed? ensures !Recorded(t, t.jobs[k].state.lease.id) {
      assert k != key && !Recorded(db, db.jobs[k].state.lease.id);
    }
  }

  lemma FinishJobKeepsInv(db: Db, key: JobKey, state: JobState, outcome: AttemptOutcome, code: Code, available: Time)
    requires Inv(db) && key in db.jobs && db.jobs[key].state.JobClaimed? && !state.JobClaimed? && outcome != Deferred
    requires state == JobPending ==> db.jobs[key].attempts - db.jobs[key].cycleStart < MaxAttempts
    requires state == JobDone ==> Settled(db.operations[key.operation], key)
    ensures var r := FinishJob(db, key, state, outcome, code, available); r.Ok? && Inv(r.value)
  {
    FinishJobSucceeds(db, key, state, outcome, code, available);
    FinishJobKeepsRecords(db, key, state, outcome, code, available);
    FinishJobKeepsLeases(db, key, state, outcome, code, available);
    var j := db.jobs[key].(state := state, available := available, lastError := code);
    JobUpdateKeepsJobs(db, key, j);
  }

  lemma ScheduleSettles(op: Operation, key: JobKey, now: Time)
    requires OperationInv(op) && KeyFits(op, key)
    requires ScheduleOutcome(op, key.kind, key.generation, now).Ok?
    ensures ScheduleOutcome(op, key.kind, key.generation, now).value.0 ==> Settled(op, key)
    ensures !ScheduleOutcome(op, key.kind, key.generation, now).value.0 && key.kind == Expire ==>
              && BoundInvitation(op).value.generation == key.generation
              && ScheduleOutcome(op, key.kind, key.generation, now).value.1 == BoundInvitation(op).value.expiresAt
  {}

  /** Job rows may change where no record is due; closed attempts and leases stay as they are. */
  lemma SameRecords(db: Db, t: Db)
    requires RecordsInv(db) && t.attempts == db.attempts
    requires forall k | k in t.jobs :: Spent(t.jobs[k]) == if k in db.jobs then Spent(db.jobs[k]) else 0
    requires db.jobs.Keys <= t.jobs.Keys
    ensures RecordsInv(t)
  {
    forall s: AttemptKey ensures RecordInv(t, s) { assert RecordInv(db, s); }
  }

  lemma NewJobKeepsInv(db: Db, key: JobKey)
    requires Inv(db) && key !in db.jobs && key.operation in db.operations && MayCreate(db.operations[key.operation], key)
    ensures Inv(NewJob(db, key))
  {
    var t := NewJob(db, key);
    JobUpdateKeepsJobs(db, key, t.jobs[key]);
    SameRecords(db, t);
    assert forall lease: Uuid :: Recorded(t, lease) == Recorded(db, lease);
  }

  lemma LeasedKeepsLeases(db: Db, key: JobKey, lease: Uuid)
    requires LeaseInv(db) && key in db.jobs && lease !in db.issued
    ensures LeaseInv(Leased(db, key, lease))
  {
    var t := Leased(db, key, lease);
    assert forall l: Uuid :: Recorded(t, l) == Recorded(db, l);
  }

  /** Leasing a pending job under an unused id. */
  lemma LeasedKeepsInv(db: Db, key: JobKey, lease: Uuid)
    requires Inv(db) && key in db.jobs && db.jobs[key].state == JobPending && lease !in db.issued
    requires key.kind == Expire && !Moved(db.operations[key.operation], key.generation) ==>
               BoundInvitation(db.operations[key.operation]).value.expiresAt <= db.clock
    ensures Inv(Leased(db, key, lease))
  {
    LeasedKeepsLeases(db, key, lease);
    SameRecords(db, Leased(db, key, lease));
    JobUpdateKeepsJobs(db, key, Leased(db, key, lease).jobs[key]);
    assert JobsInv(Leased(db, key, lease));
  }

  lemma RecoverKeepsInv(db: Db, key: JobKey, terminal: bool, retryAt: Time)
    requires Inv(db) && key in db.jobs && db.jobs[key].state.JobClaimed?
    requires terminal ==> Settled(db.operations[key.operation], key)
    ensures Inv(Recover(db, key, terminal, retryAt).0) && !Recover(db, key, terminal, retryAt).1.Failed?
  {
    var used := db.jobs[key].attempts - db.jobs[key].cycleStart;
    if terminal {
      FinishJobKeepsInv(db, key, JobDone, RecoveredCompletion, NoCode, db.clock);
    } else {
      FinishJobKeepsInv(db, key, if used >= MaxAttempts then JobAttention else JobPending, LeaseRanOut, LeaseExpired, retryAt);
    }
  }

  lemma ClaimExistingKeepsInv(db: Db, key: JobKey, lease: Uuid, retryAt: Time)
    requires Inv(db) && lease !in db.issued && key in db.jobs
    ensures Inv(ClaimExisting(db, key, lease, retryAt).0)
  {
    var op, j := db.operations[key.operation], db.jobs[key];
    var schedule := ScheduleOutcome(op, key.kind, key.generation, db.clock);
    if schedule.Ok? {
      ScheduleSettles(op, key, db.clock);
      if j.state.JobClaimed? { RecoverKeepsInv(db, key, schedule.value.0, retryAt); }
      else if j.state == JobPending && !schedule.value.0 && schedule.value.1 <= db.clock { LeasedKeepsInv(db, key, lease); }
    }
  }

  lemma ClaimKeepsInv(db: Db, key: JobKey, lease: Uuid)
    requires Inv(db) && lease !in db.issued
    ensures Inv(ClaimOne(db, key, lease).0)
  {
    if key in db.jobs {
      ClaimExistingKeepsInv(db, key, lease, RetryAt(db, key));
    } else if key.operation in db.operations && MayCreate(db.operations[key.operation], key) {
      NewJobKeepsInv(db, key);
      ClaimExistingKeepsInv(NewJob(db, key), key, lease, RetryAt(NewJob(db, key), key));
    }
  }

  lemma FinishKeepsInv(db: Db, c: Claim, code: Code, permanent: bool, retryAt: Time)
    requires Inv(db)
    ensures var r := FinishWith(db, c, code, permanent, retryAt); r.Ok? ==> Inv(r.value.0)
  {
    if c.key.operation in db.operations && HoldsLease(db, c) {
      var op := db.operations[c.key.operation];
      var schedule := ScheduleOutcome(op, c.key.kind, c.key.generation, db.clock);
      if schedule.Ok? {
        ScheduleSettles(op, c.key, db.clock);
        if schedule.value.0 {
          FinishJobKeepsInv(db, c.key, JobDone, Completed, NoCode, db.clock);
        } else if code != NoCode {
          var stop := permanent || c.attempt - c.cycleStart >= MaxAttempts;
          FinishJobKeepsInv(db, c.key, if stop then JobAttention else JobPending, if stop then Attention else Retry, code, retryAt);
        }
      }
    }
  }

  lemma RetryKeepsInv(db: Db, key: JobKey, version: int, attempt: int, recovery: Uuid, w: Surroundings)
    requires Inv(db)
    ensures var r := RetryJob(db, key, version, attempt, recovery, w); r.Ok? ==> Inv(r.value)
  {
    var r := RetryJob(db, key, version, attempt, recovery, w);
    if r.Ok? {
      JobUpdateKeepsJobs(db, key, r.value.jobs[key]);
      SameRecords(db, r.value);
      assert forall lease: Uuid :: Recorded(r.value, lease) == Recorded(db, lease);
    }
  }

  lemma TickKeepsInv(db: Db, elapsed: nat)
    requires Inv(db)
    ensures Inv(db.(clock := db.clock + elapsed))
  {
    var t := db.(clock := db.clock + elapsed);
    SameRecords(db, t);
    assert forall lease: Uuid :: Recorded(t, lease) == Recorded(db, lease);
  }

  lemma OpenKeepsInv(db: Db, id: Uuid)
    requires Inv(db) && id !in db.operations
    ensures Inv(Next(db, OpenOperation(id)))
  {
    var t := Next(db, OpenOperation(id));
    SameRecords(db, t);
    assert forall lease: Uuid :: Recorded(t, lease) == Recorded(db, lease);
  }

  lemma StepKeepsInv(db: Db, step: Step)
    requires Inv(db) && Enabled(db, step)
    ensures Inv(Next(db, step))
  {
    if IsBusiness(step) {
      BusinessEvolves(db, step);
      EvolvedKeepsInv(db, Next(db, step), step.id);
    } else {
      match step
      case Tick(elapsed) => TickKeepsInv(db, elapsed);
      case OpenOperation(id) => OpenKeepsInv(db, id);
      case ClaimJob(key, lease) => ClaimKeepsInv(db, key, lease);
      case SaveOutcome(c, code, permanent) =>
        FinishKeepsInv(db, c, code, permanent, if c.key in db.jobs then RetryAt(db, c.key) else db.clock);
      case RunRetry(key, v, n, recovery, w) => RetryKeepsInv(db, key, v, n, recovery, w);
    }
  }

  lemma EmptySound(clock: Time) ensures Inv(Empty(clock)) {}

  lemma {:induction false} RunKeepsInv(db: Db, steps: seq<Step>, end: Db)
    requires Inv(db) && Reaches(db, steps, end)
    ensures Inv(end)
    decreases |steps|
  {
    if steps != [] {
      StepKeepsInv(db, steps[0]);
      RunKeepsInv(Next(db, steps[0]), steps[1..], end);
    }
  }
}
