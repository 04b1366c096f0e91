/** When each Bootstrap transaction succeeds and what it writes, in the rows themselves, and what each refusal is told. */
module BootstrapDecisions {
  import opened Ids
  import Backoff
  import opened BootstrapModel
  import opened BootstrapRuns

  // ---- The worker -------------------------------------------------------------------------------

  /** Nothing was done for the operation yet, and everything it needs is there. */
  predicate ReadyToInvite(op: Operation, invitation: Uuid, w: Surroundings) {
    && op.result.None? && op.status == Pending && op.version == 1 && !w.accessExists && w.current && w.active && w.catalog
    && IsV7(invitation) && invitation !in op.invitations && w.recheck.None?
  }

  /** When an initialization succeeds: it finds the earlier result, or makes the one invitation, open for seven days. */
  lemma ReconciledIff(db: Db, id: Uuid, invitation: Uuid, w: Surroundings)
    requires IsV7(id) && id in db.operations
    ensures var op := db.operations[id]; var r := Reconcile(db, id, invitation, w);
            && (r.Ok? <==> w.intent && w.authority.None? && !op.superseded && (op.result.Some? || ReadyToInvite(op, invitation, w)))
            && (r.Ok? && op.result.Some? ==> r.value == (db, WorkerResult(op.result, op.status)))
            && (r.Ok? && op.result.None? ==>
                  && r.value.1 == WorkerResult(Some(invitation), Waiting)
                  && r.value.0 == With(db, id, Operation(Waiting, 2, false, Some(invitation),
                                                         op.invitations[invitation := Invitation(1, w.now + 7 * 24 * Hour, InvitationPending, 1)])))
  {}

  lemma ReconcileRefusalsAreTold(db: Db, id: Uuid, invitation: Uuid, w: Surroundings)
    requires Reconcile(db, id, invitation, w).Err?
    ensures var e := Reconcile(db, id, invitation, w).error;
            if !IsV7(id) then e == Invalid
            else if id !in db.operations then e == Conflict
            else if !w.intent then e == Invalid
            else if w.authority.Some? then e == w.authority.value
            else
              var op := db.operations[id];
              if op.superseded || op.status != Pending || op.version != 1 || w.accessExists then e == Conflict
              else if !w.current then e == Stale
              else if !w.active then e == Blocked
              else if !w.catalog then e == Authority
              else if !IsV7(invitation) then e == Dependency
              else if invitation in op.invitations then e == Conflict else Some(e) == w.recheck
  {}

  /** There is nothing to expire: the operation is over, or its invitation has moved on or is not due. */
  predicate NothingToExpire(op: Operation, generation: int, w: Surroundings) {
    || op.superseded || op.status == Succeeded || op.status == AttentionRequired
    || (op.status == Waiting && BoundInvitation(op).Some? && (BoundInvitation(op).value.generation != generation || w.now < BoundInvitation(op).value.expiresAt))
  }

  /** The waiting invitation of this generation is past its expiry on both clocks. */
  predicate DueToExpire(op: Operation, generation: int, clock: Time, w: Surroundings) {
    && op.status == Waiting && !op.superseded && BoundInvitation(op).Some?
    && var inv := BoundInvitation(op).value;
       && inv.generation == generation && inv.expiresAt <= w.now && inv.expiresAt <= clock
       && (inv.status == InvitationPending || inv.status == InvitationExpired) && w.recheck.None?
  }

  /** When an expiry succeeds, and that it then expires exactly that invitation and asks for attention. */
  lemma ExpiredIff(db: Db, id: Uuid, generation: int, w: Surroundings)
    requires IsV7(id) && generation >= 1 && id in db.operations
    ensures var op := db.operations[id]; var r := ExpireInvitation(db, id, generation, w);
            && (r.Ok? <==> w.intent && w.authority.None? && (NothingToExpire(op, generation, w) || DueToExpire(op, generation, db.clock, w)))
            && (r.Ok? && NothingToExpire(op, generation, w) ==> r.value == (db, WorkerResult(op.result, op.status)))
            && (r.Ok? && !NothingToExpire(op, generation, w) ==>
                  var inv := BoundInvitation(op).value;
                  && r.value.1 == WorkerResult(op.result, AttentionRequired)
                  && r.value.0 == With(db, id, Operation(AttentionRequired, op.version + 1, false, op.result,
                       op.invitations[op.result.value := Invitation(generation, inv.expiresAt, InvitationExpired,
                                                                    if inv.status == InvitationPending then inv.version + 1 else inv.version)])))
  {}

  lemma ExpireRefusalsAreTold(db: Db, id: Uuid, generation: int, w: Surroundings)
    requires ExpireInvitation(db, id, generation, w).Err?
    ensures var e := ExpireInvitation(db, id, generation, w).error;
            if !IsV7(id) || generation < 1 then e == Invalid
            else if id !in db.operations then e == Conflict
            else if !w.intent then e == Invalid
            else if w.authority.Some? then e == w.authority.value
            else e == Conflict || (Some(e) == w.recheck && DueToExpire(db.operations[id], generation, db.clock, w.(recheck := None)))
  {}

  // ---- Administration ---------------------------------------------------------------------------

  /** The invitation is bound to a tenant that exists, is still open to be sent, and would not be stale on arrival. */
  predicate Reissuable(op: Operation, clock: Time, w: Surroundings) {
    && BoundInvitation(op).Some? && w.accessExists && (op.status == Waiting || op.status == AttentionRequired)
    && (BoundInvitation(op).value.status == InvitationPending || BoundInvitation(op).value.status == InvitationExpired)
    && w.current && w.active && w.catalog && clock < w.now + 7 * 24 * Hour && w.recheck.None?
  }

  lemma ReissuedIff(db: Db, id: Uuid, expected: int, w: Surroundings)
    requires IsV7(id) && expected >= 1 && id in db.operations
    ensures var op := db.operations[id]; var r := Reissue(db, id, expected, w);
            && (r.Ok? <==> w.intent && !op.superseded && w.authority.None? && op.version == expected && Reissuable(op, db.clock, w))
            && (r.Ok? ==>
                  var inv := BoundInvitation(op).value;
                  r.value == With(db, id, Operation(Waiting, expected + 1, false, op.result,
                    op.invitations[op.result.value := Invitation(inv.generation + 1, w.now + 7 * 24 * Hour, InvitationPending, inv.version + 1)])))
  {}

  lemma ReissueRefusalsAreTold(db: Db, id: Uuid, expected: int, w: Surroundings)
    requires Reissue(db, id, expected, w).Err?
    ensures var e := Reissue(db, id, expected, w).error;
            if !IsV7(id) || expected < 1 then e == Invalid
            else if id !in db.operations then e == NotFound
            else
              var op := db.operations[id];
              if !w.intent then e == Invalid
              else if op.superseded then e == Conflict
              else if w.authority.Some? then e == w.authority.value
              else if op.version != expected then e == VersionConflict
              else if BoundInvitation(op).None? || !w.accessExists || (op.status != Waiting && op.status != AttentionRequired) then e == Conflict
              else if !w.current then e == Stale
              else if !w.active then e == Blocked
              else if BoundInvitation(op).value.status == InvitationAccepted || BoundInvitation(op).value.status == InvitationCancelled then e == Conflict
              else if !w.catalog then e == Dependency
              else if w.now + 7 * 24 * Hour <= db.clock then e == Conflict else Some(e) == w.recheck
  {}

  /** The job asked for attention at this attempt, and its work is still to be done. */
  predicate Retriable(op: Operation, key: JobKey, j: Job, attempt: int, recovery: Uuid) {
    && j.state == JobAttention && j.attempts == attempt && IsV7(recovery) && j.recovery != Some(recovery)
    && match key.kind
       case Initialize => op.status == Pending && op.result.None?
       case Expire =>
         && op.status == Waiting && BoundInvitation(op).Some? && BoundInvitation(op).value.generation == key.generation
         && (BoundInvitation(op).value.status == InvitationPending || BoundInvitation(op).value.status == InvitationExpired)
  }

  /** As above, whatever the recovery is to be called. */
  predicate Stuck(op: Operation, key: JobKey, j: Job, attempt: int) {
    && j.state == JobAttention && j.attempts == attempt
    && match key.kind
       case Initialize => op.status == Pending && op.result.None?
       case Expire => op.status == Waiting && BoundInvitation(op).Some? && BoundInvitation(op).value.status in {InvitationPending, InvitationExpired}
  }

  lemma RetriedIff(db: Db, key: JobKey, version: int, attempt: int, recovery: Uuid, w: Surroundings)
    requires IsV7(key.operation) && version >= 1 && attempt >= 1 && key.generation >= 1 && (key.kind == Initialize ==> key.generation == 1)
    requires key.operation in db.operations
    ensures var op := db.operations[key.operation]; var r := RetryJob(db, key, version, attempt, recovery, w);
            && (r.Ok? <==>
                  && w.intent && !op.superseded && w.authority.None? && op.version == version && w.current && w.active && w.recheck.None?
                  && key in db.jobs && Retriable(op, key, db.jobs[key], attempt, recovery))
            && (r.Ok? ==> r.value == db.(jobs := db.jobs[key := Job(JobPending, attempt, attempt, Some(recovery), db.clock, NoCode)]))
  {}

  lemma RetryRefusalsAreTold(db: Db, key: JobKey, version: int, attempt: int, recovery: Uuid, w: Surroundings)
    requires RetryJob(db, key, version, attempt, recovery, w).Err?
    ensures var e := RetryJob(db, key, version, attempt, recovery, w).error;
            if !IsV7(key.operation) || version < 1 || attempt < 1 || key.generation < 1 || (key.kind == Initialize && key.generation != 1) then e == Invalid
            else if key.operation !in db.operations then e == NotFound
            else
              var op := db.operations[key.operation];
              if !w.intent then e == Invalid
              else if op.superseded then e == Conflict
              else if w.authority.Some? then e == w.authority.value
              else if op.version != version then e == VersionConflict
              else if !w.current then e == Stale
              else if !w.active then e == Blocked
              else if key !in db.jobs || (key.kind == Expire && (BoundInvitation(op).None? || BoundInvitation(op).value.generation != key.generation)) then e == NotFound
              else if !Stuck(op, key, db.jobs[key], attempt) then e == Conflict
              else if !IsV7(recovery) || db.jobs[key].recovery == Some(recovery) then e == Dependency else Some(e) == w.recheck
  {}

  // ---- The queue --------------------------------------------------------------------------------

  /** Which jobs may come into being: one initialization, and an expiry of the invitation as it is now. */
  predicate Creatable(op: Operation, key: JobKey) {
    match key.kind
    case Initialize => key.generation == 1
    case Expire => key.generation >= 1 && BoundInvitation(op).Some? && BoundInvitation(op).value.generation == key.generation
  }

  /** When the work falls due: at once to initialize, at its expiry for the invitation. */
  predicate Due(op: Operation, key: JobKey, clock: Time) {
    key.kind == Expire ==> BoundInvitation(op).Some? && BoundInvitation(op).value.expiresAt <= clock
  }

  /** The job as the claim finds it, made on the spot if it was not there. */
  function JobOf(db: Db, key: JobKey): Job { if key in db.jobs then db.jobs[key] else Job(JobPending, 0, 0, None, db.clock, NoCode) }

  /** Everything a lease needs of a job on record. */
  predicate Leasable(op: Operation, key: JobKey, j: Job, clock: Time) {
    j.state == JobPending && j.available <= clock && !Settled(op, key) && Due(op, key, clock)
  }

  function LeaseFor(db: Db, key: JobKey, j: Job, lease: Uuid): Db {
    db.(issued := db.issued + {lease},
        jobs := db.jobs[key := j.(state := JobClaimed(Lease(lease, db.clock + 30 * Second)), attempts := j.attempts + 1)])
  }

  lemma ExistingLeasedIff(db: Db, key: JobKey, lease: Uuid, retryAt: Time)
    requires key in db.jobs && key.operation in db.operations
    requires OperationInv(db.operations[key.operation]) && JobInv(db.clock, db.operations[key.operation], key, db.jobs[key])
    ensures var op, j := db.operations[key.operation], db.jobs[key]; var (t, answer) := ClaimExisting(db, key, lease, retryAt);
            && (answer.Found? <==> Leasable(op, key, j, db.clock))
            && (answer.Found? ==>
                  && answer.claim == Claim(key, lease, j.attempts + 1, j.cycleStart, j.recovery, db.clock + 30 * Second)
                  && t == LeaseFor(db, key, j, lease))
  {}

  lemma NewLeasedIff(db: Db, key: JobKey, lease: Uuid)
    requires key !in db.jobs && key.operation in db.operations && OperationInv(db.operations[key.operation])
    requires Creatable(db.operations[key.operation], key)
    ensures var op := db.operations[key.operation]; var fresh_ := NewJob(db, key); var (t, answer) := ClaimExisting(fresh_, key, lease, RetryAt(fresh_, key));
            && fresh_.jobs[key] == JobOf(db, key) && !answer.Failed?
            && (answer.Found? <==> Leasable(op, key, JobOf(db, key), db.clock))
            && (answer.Found? ==>
                  && answer.claim == Claim(key, lease, 1, 0, None, db.clock + 30 * Second)
                  && t == LeaseFor(db, key, JobOf(db, key), lease))
  {
    var fresh_ := NewJob(db, key);
    assert fresh_.jobs[key] == JobOf(db, key);
    ExistingLeasedIff(fresh_, key, lease, RetryAt(fresh_, key));
    var leased := JobOf(db, key).(state := JobClaimed(Lease(lease, db.clock + 30 * Second)), attempts := 1);
    assert fresh_.jobs[key := leased] == db.jobs[key := leased];
  }

  /** Exactly a pending, due and unsettled job is leased for 30 seconds, under the next attempt number. */
  lemma LeasedIff(db: Db, key: JobKey, lease: Uuid)
    requires Inv(db) && IsV7(key.operation) && key.operation in db.operations
    ensures var op := db.operations[key.operation]; var j := JobOf(db, key); var (t, answer) := ClaimOne(db, key, lease);
            && (answer.Found? <==> (key in db.jobs || Creatable(op, key)) && Leasable(op, key, j, db.clock))
            && (answer.Found? ==>
                  && answer.claim == Claim(key, lease, j.attempts + 1, j.cycleStart, j.recovery, db.clock + 30 * Second)
                  && t == LeaseFor(db, key, j, lease))
  {
    if key in db.jobs {
      ExistingLeasedIff(db, key, lease, RetryAt(db, key));
    } else if Creatable(db.operations[key.operation], key) {
      NewLeasedIff(db, key, lease);
    }
  }

  /** On a sound database a claim fails only for a candidate that is no job at all, and then writes nothing. */
  lemma ClaimFailsIff(db: Db, key: JobKey, lease: Uuid)
    requires Inv(db)
    ensures var (t, answer) := ClaimOne(db, key, lease);
            && (answer.Failed? <==>
                  !IsV7(key.operation) || key.operation !in db.operations || (key !in db.jobs && !Creatable(db.operations[key.operation], key)))
            && (answer.Failed? ==>
                  t == db && answer.error == if !IsV7(key.operation) then Invalid else if key.operation !in db.operations then Conflict else Storage)
  {
    if IsV7(key.operation) && key.operation in db.operations {
      assert OperationInv(db.operations[key.operation]);
      if key in db.jobs {
        assert JobInv(db.clock, db.operations[key.operation], key, db.jobs[key]);
        if db.jobs[key].state.JobClaimed? { AbandonedCloses(db, key, lease); } else { UnclaimedAnswers(db, key, lease, RetryAt(db, key)); }
      } else if Creatable(db.operations[key.operation], key) {
        NewLeasedIff(db, key, lease);
      }
    }
  }

  lemma UnclaimedAnswers(db: Db, key: JobKey, lease: Uuid, retryAt: Time)
    requires key in db.jobs && key.operation in db.operations && !db.jobs[key].state.JobClaimed?
    requires OperationInv(db.operations[key.operation]) && JobInv(db.clock, db.operations[key.operation], key, db.jobs[key])
    ensures !ClaimExisting(db, key, lease, retryAt).1.Failed?
  {}

  lemma AbandonedCloses(db: Db, key: JobKey, lease: Uuid)
    requires Inv(db) && key in db.jobs && db.jobs[key].state.JobClaimed?
    ensures !ClaimExisting(db, key, lease, RetryAt(db, key)).1.Failed?
  {
    assert JobInv(db.clock, db.operations[key.operation], key, db.jobs[key]);
    assert OperationInv(db.operations[key.operation]);
    forall state, outcome, code, at ensures FinishJob(db, key, state, outcome, code, at).Ok? { FinishJobSucceeds(db, key, state, outcome, code, at); }
  }

  /** The outcome is one a dispatcher may report for a claim of this cycle. */
  predicate Reportable(c: Claim, code: Code, permanent: bool) {
    && IsV7(c.key.operation) && IsV7(c.lease) && c.attempt >= 1 && c.cycleStart >= 0 && 1 <= c.attempt - c.cycleStart <= 20 && c.key.generation >= 1
    && code != LeaseExpired && (permanent ==> code in {InvalidIntent, IntentConflict, AuthorityUnavailable})
    && (!permanent ==> code !in {InvalidIntent, IntentConflict})
  }

  /** The job is still under this claim: its lease, its number, its cycle, and time left. */
  predicate StillHeld(db: Db, c: Claim) {
    && c.key in db.jobs && db.jobs[c.key].state.JobClaimed? && db.jobs[c.key].state.lease.id == c.lease && db.clock < db.jobs[c.key].state.lease.until
    && db.jobs[c.key].attempts == c.attempt && db.jobs[c.key].cycleStart == c.cycleStart && db.jobs[c.key].recovery == c.recovery
  }

  /** A claim in hand is saved with whatever it came to, except as done while the operation is not settled. */
  lemma SavedIff(db: Db, c: Claim, code: Code, permanent: bool, retryAt: Time)
    requires Inv(db) && c.key.operation in db.operations
    ensures var r := FinishWith(db, c, code, permanent, retryAt);
            && (r.Ok? <==>
                  && Reportable(c, code, permanent) && StillHeld(db, c)
                  && (Settled(db.operations[c.key.operation], c.key) || code != NoCode))
            && (r.Err? ==> r.error == if !Reportable(c, code, permanent) then Invalid else if !StillHeld(db, c) then LeaseLost else Conflict)
  {
    if StillHeld(db, c) {
      HeldIsScheduled(db, c);
      SaveOfHeld(db, c, code, permanent, retryAt);
    }
  }

  lemma SaveOfHeld(db: Db, c: Claim, code: Code, permanent: bool, retryAt: Time)
    requires c.key.operation in db.operations && StillHeld(db, c)
    requires var op := db.operations[c.key.operation]; var schedule := ScheduleOutcome(op, c.key.kind, c.key.generation, db.clock);
             schedule.Ok? && (schedule.value.0 <==> Settled(op, c.key)) && (!schedule.value.0 ==> schedule.value.1 <= db.clock)
    requires forall state, outcome, kept, at :: FinishJob(db, c.key, state, outcome, kept, at).Ok?
    ensures var r := FinishWith(db, c, code, permanent, retryAt);
            && (r.Ok? <==> Reportable(c, code, permanent) && (Settled(db.operations[c.key.operation], c.key) || code != NoCode))
            && (r.Err? ==> r.error == if !Reportable(c, code, permanent) then Invalid else Conflict)
  {}

  lemma HeldIsScheduled(db: Db, c: Claim)
    requires Inv(db) && c.key.operation in db.operations && StillHeld(db, c)
    ensures var op := db.operations[c.key.operation]; var schedule := ScheduleOutcome(op, c.key.kind, c.key.generation, db.clock);
            schedule.Ok? && (schedule.value.0 <==> Settled(op, c.key)) && (!schedule.value.0 ==> schedule.value.1 <= db.clock)
    ensures forall state, outcome, kept, at :: FinishJob(db, c.key, state, outcome, kept, at).Ok?
  {
    assert JobInv(db.clock, db.operations[c.key.operation], c.key, db.jobs[c.key]);
    assert OperationInv(db.operations[c.key.operation]);
    forall state, outcome, kept, at ensures FinishJob(db, c.key, state, outcome, kept, at).Ok? {
      FinishJobSucceeds(db, c.key, state, outcome, kept, at);
    }
  }

  /** What a save writes: the attempt's record under its own number and lease, and the job as that leaves it. */
  lemma SavedExactly(db: Db, c: Claim, code: Code, permanent: bool, retryAt: Time)
    requires Inv(db) && c.key.operation in db.operations && FinishWith(db, c, code, permanent, retryAt).Ok?
    ensures StillHeld(db, c)
    ensures var j := db.jobs[c.key]; var slot := AttemptKey(c.key, c.attempt); var t := FinishWith(db, c, code, permanent, retryAt).value.0;
            if Settled(db.operations[c.key.operation], c.key) then
              t == db.(attempts := db.attempts[slot := Attempt(c.lease, Completed, NoCode, c.recovery)],
                       jobs := db.jobs[c.key := j.(state := JobDone, available := db.clock, lastError := NoCode)])
            else if permanent || c.attempt - c.cycleStart >= 20 then
              t == db.(attempts := db.attempts[slot := Attempt(c.lease, Attention, code, c.recovery)],
                       jobs := db.jobs[c.key := j.(state := JobAttention, available := retryAt, lastError := code)])
            else
              t == db.(attempts := db.attempts[slot := Attempt(c.lease, Retry, code, c.recovery)],
                       jobs := db.jobs[c.key := j.(state := JobPending, available := retryAt, lastError := code)])
  {
    SavedIff(db, c, code, permanent, retryAt);
    HeldIsScheduled(db, c);
    WrittenExactly(db, c, code, permanent, retryAt);
  }

  lemma WrittenExactly(db: Db, c: Claim, code: Code, permanent: bool, retryAt: Time)
    requires c.key.operation in db.operations && StillHeld(db, c) && FinishWith(db, c, code, permanent, retryAt).Ok?
    requires var op := db.operations[c.key.operation]; var schedule := ScheduleOutcome(op, c.key.kind, c.key.generation, db.clock);
             schedule.Ok? && (schedule.value.0 <==> Settled(op, c.key)) && (!schedule.value.0 ==> schedule.value.1 <= db.clock)
    ensures var j := db.jobs[c.key]; var settled := Settled(db.operations[c.key.operation], c.key);
            var stop := permanent || c.attempt - c.cycleStart >= 20;
            FinishWith(db, c, code, permanent, retryAt).value.0 ==
              db.(attempts := db.attempts[AttemptKey(c.key, c.attempt) :=
                    Attempt(c.lease, if settled then Completed else if stop then Attention else Retry, if settled then NoCode else code, c.recovery)],
                  jobs := db.jobs[c.key := j.(state := if settled then JobDone else if stop then JobAttention else JobPending,
                                              available := if settled then db.clock else retryAt, lastError := if settled then NoCode else code)])
  {}

  /** The queue itself waits the doubling law of the attempt within its cycle, from one second up to thirty. */
  lemma SavedAfterDoubling(db: Db, c: Claim, code: Code, permanent: bool)
    requires StillHeld(db, c) && c.attempt - c.cycleStart >= 1
    ensures Finish(db, c, code, permanent) == FinishWith(db, c, code, permanent, db.clock + Backoff.Doubling(c.attempt - c.cycleStart, 30) / 1000)
  {
    Backoff.BootstrapDelayIsDoubling(c.attempt - c.cycleStart);
  }

  // ---- The invitee ------------------------------------------------------------------------------

  /** Exactly a pending invitation of a waiting operation is accepted, and ends both. */
  lemma AcceptedIff(db: Db, id: Uuid)
    ensures var t := Next(db, Accept(id));
            if id in db.operations && db.operations[id].status == Waiting && !db.operations[id].superseded
               && BoundInvitation(db.operations[id]).Some? && BoundInvitation(db.operations[id]).value.status == InvitationPending
            then
              var op := db.operations[id]; var inv := BoundInvitation(op).value;
              t == With(db, id, Operation(Succeeded, op.version + 1, false, op.result,
                     op.invitations[op.result.value := Invitation(inv.generation, inv.expiresAt, InvitationAccepted, inv.version + 1)]))
            else t == db
  {}

  /** A pending invitation ends expired, accepted or cancelled, once; superseding an operation ends the operation. */
  lemma EndedExactly(db: Db, id: Uuid, status: InvitationStatus)
    ensures var t := Next(db, EndInvitation(id, status));
            if id in db.operations && BoundInvitation(db.operations[id]).Some? && BoundInvitation(db.operations[id]).value.status == InvitationPending
               && status != InvitationPending
            then
              var op := db.operations[id]; var inv := BoundInvitation(op).value;
              t == With(db, id, op.(invitations := op.invitations[op.result.value := Invitation(inv.generation, inv.expiresAt, status, inv.version + 1)]))
            else t == db
    ensures Next(db, Supersede(id)) ==
              if id in db.operations
              then With(db, id, Operation(Superseded, db.operations[id].version + 1, true, db.operations[id].result, db.operations[id].invitations))
              else db
  {}

  /** A claim on an operation that is not there is not saved. */
  lemma OrphanIsNotSaved(db: Db, c: Claim, code: Code, permanent: bool)
    requires Reportable(c, code, permanent) && c.key.operation !in db.operations
    ensures Finish(db, c, code, permanent) == Err(Conflict)
  {}
}
