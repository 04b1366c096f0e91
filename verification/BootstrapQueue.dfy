/**
 * The Bootstrap services as they run: transactions that read rows, write fields and commit, the
 * candidate loop of Claim, and one dispatch from claim to saved outcome.
 */
module BootstrapQueue {
  import opened Ids
  import opened BootstrapModel
  import opened BootstrapRuns
  import G = BootstrapGuarantees
  import D = BootstrapDecisions

  /** The candidates in discovery order, each under its own fresh lease id, until one is leased. */
  function ClaimAny(db: Db, keys: seq<JobKey>, leases: seq<Uuid>): (Db, ClaimAnswer)
    requires |keys| == |leases|
    decreases |keys|
  {
    if keys == [] then (db, Nothing)
    else
      var r := ClaimOne(db, keys[0], leases[0]);
      if r.1.Nothing? then ClaimAny(r.0, keys[1..], leases[1..]) else r
  }

  /** What DispatchNext reports: a queue error as it is, a job left to an operator, or a failed attempt. */
  datatype Report = Plain(error: Failure) | NeedsAttention | Retryable

  /** The claim's own shape, checked before any work. */
  predicate WellFormed(c: Claim) {
    && IsV7(c.key.operation) && IsV7(c.lease) && c.attempt >= 1 && c.cycleStart >= 0
    && 1 <= c.attempt - c.cycleStart <= MaxAttempts && c.key.generation >= 1
  }

  /** The worker's transaction for a claim, and its failure if it had one. */
  function Work(db: Db, c: Claim, invitation: Uuid, w: Surroundings): (Db, Option<Failure>) {
    match (if c.key.kind == Initialize then Reconcile(db, c.key.operation, invitation, w)
           else ExpireInvitation(db, c.key.operation, c.key.generation, w))
    case Ok(done) => (done.0, None)
    case Err(e) => (db, Some(e))
  }

  /** Saving: a lost lease is no error, and attention outranks the failure that caused it. */
  function Settle(db: Db, c: Claim, failure: Option<Failure>): (Db, Option<Report>) {
    var (code, permanent) := Classify(failure);
    match Finish(db, c, code, permanent)
    case Err(LeaseLost) => (db, None)
    case Err(e) => (db, Some(Plain(e)))
    case Ok(saved) => (saved.0, if saved.1 then Some(NeedsAttention) else if failure.Some? then Some(Retryable) else None)
  }

  /** One dispatch: claim, work, classify, save. */
  function Dispatched(db: Db, keys: seq<JobKey>, leases: seq<Uuid>, invitation: Uuid, w: Surroundings): (Db, bool, Option<Report>)
    requires |keys| == |leases|
  {
    var (claimed, answer) := ClaimAny(db, keys, leases);
    match answer
    case Nothing => (claimed, false, None)
    case Failed(e) => (claimed, false, Some(Plain(e)))
    case Found(c) =>
      if !WellFormed(c) then (claimed, true, Some(Plain(Invalid)))
      else
        var (worked, failure) := Work(claimed, c, invitation, w);
        var (saved, report) := Settle(worked, c, failure);
        (saved, true, report)
  }

  class Store {
    var clock: Time
    var operations: map<Uuid, Operation>
    var jobs: map<JobKey, Job>
    var attempts: map<AttemptKey, Attempt>
    var issued: set<Uuid>

    constructor (clock: Time)
      ensures Value() == Empty(clock)
    {
      this.clock, operations, jobs, attempts, issued := clock, map[], map[], map[], {};
    }

    function Value(): Db reads this { Db(clock, operations, jobs, attempts, issued) }

    /** finishJob: append the record, then close the lease; both or neither. */
    method CloseLease(key: JobKey, state: JobState, outcome: AttemptOutcome, code: Code, available: Time) returns (ok: bool)
      requires key in jobs && jobs[key].state.JobClaimed?
      modifies this`jobs, this`attempts
      ensures ok == old(FinishJob(Value(), key, state, outcome, code, available)).Ok?
      ensures ok ==> Value() == old(FinishJob(Value(), key, state, outcome, code, available)).value
      ensures !ok ==> Value() == old(Value())
    {
      var j := jobs[key];
      var slot := AttemptKey(key, j.attempts);
      ok := slot !in attempts && forall k | k in attempts :: attempts[k].lease != j.state.lease.id;
      if ok {
        attempts := attempts[slot := Attempt(j.state.lease.id, outcome, code, j.recovery)];
        jobs := jobs[key := j.(state := state, available := available, lastError := code)];
      }
    }

    /** One candidate's transaction; an error restores the rows it had written. */
    method ClaimCandidate(key: JobKey, lease: Uuid) returns (answer: ClaimAnswer)
      modifies this
      ensures (Value(), answer) == old(ClaimOne(Value(), key, lease))
    {
      if !IsV7(key.operation) { return Failed(Invalid); }
      if key.operation !in operations { return Failed(Conflict); }
      var before := jobs;
      var op := operations[key.operation];
      if key !in jobs {
        if !MayCreate(op, key) { return Failed(Storage); }
        jobs := jobs[key := Job(JobPending, 0, 0, None, clock, NoCode)];
      }
      answer := ClaimLocked(key, lease);
      if answer.Failed? { jobs := before; }
    }

    method ClaimLocked(key: JobKey, lease: Uuid) returns (answer: ClaimAnswer)
      requires key in jobs && key.operation in operations
      modifies this
      ensures (Value(), answer) == old(ClaimExisting(Value(), key, lease, RetryAt(Value(), key)))
      ensures answer.Failed? ==> Value() == old(Value())
    {
      var j := jobs[key];
      if j.state == JobDone || j.state == JobAttention { return Nothing; }
      var schedule := ScheduleOutcome(operations[key.operation], key.kind, key.generation, clock);
      if schedule.Err? { return Failed(schedule.error); }
      var (terminal, available) := schedule.value;
      if j.state.JobClaimed? {
        if j.state.lease.until > clock { return Nothing; }
        var ok;
        if terminal {
          ok := CloseLease(key, JobDone, RecoveredCompletion, NoCode, clock);
        } else {
          var state := JobPending;
          if j.attempts - j.cycleStart >= MaxAttempts { state := JobAttention; }
          ok := CloseLease(key, state, LeaseRanOut, LeaseExpired, clock + RetryDelay(j.attempts - j.cycleStart));
        }
        return if ok then Nothing else Failed(Storage);
      }
      if terminal || j.available > clock || available > clock { return Nothing; }
      if j.attempts + 1 - j.cycleStart > MaxAttempts { return Failed(Storage); }
      j := j.(state := JobClaimed(Lease(lease, clock + LeaseTime)), attempts := j.attempts + 1);
      jobs := jobs[key := j];
      issued := issued + {lease};
      return Found(Claim(key, lease, j.attempts, j.cycleStart, j.recovery, clock + LeaseTime));
    }

    method ClaimNext(keys: seq<JobKey>, leases: seq<Uuid>) returns (answer: ClaimAnswer)
      requires |keys| == |leases|
      modifies this
      ensures (Value(), answer) == old(ClaimAny(Value(), keys, leases))
    {
      var i := 0;
      while i < |keys|
        invariant 0 <= i <= |keys|
        invariant ClaimAny(Value(), keys[i..], leases[i..]) == old(ClaimAny(Value(), keys, leases))
      {
        answer := ClaimCandidate(keys[i], leases[i]);
        assert keys[i..][1..] == keys[i + 1..] && leases[i..][1..] == leases[i + 1..];
        if !answer.Nothing? { return answer; }
        i := i + 1;
      }
      return Nothing;
    }

    method SaveResult(c: Claim, code: Code, permanent: bool) returns (r: Result<bool>)
      modifies this
      ensures Saved(r, old(Value()), old(Finish(Value(), c, code, permanent)))
    {
      if !ValidFinish(c, code, permanent) { return Err(Invalid); }
      if c.key.operation !in operations { return Err(Conflict); }
      if c.key !in jobs || !HoldsLease(Value(), c) { return Err(LeaseLost); }
      r := SaveHeld(c, code, permanent, RetryAt(Value(), c.key));
    }

    /** The answer and the state follow one specified outcome; an error changed nothing. */
    predicate Saved(r: Result<bool>, before: Db, outcome: Result<(Db, bool)>) reads this {
      match outcome
      case Ok(v) => r == Ok(v.1) && Value() == v.0
      case Err(e) => r == Err(e) && Value() == before
    }

    method SaveHeld(c: Claim, code: Code, permanent: bool, retryAt: Time) returns (r: Result<bool>)
      requires ValidFinish(c, code, permanent) && c.key.operation in operations && HoldsLease(Value(), c)
      modifies this`jobs, this`attempts
      ensures Saved(r, old(Value()), old(FinishWith(Value(), c, code, permanent, retryAt)))
    {
      var op := operations[c.key.operation];
      var schedule := ScheduleOutcome(op, c.key.kind, c.key.generation, clock);
      if schedule.Err? { return Err(schedule.error); }
      var (terminal, available) := schedule.value;
      var attention, state, outcome, kept, at := false, JobDone, Completed, NoCode, clock;
      if terminal {
        attention := op.status == AttentionRequired;
      } else if code == NoCode {
        if c.key.kind != Expire || available <= clock { return Err(Conflict); }
        state, outcome, at := JobPending, Deferred, available;
      } else {
        state, outcome, kept, at := JobPending, Retry, code, retryAt;
        if permanent || c.attempt - c.cycleStart >= MaxAttempts {
          state, outcome, attention := JobAttention, Attention, true;
        }
      }
      var ok := CloseLease(c.key, state, outcome, kept, at);
      return if ok then Ok(attention) else Err(Storage);
    }

    /** The worker's transaction: every check reads the locked operation, the writes come last. */
    method ReconcileWork(id: Uuid, invitation: Uuid, w: Surroundings) returns (r: Result<WorkerResult>)
      modifies this`operations
      ensures Worked(r, old(Value()), old(Reconcile(Value(), id, invitation, w)))
    {
      if !IsV7(id) { return Err(Invalid); }
      if id !in operations { return Err(Conflict); }
      var op := operations[id];
      if !w.intent { return Err(Invalid); }
      if w.authority.Some? { return Err(w.authority.value); }
      if op.superseded { return Err(Conflict); }
      if op.result.Some? { return Ok(WorkerResult(op.result, op.status)); }
      if op.status != Pending || op.version != 1 || w.accessExists { return Err(Conflict); }
      if !w.current { return Err(Stale); }
      if !w.active { return Err(Blocked); }
      if !w.catalog { return Err(Authority); }
      if !IsV7(invitation) { return Err(Dependency); }
      if invitation in op.invitations { return Err(Conflict); }
      op := op.(invitations := op.invitations[invitation := Invitation(1, w.now + InvitationLifetime, InvitationPending, 1)]);
      op := op.(status := Waiting, version := op.version + 1);
      op := op.(result := Some(invitation));
      if w.recheck.Some? { return Err(w.recheck.value); }
      operations := operations[id := op];
      return Ok(WorkerResult(Some(invitation), Waiting));
    }

    predicate Worked(r: Result<WorkerResult>, before: Db, outcome: Result<(Db, WorkerResult)>) reads this {
      match outcome
      case Ok(v) => r == Ok(v.1) && Value() == v.0
      case Err(e) => r == Err(e) && Value() == before
    }

    method ExpireWork(id: Uuid, generation: int, w: Surroundings) returns (r: Result<WorkerResult>)
      modifies this`operations
      ensures Worked(r, old(Value()), old(ExpireInvitation(Value(), id, generation, w)))
    {
      if !IsV7(id) || generation < 1 { return Err(Invalid); }
      if id !in operations { return Err(Conflict); }
      var op := operations[id];
      if !w.intent { return Err(Invalid); }
      if w.authority.Some? { return Err(w.authority.value); }
      if op.superseded || op.status == Succeeded || op.status == AttentionRequired { return Ok(WorkerResult(op.result, op.status)); }
      var bound := BoundInvitation(op);
      if op.status != Waiting || bound.None? { return Err(Conflict); }
      var inv := bound.value;
      if inv.generation != generation { return Ok(WorkerResult(op.result, op.status)); }
      if w.now < inv.expiresAt { return Ok(WorkerResult(op.result, op.status)); }
      if inv.status == InvitationPending {
        inv := inv.(status := InvitationExpired, version := inv.version + 1);
      } else if inv.status != InvitationExpired {
        return Err(Conflict);
      }
      if inv.expiresAt > clock { return Err(Conflict); }
      if w.recheck.Some? { return Err(w.recheck.value); }
      op := op.(invitations := op.invitations[op.result.value := inv]);
      operations := operations[id := op.(status := AttentionRequired, version := op.version + 1)];
      return Ok(WorkerResult(op.result, AttentionRequired));
    }

    method RunWork(c: Claim, invitation: Uuid, w: Surroundings) returns (failure: Option<Failure>)
      modifies this`operations
      ensures (Value(), failure) == Work(old(Value()), c, invitation, w)
    {
      var r: Result<WorkerResult>;
      if c.key.kind == Initialize {
        r := ReconcileWork(c.key.operation, invitation, w);
      } else {
        r := ExpireWork(c.key.operation, c.key.generation, w);
      }
      failure := if r.Err? then Some(r.error) else None;
    }

    method SaveFailure(c: Claim, failure: Option<Failure>) returns (report: Option<Report>)
      modifies this
      ensures (Value(), report) == Settle(old(Value()), c, failure)
    {
      var (code, permanent) := Classify(failure);
      var saved := SaveResult(c, code, permanent);
      if saved.Err? { return if saved.error == LeaseLost then None else Some(Plain(saved.error)); }
      if saved.value { return Some(NeedsAttention); }
      return if failure.Some? then Some(Retryable) else None;
    }

    /**
     * DispatchNext equals its specification, and the ghost result is the run of the machine it made, so
     * every guarantee over runs covers it.
     */
    method DispatchNext(keys: seq<JobKey>, leases: seq<Uuid>, invitation: Uuid, w: Surroundings)
      returns (worked: bool, error: Option<Report>, ghost steps: seq<Step>)
      requires |keys| == |leases| && forall i | 0 <= i < |leases| :: leases[i] !in issued
      modifies this
      ensures (Value(), worked, error) == Dispatched(old(Value()), keys, leases, invitation, w)
      ensures Reaches(old(Value()), steps, Value())
    {
      ghost var start := Value();
      var answer := ClaimNext(keys, leases);
      steps := ClaimSteps(start, keys, leases);
      ClaimAnyReaches(start, keys, leases);
      if !answer.Found? { return false, if answer.Failed? then Some(Plain(answer.error)) else None, steps; }
      var c := answer.claim;
      if !WellFormed(c) { return true, Some(Plain(Invalid)), steps; }
      ghost var claimed := Value();
      var failure := RunWork(c, invitation, w);
      error := SaveFailure(c, failure);
      worked := true;
      steps := WorkAndSave(start, steps, claimed, c, invitation, w);
    }
  }

  // ---- A dispatch is a run ----------------------------------------------------------------------

  function ClaimSteps(db: Db, keys: seq<JobKey>, leases: seq<Uuid>): (steps: seq<Step>)
    requires |keys| == |leases|
    decreases |keys|
  {
    if keys == [] then []
    else
      var r := ClaimOne(db, keys[0], leases[0]);
      [ClaimJob(keys[0], leases[0])] + if r.1.Nothing? then ClaimSteps(r.0, keys[1..], leases[1..]) else []
  }

  lemma NothingIssuesNothing(db: Db, key: JobKey, lease: Uuid)
    ensures !ClaimOne(db, key, lease).1.Found? ==> ClaimOne(db, key, lease).0.issued == db.issued
  {}

  lemma {:induction false} ClaimAnyReaches(db: Db, keys: seq<JobKey>, leases: seq<Uuid>)
    requires |keys| == |leases| && forall i | 0 <= i < |leases| :: leases[i] !in db.issued
    ensures Reaches(db, ClaimSteps(db, keys, leases), ClaimAny(db, keys, leases).0)
    decreases |keys|
  {
    if keys != [] {
      var r := ClaimOne(db, keys[0], leases[0]);
      var tail := if r.1.Nothing? then ClaimSteps(r.0, keys[1..], leases[1..]) else [];
      NothingIssuesNothing(db, keys[0], leases[0]);
      if r.1.Nothing? { ClaimAnyReaches(r.0, keys[1..], leases[1..]); }
      assert ClaimSteps(db, keys, leases)[1..] == tail;
    }
  }

  lemma {:induction false} ReachesAppend(a: Db, steps: seq<Step>, b: Db, last: Step)
    requires Reaches(a, steps, b) && Enabled(b, last)
    ensures Reaches(a, steps + [last], Next(b, last))
    decreases |steps|
  {
    if steps == [] {
      assert (steps + [last])[1..] == [];
      assert Reaches(Next(b, last), [], Next(b, last));
    } else {
      ReachesAppend(Next(a, steps[0]), steps[1..], b, last);
      assert (steps + [last])[1..] == steps[1..] + [last];
    }
  }

  lemma Extend(a: Db, steps: seq<Step>, b: Db, last: Step) returns (longer: seq<Step>)
    requires Reaches(a, steps, b) && Enabled(b, last)
    ensures Reaches(a, longer, Next(b, last))
  {
    ReachesAppend(a, steps, b, last);
    longer := steps + [last];
  }

  function WorkStep(c: Claim, invitation: Uuid, w: Surroundings): Step {
    if c.key.kind == Initialize then RunReconcile(c.key.operation, invitation, w) else RunExpire(c.key.operation, c.key.generation, w)
  }

  lemma WorkIsAStep(db: Db, c: Claim, invitation: Uuid, w: Surroundings)
    ensures Enabled(db, WorkStep(c, invitation, w)) && Next(db, WorkStep(c, invitation, w)) == Work(db, c, invitation, w).0
  {}

  lemma SettleIsAStep(db: Db, c: Claim, failure: Option<Failure>)
    ensures var (code, permanent) := Classify(failure);
            Enabled(db, SaveOutcome(c, code, permanent)) && Next(db, SaveOutcome(c, code, permanent)) == Settle(db, c, failure).0
  {}

  lemma WorkAndSave(start: Db, steps: seq<Step>, claimed: Db, c: Claim, invitation: Uuid, w: Surroundings) returns (longer: seq<Step>)
    requires Reaches(start, steps, claimed)
    ensures var (worked, failure) := Work(claimed, c, invitation, w);
            Reaches(start, longer, Settle(worked, c, failure).0)
  {
    var (worked, failure) := Work(claimed, c, invitation, w);
    var (code, permanent) := Classify(failure);
    WorkIsAStep(claimed, c, invitation, w);
    SettleIsAStep(worked, c, failure);
    longer := Extend(start, steps, claimed, WorkStep(c, invitation, w));
    longer := Extend(start, longer, worked, SaveOutcome(c, code, permanent));
  }

  // ---- What a dispatch reports ------------------------------------------------------------------

  /** Every claim of a sound queue has the shape the dispatcher checks for. */
  lemma {:induction false} FoundIsWellFormed(db: Db, keys: seq<JobKey>, leases: seq<Uuid>)
    requires Inv(db) && |keys| == |leases| && forall i | 0 <= i < |leases| :: leases[i] !in db.issued && IsV7(leases[i])
    ensures var (t, answer) := ClaimAny(db, keys, leases); Inv(t) && (answer.Found? ==> WellFormed(answer.claim))
    decreases |keys|
  {
    if keys != [] {
      var r := ClaimOne(db, keys[0], leases[0]);
      StepKeepsInv(db, ClaimJob(keys[0], leases[0]));
      NothingIssuesNothing(db, keys[0], leases[0]);
      if r.1.Found? { G.ClassifiedFailureIsAccepted(db, keys[0], leases[0], None); }
      if r.1.Nothing? { FoundIsWellFormed(r.0, keys[1..], leases[1..]); }
    }
  }

  /** So a claimed job is always worked on and saved, and nothing else is. */
  lemma DispatchWorks(db: Db, keys: seq<JobKey>, leases: seq<Uuid>, invitation: Uuid, w: Surroundings)
    requires Inv(db) && |keys| == |leases| && forall i | 0 <= i < |leases| :: leases[i] !in db.issued && IsV7(leases[i])
    ensures Dispatched(db, keys, leases, invitation, w) == DispatchOf(ClaimAny(db, keys, leases), invitation, w)
  {
    FoundIsWellFormed(db, keys, leases);
    WellFormedIsWorked(db, keys, leases, invitation, w);
  }

  /** The claim's work and what saving it reports, or the claim's own failure. */
  function DispatchOf(claim: (Db, ClaimAnswer), invitation: Uuid, w: Surroundings): (Db, bool, Option<Report>) {
    match claim.1
    case Found(c) =>
      var done := Work(claim.0, c, invitation, w);
      (Settle(done.0, c, done.1).0, true, Settle(done.0, c, done.1).1)
    case Failed(e) => (claim.0, false, Some(Plain(e)))
    case Nothing => (claim.0, false, None)
  }

  lemma WellFormedIsWorked(db: Db, keys: seq<JobKey>, leases: seq<Uuid>, invitation: Uuid, w: Surroundings)
    requires |keys| == |leases| && (ClaimAny(db, keys, leases).1.Found? ==> WellFormed(ClaimAny(db, keys, leases).1.claim))
    ensures Dispatched(db, keys, leases, invitation, w) == DispatchOf(ClaimAny(db, keys, leases), invitation, w)
  {}

  /**
   * The report after saving: silence for a lost lease; attention for a job left so or an operation already so;
   * otherwise a failure if the attempt had one. Work that succeeded without settling anything cannot be saved.
   */
  lemma ReportIsExact(db: Db, c: Claim, failure: Option<Failure>)
    requires Inv(db) && WellFormed(c) && c.key.operation in db.operations
    ensures var (t, report) := Settle(db, c, failure); var op := db.operations[c.key.operation];
            if !D.StillHeld(db, c) then t == db && report == None
            else if failure.None? && !Settled(op, c.key) then t == db && report == Some(Plain(Conflict))
            else
              report == if t.jobs[c.key].state == JobAttention || op.status == AttentionRequired then Some(NeedsAttention)
                        else if failure.Some? then Some(Retryable) else None
  {
    var (code, permanent) := Classify(failure);
    var retryAt := if c.key in db.jobs then RetryAt(db, c.key) else db.clock;
    G.ClassificationFits(failure);
    if failure.Some? { G.FailureIsFiledAs(failure.value); }
    D.SavedIff(db, c, code, permanent, retryAt);
    if FinishWith(db, c, code, permanent, retryAt).Ok? {
      D.SavedExactly(db, c, code, permanent, retryAt);
      G.SaveFlagsAttention(db, c, code, permanent, retryAt);
    }
  }
}
