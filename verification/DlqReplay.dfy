/**
 * Operator replay of quarantined deliveries: the replay transaction, whose commit may go unseen,
 * and the separate transaction that afterwards records a failed attempt.
 */
module DlqReplay {
  import opened Ids
  import R = TenantReplication
  import B = BrokerModel
  import BrokerRuns

  datatype Command = Command(entry: int, payload: seq<byte>, expectedAttempt: int, reason: string)
  datatype Key = Key(actor: Uuid, key: string)
  datatype Identity = Identity(key: Key, caller: Uuid, command: Command)

  datatype Kind = Received | Duplicate | Covered
  datatype Code = Provenance | EntryNotFound | RequestConflict | IdempotencyExpired | HumanDenied | BrokerDenied
                | InvalidEvent | EventConflict | DependencyUnavailable

  datatype Verdict = Succeeded(kind: Kind) | Failed(code: Code)
  datatype Attempt = Attempt(entry: int, number: int, id: Uuid, audit: Uuid, verdict: Verdict)
  datatype Result = Result(entry: int, attempt: Uuid, audit: Uuid, number: int, kind: Kind)
  datatype Stored = Stored(identity: Identity, result: Result, expiresAt: Time)

  /** A call whose replay did not visibly succeed and whose failure is still to be recorded. */
  datatype Pending = Pending(identity: Identity, audit: Uuid, code: Code)

  /** `issued` and `applied` are history: ids handed out, and attempts whose application committed. */
  datatype World = World(
    config: B.Config, db: B.Db, log: seq<Attempt>, mutations: map<Key, Stored>, audits: set<Uuid>,
    open: map<Uuid, Pending>, issued: set<Uuid>, applied: set<Uuid>)

  /** What the repeated checks of human and source authority answer, in the order they are made. */
  datatype Checks = Checks(
    authorized: Option<Code>, source: Option<Code>, human: Option<Code>, decoded: Option<R.Delivery>,
    answers: B.Answers, fingerprint: bool, stillHuman: Option<Code>, stillSource: Option<Code>, now: Time)

  datatype Reply = Replied(result: Result, replayed: bool) | Refused(code: Code)

  function Last(log: seq<Attempt>, entry: int): (n: nat) {
    if log == [] then 0
    else
      var rest := Last(log[..|log| - 1], entry);
      var a := log[|log| - 1];
      if a.entry == entry && a.number > rest then a.number else rest
  }

  /** The insert trigger and unique columns of core_broker_dlq_attempts. */
  predicate MayAppend(log: seq<Attempt>, a: Attempt) {
    && a.number == Last(log, a.entry) + 1
    && forall i | 0 <= i < |log| :: log[i].id != a.id && log[i].audit != a.audit
  }

  /** CoreDLQFailureCode; refusals of the lifecycle projection are filed as an unavailable dependency. */
  function CodeOf(f: B.Failure): Code {
    match f case Denied => BrokerDenied case Conflict => EventConflict case Invalid => InvalidEvent case _ => DependencyUnavailable
  }

  /** How a successful receipt ended; refused ones have no kind and default to the first. */
  function KindOf(db: B.Db, d: R.Delivery, clock: Time): Kind {
    match R.Receive(db.store, d, clock)
    case Ok(applied) => if applied.1.duplicate then Duplicate else if applied.1.outcome.Covered? then Covered else Received
    case _ => Received
  }

  datatype Replayed = Replayed(world: World, reply: Reply)

  /** The replay transaction up to its commit; a refusal leaves the world as it was. */
  function Transact(w: World, id: Identity, attempt: Uuid, audit: Uuid, c: Checks): (r: Replayed)
    ensures r.reply.Refused? ==> r.world == w
  {
    var entry := id.command.entry;
    if c.authorized.Some? then Replayed(w, Refused(c.authorized.value))
    else if entry !in w.db.dlq then Replayed(w, Refused(EntryNotFound))
    else if w.db.dlq[entry].message.payload != id.command.payload then Replayed(w, Refused(RequestConflict))
    else if c.source.Some? then Replayed(w, Refused(c.source.value))
    else if c.human.Some? then Replayed(w, Refused(c.human.value))
    else if id.key in w.mutations then
      var stored := w.mutations[id.key];
      if stored.identity != id then Replayed(w, Refused(RequestConflict))
      else if c.now >= stored.expiresAt then Replayed(w, Refused(IdempotencyExpired))
      else if c.stillHuman.Some? then Replayed(w, Refused(c.stillHuman.value))
      else Replayed(w, Replied(stored.result, true))
    else ApplyOriginal(w, id, attempt, audit, c)
  }

  /** A first request: apply the retained original and keep attempt, audit and result together. */
  function ApplyOriginal(w: World, id: Identity, attempt: Uuid, audit: Uuid, c: Checks): (r: Replayed)
    requires id.command.entry in w.db.dlq
    ensures r.reply.Refused? ==> r.world == w
  {
    var entry := id.command.entry;
    if Last(w.log, entry) != id.command.expectedAttempt then Replayed(w, Refused(RequestConflict))
    else if c.decoded.None? then Replayed(w, Refused(InvalidEvent))
    else match B.ReceiveInTransaction(w.config, w.db, w.db.dlq[entry].message, c.decoded.value, c.answers)
      case Err(f) => Replayed(w, Refused(CodeOf(f)))
      case Ok(db) => KeepApplied(w, id, attempt, audit, c, db)
  }

  /** The receipt has been written; the second checks still decide whether anything stays. */
  function KeepApplied(w: World, id: Identity, attempt: Uuid, audit: Uuid, c: Checks, db: B.Db): (r: Replayed)
    requires c.decoded.Some?
    ensures r.reply.Refused? ==> r.world == w
  {
    var entry := id.command.entry;
    var number := Last(w.log, entry) + 1;
    var kind := KindOf(w.db, c.decoded.value, c.answers.clock);
    var row := Attempt(entry, number, attempt, audit, Succeeded(kind));
    if !c.fingerprint then Replayed(w, Refused(BrokerDenied))
    else if audit in w.audits || !MayAppend(w.log, row) then Replayed(w, Refused(DependencyUnavailable))
    else if c.stillSource.Some? then Replayed(w, Refused(c.stillSource.value))
    else if c.stillHuman.Some? then Replayed(w, Refused(c.stillHuman.value))
    else
      var result := Result(entry, attempt, audit, number, kind);
      Replayed(w.(db := db, log := w.log + [row], audits := w.audits + {audit}, applied := w.applied + {attempt},
                  mutations := w.mutations[id.key := Stored(id, result, c.now + 24 * Hour)]),
               Replied(result, false))
  }

  /** RecordCoreDLQFailure: resolve an uncertain commit of this very attempt, or record its failure. */
  function RecordFailure(w: World, attempt: Uuid, p: Pending): (t: World)
    ensures t.db == w.db && t.mutations == w.mutations && t.applied == w.applied
  {
    var key := p.identity.key;
    var entry := p.identity.command.entry;
    if key in w.mutations && w.mutations[key].identity == p.identity
      && w.mutations[key].result.attempt == attempt && w.mutations[key].result.audit == p.audit then w
    else if p.audit in w.audits then w
    else if entry !in w.db.dlq then w.(audits := w.audits + {p.audit})
    else
      var row := Attempt(entry, Last(w.log, entry) + 1, attempt, p.audit, Failed(p.code));
      if MayAppend(w.log, row) then w.(audits := w.audits + {p.audit}, log := w.log + [row]) else w
  }

  datatype Step =
    | Replay(id: Identity, attempt: Uuid, audit: Uuid, checks: Checks, commit: B.Commit)
    | Record(attempt: Uuid, commit: B.Commit)
    | Crash(attempt: Uuid)
    | OrdinaryReceive(m: B.Message, d: R.Delivery, answers: B.Answers, receiveCommit: B.Commit)
    | OrdinaryQuarantine(m: B.Message, reason: B.Reason, quarantineCommit: B.Commit)

  /** Generated identifiers never repeat. */
  predicate Enabled(w: World, step: Step) {
    match step
    case Replay(_, attempt, audit, _, _) => attempt !in w.issued && audit !in w.issued && attempt != audit
    case Record(attempt, _) => attempt in w.open
    case _ => true
  }

  function Next(w: World, step: Step): World
    requires Enabled(w, step)
  {
    match step
    case Replay(id, attempt, audit, checks, commit) =>
      var r := Transact(w, id, attempt, audit, checks);
      var t := if commit == B.Aborts then w else r.world;
      var failed := if r.reply.Refused? then Some(r.reply.code) else if commit == B.Commits then None else Some(DependencyUnavailable);
      var known := t.(issued := w.issued + {attempt, audit});
      if failed.None? then known else known.(open := w.open[attempt := Pending(id, audit, failed.value)])
    case Record(attempt, commit) =>
      var t := if commit == B.Aborts then w else RecordFailure(w, attempt, w.open[attempt]);
      t.(open := w.open - {attempt})
    case Crash(attempt) => w.(open := w.open - {attempt})
    case OrdinaryReceive(m, d, a, commit) => w.(db := B.After(w.db, B.Receive(w.config, w.db, m, d, a), commit))
    case OrdinaryQuarantine(m, reason, commit) => w.(db := B.After(w.db, B.Quarantine(w.config, w.db, m, reason), commit))
  }

  ghost predicate Reaches(w: World, steps: seq<Step>, end: World)
    decreases |steps|
  {
    if steps == [] then w == end else Enabled(w, steps[0]) && Reaches(Next(w, steps[0]), steps[1..], end)
  }

  function Start(config: B.Config): World {
    World(config, B.Db(R.Initial(config.producer), map[], map[]), [], map[], {}, map[], {}, {})
  }

  // ---- The invariant --------------------------------------------------------------------------

  /** Row i is its entry's next attempt, and counts as a success exactly when its application committed. */
  predicate RowInv(w: World, i: int)
    requires 0 <= i < |w.log|
  {
    && w.log[i].number == Last(w.log[..i], w.log[i].entry) + 1
    && w.log[i].id in w.issued && w.log[i].audit in w.audits
    && (w.log[i].verdict.Succeeded? <==> w.log[i].id in w.applied)
    && (w.log[i].verdict.Succeeded? ==> w.log[i].entry in w.db.receipts)
  }

  predicate Logged(w: World, attempt: Uuid) { exists i :: 0 <= i < |w.log| && w.log[i].id == attempt }

  predicate LogInv(w: World) {
    && (forall i | 0 <= i < |w.log| :: RowInv(w, i))
    && (forall i, j | 0 <= i < j < |w.log| :: w.log[i].id != w.log[j].id)
    && (forall a | a in w.applied :: Logged(w, a))
    && w.audits <= w.issued
    && (forall k | k in w.mutations :: w.mutations[k].result.attempt in w.applied)
  }

  predicate HasRow(log: seq<Attempt>, entry: int, number: int) {
    exists i :: 0 <= i < |log| && log[i].entry == entry && log[i].number == number
  }

  lemma RowFacts(w: World)
    requires LogInv(w)
    ensures forall i | 0 <= i < |w.log| ::
              && w.log[i].number == Last(w.log[..i], w.log[i].entry) + 1
              && w.log[i].id in w.issued && w.log[i].audit in w.audits
              && (w.log[i].verdict.Succeeded? <==> w.log[i].id in w.applied)
              && (w.log[i].verdict.Succeeded? ==> w.log[i].entry in w.db.receipts)
  {
    forall i | 0 <= i < |w.log|
      ensures w.log[i].number == Last(w.log[..i], w.log[i].entry) + 1 && w.log[i].id in w.issued && w.log[i].audit in w.audits
      ensures w.log[i].verdict.Succeeded? <==> w.log[i].id in w.applied
      ensures w.log[i].verdict.Succeeded? ==> w.log[i].entry in w.db.receipts
    {
      assert RowInv(w, i);
    }
  }

  lemma FreshIsUnlogged(w: World, attempt: Uuid)
    requires LogInv(w) && attempt !in w.issued
    ensures !Logged(w, attempt) && attempt !in w.applied
  {
    RowFacts(w);
  }

  /** An open call has nothing on record unless it did apply, and then its receipt says so. */
  predicate OpenInv(w: World, attempt: Uuid)
    requires attempt in w.open
  {
    var p := w.open[attempt];
    && attempt in w.issued && p.audit in w.issued
    && (Logged(w, attempt) || p.audit in w.audits ==> attempt in w.applied)
    && (attempt in w.applied ==>
          && p.identity.key in w.mutations && w.mutations[p.identity.key].identity == p.identity
          && w.mutations[p.identity.key].result.attempt == attempt && w.mutations[p.identity.key].result.audit == p.audit)
  }

  predicate CallsInv(w: World) {
    && (forall a | a in w.open :: OpenInv(w, a))
    && (forall a, b | a in w.open && b in w.open && a != b :: w.open[a].audit != w.open[b].audit)
  }

  predicate Inv(w: World) { LogInv(w) && CallsInv(w) }

  /** Committed receipts, quarantines, mutation results and attempts stay. */
  predicate Grows(a: World, b: World) {
    && BrokerRuns.Grows(a.db, b.db) && a.issued <= b.issued && a.applied <= b.applied
    && |a.log| <= |b.log| && b.log[..|a.log|] == a.log
    && (forall k | k in a.mutations :: k in b.mutations && b.mutations[k] == a.mutations[k])
  }

  lemma TransactEffect(w: World, id: Identity, attempt: Uuid, audit: Uuid, c: Checks)
    ensures var t := Transact(w, id, attempt, audit, c).world;
            && t.open == w.open && t.issued == w.issued && t.config == w.config
            && (t == w || (
                 && t.log == w.log + [t.log[|w.log|]] && MayAppend(w.log, t.log[|w.log|])
                 && t.log[|w.log|] == Attempt(id.command.entry, t.log[|w.log|].number, attempt, audit, t.log[|w.log|].verdict)
                 && t.log[|w.log|].verdict.Succeeded?
                 && t.applied == w.applied + {attempt} && t.audits == w.audits + {audit}
                 && id.key !in w.mutations && id.key in t.mutations && t.mutations == w.mutations[id.key := t.mutations[id.key]]
                 && t.mutations[id.key].identity == id
                 && t.mutations[id.key].result == Result(id.command.entry, attempt, audit, t.log[|w.log|].number, t.log[|w.log|].verdict.kind)))
  {}

  /** A replay applies the retained original itself, through the same transaction as ordinary receipt. */
  lemma TransactStores(w: World, id: Identity, attempt: Uuid, audit: Uuid, c: Checks)
    requires OriginalsInPlace(w.db)
    ensures var t := Transact(w, id, attempt, audit, c).world;
            && BrokerRuns.Grows(w.db, t.db) && t.db.dlq == w.db.dlq
            && (t != w ==> id.command.entry in t.db.receipts && t.db.receipts[id.command.entry].payload == id.command.payload)
  {
    if id.command.entry in w.db.dlq && w.db.dlq[id.command.entry].message.payload == id.command.payload { ApplicationStores(w, id, attempt, audit, c); }
  }

  lemma ApplicationStores(w: World, id: Identity, attempt: Uuid, audit: Uuid, c: Checks)
    requires OriginalsInPlace(w.db) && id.command.entry in w.db.dlq && w.db.dlq[id.command.entry].message.payload == id.command.payload
    ensures var t := ApplyOriginal(w, id, attempt, audit, c).world;
            && BrokerRuns.Grows(w.db, t.db) && t.db.dlq == w.db.dlq
            && (t != w ==> id.command.entry in t.db.receipts && t.db.receipts[id.command.entry].payload == id.command.payload)
  {
    var m := w.db.dlq[id.command.entry].message;
    if c.decoded.Some? && B.ReceiveInTransaction(w.config, w.db, m, c.decoded.value, c.answers).Ok? {
      BrokerRuns.ReceiveStores(w.config, w.db, m, c.decoded.value, c.answers);
    }
  }

  /** Who may replay, now and again at the end, and with which broker credentials. */
  predicate Cleared(c: Checks) {
    c.authorized.None? && c.source.None? && c.human.None? && c.fingerprint && c.stillSource.None? && c.stillHuman.None?
  }

  /** The entry is on record with these bytes, and the request saw its last attempt. */
  predicate Addresses(w: World, id: Identity) {
    && id.command.entry in w.db.dlq && w.db.dlq[id.command.entry].message.payload == id.command.payload
    && Last(w.log, id.command.entry) == id.command.expectedAttempt
  }

  lemma FreshMayAppend(w: World, entry: int, attempt: Uuid, audit: Uuid, verdict: Verdict)
    requires Inv(w) && attempt !in w.issued && audit !in w.issued
    ensures audit !in w.audits && MayAppend(w.log, Attempt(entry, Last(w.log, entry) + 1, attempt, audit, verdict))
  {
    RowFacts(w);
  }

  predicate Receivable(w: World, id: Identity, c: Checks)
    requires id.command.entry in w.db.dlq
  {
    c.decoded.Some? && B.ReceiveInTransaction(w.config, w.db, w.db.dlq[id.command.entry].message, c.decoded.value, c.answers).Ok?
  }

  lemma AppliesIff(w: World, id: Identity, attempt: Uuid, audit: Uuid, c: Checks)
    requires id.key !in w.mutations && audit !in w.audits
    requires forall kind :: MayAppend(w.log, Attempt(id.command.entry, Last(w.log, id.command.entry) + 1, attempt, audit, Succeeded(kind)))
    ensures Transact(w, id, attempt, audit, c).reply.Replied? <==> Cleared(c) && Addresses(w, id) && Receivable(w, id, c)
  {}

  lemma AppliedExactly(w: World, id: Identity, attempt: Uuid, audit: Uuid, c: Checks)
    requires id.key !in w.mutations && Transact(w, id, attempt, audit, c).reply.Replied?
    ensures var r := Transact(w, id, attempt, audit, c);
            && !r.reply.replayed && r.world.mutations == w.mutations[id.key := Stored(id, r.reply.result, c.now + 24 * Hour)]
            && r.reply.result.number == id.command.expectedAttempt + 1
            && id.command.entry in w.db.dlq && Receivable(w, id, c)
            && B.Ok(r.world.db) == B.ReceiveInTransaction(w.config, w.db, w.db.dlq[id.command.entry].message, c.decoded.value, c.answers)
  {}

  /**
   * When a first request applies: every check passes, before and after, the entry is addressed as it stands,
   * the original decodes and its receipt succeeds. Its result is then kept for a day; otherwise nothing changes.
   */
  lemma FirstReplayAppliesIff(w: World, id: Identity, attempt: Uuid, audit: Uuid, c: Checks)
    requires Inv(w) && attempt !in w.issued && audit !in w.issued && id.key !in w.mutations
    ensures var r := Transact(w, id, attempt, audit, c);
            && (r.reply.Replied? <==> Cleared(c) && Addresses(w, id) && Receivable(w, id, c))
            && (!r.reply.Replied? ==> r.world == w)
            && (r.reply.Replied? ==>
                  && r.world.mutations == w.mutations[id.key := Stored(id, r.reply.result, c.now + 24 * Hour)]
                  && r.reply.result.number == id.command.expectedAttempt + 1
                  && B.Ok(r.world.db) == B.ReceiveInTransaction(w.config, w.db, w.db.dlq[id.command.entry].message, c.decoded.value, c.answers))
  {
    forall kind ensures MayAppend(w.log, Attempt(id.command.entry, Last(w.log, id.command.entry) + 1, attempt, audit, Succeeded(kind))) {
      FreshMayAppend(w, id.command.entry, attempt, audit, Succeeded(kind));
    }
    FreshMayAppend(w, id.command.entry, attempt, audit, Failed(EntryNotFound));
    AppliesIff(w, id, attempt, audit, c);
    if Transact(w, id, attempt, audit, c).reply.Replied? { AppliedExactly(w, id, attempt, audit, c); }
  }

  /** What each refused replay is told, in the order the checks are made. */
  lemma ReplayRefusalsAreTold(w: World, id: Identity, attempt: Uuid, audit: Uuid, c: Checks)
    requires Transact(w, id, attempt, audit, c).reply.Refused?
    ensures var e := Transact(w, id, attempt, audit, c).reply.code; var entry := id.command.entry;
            if c.authorized.Some? then e == c.authorized.value
            else if entry !in w.db.dlq then e == EntryNotFound
            else if w.db.dlq[entry].message.payload != id.command.payload then e == RequestConflict
            else if c.source.Some? then e == c.source.value
            else if c.human.Some? then e == c.human.value
            else if id.key in w.mutations then
              if w.mutations[id.key].identity != id then e == RequestConflict
              else if c.now >= w.mutations[id.key].expiresAt then e == IdempotencyExpired else Some(e) == c.stillHuman
            else FirstRefusal(w, id, c, e)
  {}

  /** A first request: a stale view of the entry, an original that does not decode, its receipt's own refusal, then the second checks. */
  predicate FirstRefusal(w: World, id: Identity, c: Checks, e: Code)
    requires id.command.entry in w.db.dlq
  {
    if Last(w.log, id.command.entry) != id.command.expectedAttempt then e == RequestConflict
    else if c.decoded.None? then e == InvalidEvent
    else
      match B.ReceiveInTransaction(w.config, w.db, w.db.dlq[id.command.entry].message, c.decoded.value, c.answers)
      case Err(f) =>
        (e == BrokerDenied <==> f == B.Denied) && (e == EventConflict <==> f == B.Conflict) && (e == InvalidEvent <==> f == B.Invalid)
        && (e == DependencyUnavailable <==> f in {B.LifecycleConflict, B.LifecycleInvalid, B.Unavailable, B.Quarantined})
      case Ok(_) =>
        if !c.fingerprint then e == BrokerDenied
        else e == DependencyUnavailable || Some(e) == c.stillSource || (c.stillSource.None? && Some(e) == c.stillHuman)
  }

  /** An attempt or audit id on record is never used for another attempt. */
  lemma UsedIdsAreRefused(w: World, id: Identity, attempt: Uuid, audit: Uuid, c: Checks, i: nat)
    requires i < |w.log| && (w.log[i].id == attempt || w.log[i].audit == audit) && id.key !in w.mutations
    ensures Transact(w, id, attempt, audit, c).reply.Refused?
  {}

  /** Whether the transaction's writes stand, and whether the call knows. */
  lemma ReplayedExactly(w: World, id: Identity, attempt: Uuid, audit: Uuid, c: Checks, commit: B.Commit)
    requires Enabled(w, Replay(id, attempt, audit, c, commit))
    ensures var r := Transact(w, id, attempt, audit, c); var t := Next(w, Replay(id, attempt, audit, c, commit));
            && t.issued == w.issued + {attempt, audit}
            && t == (if commit == B.Aborts then w else r.world).(issued := t.issued, open := t.open)
            && t.open == (if r.reply.Refused? then w.open[attempt := Pending(id, audit, r.reply.code)]
                          else if commit == B.Commits then (if commit == B.Aborts then w else r.world).open
                          else w.open[attempt := Pending(id, audit, DependencyUnavailable)])
  {}

  /** Recording closes the call, and writes unless its own commit was refused. */
  lemma ClosedExactly(w: World, attempt: Uuid, commit: B.Commit)
    requires Enabled(w, Record(attempt, commit))
    ensures Next(w, Record(attempt, commit)) ==
              (if commit == B.Aborts then w else RecordFailure(w, attempt, w.open[attempt])).(open := w.open - {attempt})
  {}

  /** How a first, successful receipt is reported. */
  lemma KindIsOutcome(db: B.Db, d: R.Delivery, clock: Time)
    requires R.Receive(db.store, d, clock).Ok?
    ensures KindOf(db, d, clock) == Duplicate <==> d.eventId in db.store.receipts
    ensures KindOf(db, d, clock) == Covered <==> d.eventId !in db.store.receipts && R.Receive(db.store, d, clock).value.1.outcome.Covered?
  {}

  predicate OriginalsInPlace(db: B.Db) { forall p | p in db.dlq :: db.dlq[p].message.position == p }

  /** Appending a row the trigger admits keeps every row sound. */
  lemma AppendKeepsLog(w: World, t: World, row: Attempt)
    requires LogInv(w) && MayAppend(w.log, row) && t.log == w.log + [row]
    requires w.issued <= t.issued && row.id in t.issued && t.audits == w.audits + {row.audit} && row.audit in t.issued
    requires t.applied == if row.verdict.Succeeded? then w.applied + {row.id} else w.applied
    requires row.verdict.Failed? ==> row.id !in w.applied
    requires row.verdict.Succeeded? ==> row.entry in t.db.receipts
    requires BrokerRuns.Grows(w.db, t.db)
    requires forall k | k in t.mutations :: t.mutations[k].result.attempt in t.applied
    ensures LogInv(t)
  {
    forall i | 0 <= i < |t.log| ensures RowInv(t, i) {
      if i < |w.log| { assert RowInv(w, i) && t.log[..i] == w.log[..i]; } else { assert t.log[..i] == w.log; }
    }
    forall a | a in t.applied ensures Logged(t, a) {
      if a in w.applied {
        assert Logged(w, a);
        var i :| 0 <= i < |w.log| && w.log[i].id == a;
        assert t.log[i].id == a;
      } else {
        assert t.log[|w.log|].id == a;
      }
    }
  }

  lemma GrownDbKeepsInv(w: World, t: World)
    requires Inv(w) && BrokerRuns.Grows(w.db, t.db) && w.issued <= t.issued && t == w.(db := t.db, issued := t.issued)
    ensures Inv(t)
  {
    forall i | 0 <= i < |t.log| ensures RowInv(t, i) { assert RowInv(w, i); }
    assert forall a: Uuid :: Logged(t, a) == Logged(w, a);
    forall a | a in t.open ensures OpenInv(t, a) { assert OpenInv(w, a); }
  }

  lemma AppliedKeepsCalls(w: World, t: World, attempt: Uuid, audit: Uuid)
    requires Inv(w) && attempt !in w.issued && audit !in w.issued && t.open == w.open && w.issued <= t.issued
    requires |t.log| == |w.log| + 1 && t.log[..|w.log|] == w.log && t.log[|w.log|].id == attempt
    requires t.applied == w.applied + {attempt} && t.audits == w.audits + {audit}
    requires forall k | k in w.mutations :: k in t.mutations && t.mutations[k] == w.mutations[k]
    ensures CallsInv(t)
  {
    forall a | a in t.open ensures OpenInv(t, a) {
      assert OpenInv(w, a);
      if Logged(t, a) {
        var i :| 0 <= i < |t.log| && t.log[i].id == a;
        assert i < |w.log| ==> w.log[i] == t.log[i];
      }
    }
  }

  lemma AppliedKeepsInv(w: World, id: Identity, attempt: Uuid, audit: Uuid, c: Checks)
    requires Inv(w) && OriginalsInPlace(w.db) && Enabled(w, Replay(id, attempt, audit, c, B.Commits))
    ensures Inv(Transact(w, id, attempt, audit, c).world.(issued := w.issued + {attempt, audit}))
  {
    var r := Transact(w, id, attempt, audit, c).world;
    var t := r.(issued := w.issued + {attempt, audit});
    TransactEffect(w, id, attempt, audit, c);
    TransactStores(w, id, attempt, audit, c);
    if r == w {
      GrownDbKeepsInv(w, t);
    } else {
      AppendKeepsLog(w, t, t.log[|w.log|]);
      AppliedKeepsCalls(w, t, attempt, audit);
    }
  }

  /** The call stays open under its identity when its commit was refused, lost, or not seen. */
  lemma OpeningKeepsInv(w: World, t: World, id: Identity, attempt: Uuid, audit: Uuid, code: Code)
    requires Inv(w) && attempt !in w.issued && audit !in w.issued && Inv(t) && t.open == w.open
    requires attempt in t.issued && audit in t.issued
    requires Logged(t, attempt) || audit in t.audits ==> attempt in t.applied
    requires attempt in t.applied ==>
               && id.key in t.mutations && t.mutations[id.key].identity == id
               && t.mutations[id.key].result.attempt == attempt && t.mutations[id.key].result.audit == audit
    ensures Inv(t.(open := w.open[attempt := Pending(id, audit, code)]))
  {
    var u := t.(open := w.open[attempt := Pending(id, audit, code)]);
    assert forall a: Uuid :: Logged(u, a) == Logged(t, a);
    forall i | 0 <= i < |u.log| ensures RowInv(u, i) { assert RowInv(t, i); }
    forall a | a in u.open ensures OpenInv(u, a) {
      if a != attempt { assert OpenInv(t, a); }
    }
    forall a | a in w.open ensures w.open[a].audit != audit { assert OpenInv(w, a); }
  }

  /** What a fresh attempt's transaction may have left behind under its own ids. */
  lemma TransactLeaves(w: World, id: Identity, attempt: Uuid, audit: Uuid, c: Checks)
    requires Inv(w) && attempt !in w.issued && audit !in w.issued
    ensures var t := Transact(w, id, attempt, audit, c).world;
            && (Logged(t, attempt) || audit in t.audits ==> attempt in t.applied)
            && (attempt in t.applied ==>
                  && id.key in t.mutations && t.mutations[id.key].identity == id
                  && t.mutations[id.key].result.attempt == attempt && t.mutations[id.key].result.audit == audit)
  {
    TransactEffect(w, id, attempt, audit, c);
    FreshIsUnlogged(w, attempt);
  }

  lemma ReplayKeepsInv(w: World, id: Identity, attempt: Uuid, audit: Uuid, c: Checks, commit: B.Commit)
    requires Inv(w) && OriginalsInPlace(w.db) && Enabled(w, Replay(id, attempt, audit, c, commit))
    ensures Inv(Next(w, Replay(id, attempt, audit, c, commit)))
  {
    AppliedKeepsInv(w, id, attempt, audit, c);
    GrownDbKeepsInv(w, w.(issued := w.issued + {attempt, audit}));
    var r := Transact(w, id, attempt, audit, c);
    var t := (if commit == B.Aborts then w else r.world).(issued := w.issued + {attempt, audit});
    var code := if r.reply.Refused? then r.reply.code else DependencyUnavailable;
    TransactEffect(w, id, attempt, audit, c);
    TransactLeaves(w, id, attempt, audit, c);
    FreshIsUnlogged(w, attempt);
    assert Logged(t, attempt) == Logged(if commit == B.Aborts then w else r.world, attempt);
    OpeningKeepsInv(w, t, id, attempt, audit, code);
  }

  lemma RecordKeepsInv(w: World, attempt: Uuid)
    requires Inv(w) && attempt in w.open
    ensures Inv(RecordFailure(w, attempt, w.open[attempt]).(open := w.open - {attempt}))
  {
    var p := w.open[attempt];
    var r := RecordFailure(w, attempt, p);
    var t := r.(open := w.open - {attempt});
    assert OpenInv(w, attempt);
    if r.log != w.log {
      AppendKeepsLog(w, t, t.log[|w.log|]);
    } else {
      forall i | 0 <= i < |t.log| ensures RowInv(t, i) { assert RowInv(w, i); }
      assert forall a: Uuid :: Logged(t, a) == Logged(w, a);
    }
    forall a | a in t.open ensures OpenInv(t, a) {
      assert OpenInv(w, a);
      if Logged(t, a) { assert Logged(w, a); }
    }
  }

  lemma ClosingKeepsInv(w: World, attempt: Uuid)
    requires Inv(w)
    ensures Inv(w.(open := w.open - {attempt}))
  {
    var t := w.(open := w.open - {attempt});
    forall i | 0 <= i < |t.log| ensures RowInv(t, i) { assert RowInv(w, i); }
    assert forall a: Uuid :: Logged(t, a) == Logged(w, a);
    forall a | a in t.open ensures OpenInv(t, a) { assert OpenInv(w, a); }
  }

  lemma OrdinaryGrows(w: World, step: Step)
    requires step.OrdinaryReceive? || step.OrdinaryQuarantine?
    requires OriginalsInPlace(w.db)
    ensures BrokerRuns.Grows(w.db, Next(w, step).db) && OriginalsInPlace(Next(w, step).db)
  {
    if step.OrdinaryReceive? && B.Receive(w.config, w.db, step.m, step.d, step.answers).Ok? {
      BrokerRuns.ReceiveSkipsQuarantine(w.config, w.db, step.m, step.d, step.answers);
      BrokerRuns.ReceiveStores(w.config, w.db, step.m, step.d, step.answers);
    }
  }

  lemma StepKeepsInv(w: World, step: Step)
    requires Inv(w) && OriginalsInPlace(w.db) && Enabled(w, step)
    ensures Inv(Next(w, step))
  {
    match step
    case Replay(id, attempt, audit, c, commit) => ReplayKeepsInv(w, id, attempt, audit, c, commit);
    case Record(attempt, commit) =>
      RecordKeepsInv(w, attempt);
      ClosingKeepsInv(w, attempt);
    case Crash(attempt) => ClosingKeepsInv(w, attempt);
    case _ =>
      OrdinaryGrows(w, step);
      GrownDbKeepsInv(w, Next(w, step));
  }

  lemma TransactGrows(w: World, id: Identity, attempt: Uuid, audit: Uuid, c: Checks)
    requires OriginalsInPlace(w.db)
    ensures Grows(w, Transact(w, id, attempt, audit, c).world) && Transact(w, id, attempt, audit, c).world.db.dlq == w.db.dlq
  {
    TransactEffect(w, id, attempt, audit, c);
    TransactStores(w, id, attempt, audit, c);
  }

  lemma StepGrows(w: World, step: Step)
    requires OriginalsInPlace(w.db) && Enabled(w, step)
    ensures Grows(w, Next(w, step)) && OriginalsInPlace(Next(w, step).db)
  {
    match step
    case Replay(id, attempt, audit, c, _) => TransactGrows(w, id, attempt, audit, c);
    case Record(_, _) =>
    case Crash(_) =>
    case _ => OrdinaryGrows(w, step);
  }

  lemma GrowsTransitive(a: World, b: World, c: World)
    requires Grows(a, b) && Grows(b, c)
    ensures Grows(a, c)
  {
    assert c.log[..|a.log|] == c.log[..|b.log|][..|a.log|];
  }

  lemma {:induction false} RunKeepsInv(w: World, steps: seq<Step>, end: World)
    requires Inv(w) && OriginalsInPlace(w.db) && Reaches(w, steps, end)
    ensures Inv(end) && OriginalsInPlace(end.db) && Grows(w, end)
    decreases |steps|
  {
    if steps == [] { assert end.log[..|w.log|] == w.log; }
    else {
      StepKeepsInv(w, steps[0]);
      StepGrows(w, steps[0]);
      RunKeepsInv(Next(w, steps[0]), steps[1..], end);
      GrowsTransitive(w, Next(w, steps[0]), end);
    }
  }

  // ---- Results --------------------------------------------------------------------------------

  lemma HasRowAppended(front: seq<Attempt>, a: Attempt, entry: int, n: int)
    ensures HasRow(front + [a], entry, n) <==> HasRow(front, entry, n) || (a.entry == entry && a.number == n)
  {
    var log := front + [a];
    if HasRow(front, entry, n) {
      var i :| 0 <= i < |front| && front[i].entry == entry && front[i].number == n;
      assert log[i] == front[i];
    }
    if a.entry == entry && a.number == n { assert log[|front|] == a; }
  }

  predicate Counted(log: seq<Attempt>) {
    log == [] || (log[|log| - 1].number == Last(log[..|log| - 1], log[|log| - 1].entry) + 1 && Counted(log[..|log| - 1]))
  }

  lemma {:induction false} PrefixesCounted(log: seq<Attempt>)
    requires forall i | 0 <= i < |log| :: log[i].number == Last(log[..i], log[i].entry) + 1
    ensures Counted(log)
    decreases |log|
  {
    if log != [] {
      var front := log[..|log| - 1];
      forall i | 0 <= i < |front| ensures front[i].number == Last(front[..i], front[i].entry) + 1 { assert front[..i] == log[..i]; }
      PrefixesCounted(front);
    }
  }

  /** The attempts of an entry are numbered 1..n without gap, whichever calls produced them. */
  lemma {:induction false} NumbersAreContiguous(log: seq<Attempt>, entry: int, n: int)
    requires Counted(log)
    ensures HasRow(log, entry, n) <==> 1 <= n <= Last(log, entry)
    decreases |log|
  {
    if log != [] {
      var front, a := log[..|log| - 1], log[|log| - 1];
      assert log == front + [a];
      NumbersAreContiguous(front, entry, n);
      HasRowAppended(front, a, entry, n);
    }
  }

  predicate SucceededSince(log: seq<Attempt>, since: nat, entry: int) {
    exists i :: since <= i < |log| && log[i].entry == entry && log[i].verdict.Succeeded?
  }

  lemma TransactTouchesOnlyItsEntry(w: World, id: Identity, attempt: Uuid, audit: Uuid, c: Checks)
    requires OriginalsInPlace(w.db)
    ensures var t := Transact(w, id, attempt, audit, c).world;
            t.db.receipts.Keys <= w.db.receipts.Keys + {id.command.entry} && (t.db != w.db ==> t != w)
  {}

  lemma OrdinarySkipsQuarantined(w: World, step: Step, p: int)
    requires OriginalsInPlace(w.db) && p in w.db.dlq && p !in w.db.receipts
    requires step.OrdinaryReceive? || step.OrdinaryQuarantine?
    ensures p !in Next(w, step).db.receipts
  {}

  /** Only a replay of the entry itself gives a quarantined position its receipt, and with it a success row. */
  lemma NewReceiptIsLogged(w: World, step: Step, p: int)
    requires OriginalsInPlace(w.db) && Enabled(w, step) && p in w.db.dlq && p !in w.db.receipts && p in Next(w, step).db.receipts
    ensures SucceededSince(Next(w, step).log, |w.log|, p) && Next(w, step).db.receipts[p].payload == w.db.dlq[p].message.payload
  {
    match step
    case Replay(id, attempt, audit, c, _) =>
      TransactStores(w, id, attempt, audit, c);
      TransactEffect(w, id, attempt, audit, c);
      TransactTouchesOnlyItsEntry(w, id, attempt, audit, c);
      assert Next(w, step).log[|w.log|].entry == p;
    case OrdinaryReceive(_, _, _, _) => OrdinarySkipsQuarantined(w, step, p);
    case OrdinaryQuarantine(_, _, _) => OrdinarySkipsQuarantined(w, step, p);
    case _ =>
  }

  lemma SinceGrows(a: seq<Attempt>, b: seq<Attempt>, since: nat, earlier: nat, p: int)
    requires |a| <= |b| && b[..|a|] == a && earlier <= since
    ensures SucceededSince(a, since, p) ==> SucceededSince(b, earlier, p)
    ensures SucceededSince(b, since, p) ==> SucceededSince(b, earlier, p)
  {
    if SucceededSince(a, since, p) {
      var i :| since <= i < |a| && a[i].entry == p && a[i].verdict.Succeeded?;
      assert b[i] == a[i];
    }
  }

  lemma {:induction false} ReceiptWasLogged(w: World, steps: seq<Step>, end: World, p: int)
    requires Inv(w) && OriginalsInPlace(w.db) && Reaches(w, steps, end)
    requires p in w.db.dlq && p !in w.db.receipts && p in end.db.receipts
    ensures SucceededSince(end.log, |w.log|, p) && end.db.receipts[p].payload == w.db.dlq[p].message.payload
    decreases |steps|
  {
    var next := Next(w, steps[0]);
    StepKeepsInv(w, steps[0]);
    StepGrows(w, steps[0]);
    RunKeepsInv(next, steps[1..], end);
    if p in next.db.receipts {
      NewReceiptIsLogged(w, steps[0], p);
      SinceGrows(next.log, end.log, |w.log|, |w.log|, p);
    } else {
      ReceiptWasLogged(next, steps[1..], end, p);
      SinceGrows(end.log, end.log, |next.log|, |w.log|, p);
    }
  }

  /**
   * From any reachable world, however calls, commits, crashes and ordinary receipts interleave: a
   * quarantined delivery comes to have a stored receipt exactly when a successful replay of it was logged,
   * and the receipt then holds the retained bytes.
   */
  lemma QuarantinedIsAppliedIffLogged(w: World, steps: seq<Step>, end: World, p: int)
    requires Inv(w) && OriginalsInPlace(w.db) && Reaches(w, steps, end)
    requires p in w.db.dlq && p !in w.db.receipts
    ensures p in end.db.receipts <==> SucceededSince(end.log, |w.log|, p)
    ensures p in end.db.receipts ==> end.db.receipts[p].payload == w.db.dlq[p].message.payload
  {
    RunKeepsInv(w, steps, end);
    RowFacts(end);
    if p in end.db.receipts { ReceiptWasLogged(w, steps, end, p); }
  }

  /**
   * Every run of replays, unseen commits, failure records, crashes and ordinary receipts: attempts
   * are contiguous, no id stands for two attempts, a replay committed exactly when its success is in
   * the log, and a success leaves its position with a receipt.
   */
  lemma ReplayLogIsExact(config: B.Config, steps: seq<Step>, w: World)
    requires Reaches(Start(config), steps, w)
    ensures forall entry, n :: HasRow(w.log, entry, n) <==> 1 <= n <= Last(w.log, entry)
    ensures forall i, j | 0 <= i < j < |w.log| :: w.log[i].id != w.log[j].id
    ensures forall a :: a in w.applied <==> RecordedAsSuccess(w.log, a)
    ensures forall i | 0 <= i < |w.log| && w.log[i].verdict.Succeeded? :: w.log[i].entry in w.db.receipts
  {
    RunKeepsInv(Start(config), steps, w);
    RowFacts(w);
    PrefixesCounted(w.log);
    forall entry, n ensures HasRow(w.log, entry, n) <==> 1 <= n <= Last(w.log, entry) {
      NumbersAreContiguous(w.log, entry, n);
    }
    forall a | a in w.applied ensures RecordedAsSuccess(w.log, a) { assert Logged(w, a); }
  }

  predicate RecordedAsSuccess(log: seq<Attempt>, attempt: Uuid) {
    exists i :: 0 <= i < |log| && log[i].id == attempt && log[i].verdict.Succeeded?
  }

  /**
   * The failure transaction settles an uncertain commit rightly: it writes nothing when the replay
   * did apply, and otherwise exactly one failed attempt, with the next number (an entry that no
   * longer resolves leaves only the audit event).
   */
  lemma FailureRecordIsTruthful(w: World, attempt: Uuid)
    requires Inv(w) && attempt in w.open
    ensures var p := w.open[attempt]; var t := RecordFailure(w, attempt, p); var entry := p.identity.command.entry;
            && (attempt in w.applied <==> t == w)
            && (attempt !in w.applied && entry in w.db.dlq ==>
                  t.log == w.log + [Attempt(entry, Last(w.log, entry) + 1, attempt, p.audit, Failed(p.code))])
            && (attempt !in w.applied ==> t.audits == w.audits + {p.audit} && p.audit !in w.audits)
            && (entry !in w.db.dlq ==> t.log == w.log)
  {
    assert OpenInv(w, attempt);
    RowFacts(w);
    if attempt !in w.applied { assert !Logged(w, attempt); }
  }

  /** A success is answered from its receipt from then on: same result, nothing applied again. */
  lemma SuccessIsReplayed(w: World, id: Identity, attempt: Uuid, audit: Uuid, c: Checks, steps: seq<Step>, later: World,
                          attempt2: Uuid, audit2: Uuid, c2: Checks)
    requires Inv(w) && OriginalsInPlace(w.db) && Enabled(w, Replay(id, attempt, audit, c, B.Commits))
    requires Transact(w, id, attempt, audit, c).reply.Replied? && !Transact(w, id, attempt, audit, c).reply.replayed
    requires Reaches(Next(w, Replay(id, attempt, audit, c, B.Commits)), steps, later)
    ensures Answers(later, id, Transact(w, id, attempt, audit, c).reply.result, c.now + 24 * Hour, attempt2, audit2, c2)
  {
    var next := Next(w, Replay(id, attempt, audit, c, B.Commits));
    StepKeepsInv(w, Replay(id, attempt, audit, c, B.Commits));
    StepGrows(w, Replay(id, attempt, audit, c, B.Commits));
    RunKeepsInv(next, steps, later);
    TransactKeepsResult(w, id, attempt, audit, c);
    KeptResultAnswers(next, later, id, attempt2, audit2, c2);
  }

  /** The second request changes nothing, and gets the stored result when every check passes in time. */
  predicate Answers(w: World, id: Identity, result: Result, expiresAt: Time, attempt: Uuid, audit: Uuid, c: Checks) {
    var again := Transact(w, id, attempt, audit, c);
    && again.world == w
    && (again.reply == Replied(result, true) <==>
          c.authorized.None? && c.source.None? && c.human.None? && c.stillHuman.None? && c.now < expiresAt)
    && (again.reply.Replied? ==> again.reply == Replied(result, true))
  }

  lemma KeptResultAnswers(a: World, b: World, id: Identity, attempt: Uuid, audit: Uuid, c: Checks)
    requires Grows(a, b) && id.key in a.mutations && a.mutations[id.key].identity == id
    requires id.command.entry in a.db.dlq && a.db.dlq[id.command.entry].message.payload == id.command.payload
    ensures Answers(b, id, a.mutations[id.key].result, a.mutations[id.key].expiresAt, attempt, audit, c)
  {
    assert b.mutations[id.key] == a.mutations[id.key] && b.db.dlq[id.command.entry] == a.db.dlq[id.command.entry];
  }

  lemma TransactKeepsResult(w: World, id: Identity, attempt: Uuid, audit: Uuid, c: Checks)
    requires var r := Transact(w, id, attempt, audit, c).reply; r.Replied? && !r.replayed
    ensures var t := Transact(w, id, attempt, audit, c); var entry := id.command.entry;
            && id.key in t.world.mutations
            && t.world.mutations[id.key] == Stored(id, t.reply.result, c.now + 24 * Hour)
            && entry in t.world.db.dlq && t.world.db.dlq[entry].message.payload == id.command.payload
            && attempt in t.world.applied && attempt == t.reply.result.attempt
  {
    if id.command.entry in w.db.dlq && c.decoded.Some? && B.ReceiveInTransaction(w.config, w.db, w.db.dlq[id.command.entry].message, c.decoded.value, c.answers).Ok? {
      BrokerRuns.ReceiveStores(w.config, w.db, w.db.dlq[id.command.entry].message, c.decoded.value, c.answers);
    }
  }

  // ---- The service ----------------------------------------------------------------------------

  class ReplayDesk {
    const config: B.Config
    var db: B.Db
    var log: seq<Attempt>
    var mutations: map<Key, Stored>
    var audits: set<Uuid>
    ghost var issued: set<Uuid>
    ghost var applied: set<Uuid>

    constructor (config: B.Config)
      ensures Value() == Start(config)
    {
      this.config, db := config, B.Db(R.Initial(config.producer), map[], map[]);
      log, mutations, audits, issued, applied := [], map[], {}, {}, {};
    }

    /** Between calls nothing is open: a call records its own failure or was cut short. */
    ghost function Value(): World reads this { World(config, db, log, mutations, audits, map[], issued, applied) }

    method Transaction(id: Identity, attempt: Uuid, audit: Uuid, c: Checks) returns (reply: Reply)
      modifies this`db, this`log, this`mutations, this`audits, this`applied
      ensures Replayed(Value(), reply) == Transact(old(Value()), id, attempt, audit, c)
    {
      var entry := id.command.entry;
      if c.authorized.Some? { return Refused(c.authorized.value); }
      if entry !in db.dlq { return Refused(EntryNotFound); }
      var original := db.dlq[entry].message;
      if original.payload != id.command.payload { return Refused(RequestConflict); }
      if c.source.Some? { return Refused(c.source.value); }
      if c.human.Some? { return Refused(c.human.value); }
      if id.key in mutations {
        var stored := mutations[id.key];
        if stored.identity != id { return Refused(RequestConflict); }
        if c.now >= stored.expiresAt { return Refused(IdempotencyExpired); }
        if c.stillHuman.Some? { return Refused(c.stillHuman.value); }
        return Replied(stored.result, true);
      }
      reply := Application(id, attempt, audit, c);
    }

    method Application(id: Identity, attempt: Uuid, audit: Uuid, c: Checks) returns (reply: Reply)
      requires id.command.entry in db.dlq
      modifies this`db, this`log, this`mutations, this`audits, this`applied
      ensures Replayed(Value(), reply) == ApplyOriginal(old(Value()), id, attempt, audit, c)
    {
      var entry := id.command.entry;
      if Last(log, entry) != id.command.expectedAttempt { return Refused(RequestConflict); }
      if c.decoded.None? { return Refused(InvalidEvent); }
      var received := B.ReceiveInTransaction(config, db, db.dlq[entry].message, c.decoded.value, c.answers);
      if received.Err? { return Refused(CodeOf(received.error)); }
      reply := KeepReceipt(id, attempt, audit, c, received.value);
    }

    method KeepReceipt(id: Identity, attempt: Uuid, audit: Uuid, c: Checks, received: B.Db) returns (reply: Reply)
      requires c.decoded.Some?
      modifies this`db, this`log, this`mutations, this`audits, this`applied
      ensures Replayed(Value(), reply) == KeepApplied(old(Value()), id, attempt, audit, c, received)
    {
      var entry := id.command.entry;
      if !c.fingerprint { return Refused(BrokerDenied); }
      var kind := KindOf(db, c.decoded.value, c.answers.clock);
      var result := Result(entry, attempt, audit, Last(log, entry) + 1, kind);
      var row := Attempt(entry, result.number, attempt, audit, Succeeded(kind));
      if audit in audits || !MayAppend(log, row) { return Refused(DependencyUnavailable); }
      if c.stillSource.Some? { return Refused(c.stillSource.value); }
      if c.stillHuman.Some? { return Refused(c.stillHuman.value); }
      db, log, audits, applied := received, log + [row], audits + {audit}, applied + {attempt};
      mutations := mutations[id.key := Stored(id, result, c.now + 24 * Hour)];
      return Replied(result, false);
    }

    method FailureTransaction(attempt: Uuid, p: Pending)
      modifies this`log, this`audits
      ensures Value() == RecordFailure(old(Value()), attempt, p)
    {
      var key := p.identity.key;
      if key in mutations && mutations[key].identity == p.identity {
        var committed := mutations[key].result;
        if committed.attempt == attempt && committed.audit == p.audit { return; }
      }
      if p.audit in audits { return; }
      var entry := p.identity.command.entry;
      if entry in db.dlq {
        var row := Attempt(entry, Last(log, entry) + 1, attempt, p.audit, Failed(p.code));
        if !MayAppend(log, row) { return; }
        log := log + [row];
      }
      audits := audits + {p.audit};
    }

    /** The commit decides whether the transaction's writes stand; the reply does not know. */
    method Attempted(id: Identity, attempt: Uuid, audit: Uuid, c: Checks, commit: B.Commit) returns (reply: Reply)
      modifies this
      ensures reply == Transact(old(Value()), id, attempt, audit, c).reply
      ensures Value() == (if commit == B.Aborts then old(Value()) else Transact(old(Value()), id, attempt, audit, c).world)
                           .(issued := old(issued) + {attempt, audit})
    {
      var db0, log0, mutations0, audits0 := db, log, mutations, audits;
      ghost var applied0 := applied;
      reply := Transaction(id, attempt, audit, c);
      if commit == B.Aborts {
        db, log, mutations, audits, applied := db0, log0, mutations0, audits0, applied0;
      }
      issued := issued + {attempt, audit};
    }

    /** ReplayCoreDLQEntry: reply only with a committed success, else settle the attempt and report. */
    method ReplayEntry(id: Identity, attempt: Uuid, audit: Uuid, c: Checks, commit: B.Commit, recorded: bool)
      returns (reply: Reply, ghost steps: seq<Step>)
      requires Enabled(Value(), Replay(id, attempt, audit, c, commit))
      modifies this
      ensures Reaches(old(Value()), steps, Value())
      ensures reply.Replied? <==> commit == B.Commits && Transact(old(Value()), id, attempt, audit, c).reply.Replied?
      ensures reply.Replied? ==> reply == Transact(old(Value()), id, attempt, audit, c).reply
    {
      ghost var start, replay := Value(), Replay(id, attempt, audit, c, commit);
      ghost var after := Next(start, replay);
      reply := Attempted(id, attempt, audit, c, commit);
      if reply.Replied? && commit == B.Commits {
        steps := [replay];
        OneStep(start, replay);
        return;
      }
      if reply.Replied? { reply := Refused(DependencyUnavailable); }
      assert after == Value().(open := map[attempt := Pending(id, audit, reply.code)]);
      if recorded { FailureTransaction(attempt, Pending(id, audit, reply.code)); }
      ghost var last := if recorded then Record(attempt, B.Commits) else Crash(attempt);
      steps := [replay, last];
      FailureWritesTheSame(after, attempt);
      TwoSteps(start, replay, last);
      assert Value() == Next(after, last) by { assert after.open - {attempt} == map[]; }
    }
  }

  lemma OneStep(w: World, a: Step)
    requires Enabled(w, a)
    ensures Reaches(w, [a], Next(w, a))
  {
    assert [a][1..] == [];
    assert Reaches(Next(w, a), [], Next(w, a));
  }

  lemma TwoSteps(w: World, a: Step, b: Step)
    requires Enabled(w, a) && Enabled(Next(w, a), b)
    ensures Reaches(w, [a, b], Next(Next(w, a), b))
  {
    OneStep(Next(w, a), b);
    assert [a, b][1..] == [b];
  }

  /** Which calls are open does not matter to what a failure record writes. */
  lemma FailureWritesTheSame(w: World, attempt: Uuid)
    requires attempt in w.open
    ensures RecordFailure(w, attempt, w.open[attempt]).(open := map[]) == RecordFailure(w.(open := map[]), attempt, w.open[attempt])
  {}
}
