/**
 * One consumer slot, the durable stream and the database under redelivery, lost or unseen commits,
 * lost acknowledgements and crashes between any two effects.
 */
module BrokerRuns {
  import opened Ids
  import L = TenantLifecycle
  import R = TenantReplication
  import opened BrokerModel

  datatype Published = Published(subject: SubjectKind, payload: seq<byte>)

  /** Where ReceiveNext stands with the delivery it holds. */
  datatype Phase = Idle | Holding(m: Message) | Refused(m: Message, reason: Reason) | Durable(m: Message) | Failed(m: Message)

  /** `outstanding` is the broker's single unacknowledged delivery, `pending` the client's slot. */
  datatype World = World(
    config: Config, stream: map<int, Published>, acked: set<int>, outstanding: Option<int>,
    pending: Option<Uuid>, phase: Phase, db: Db)

  datatype Step =
    | Fetch(m: Message)
    | Handle(decoded: Option<R.Delivery>, answers: Answers, commit: Commit)
    | Retain(commit: Commit)
    | Ack(reached: bool)
    | Retry
    | Crash

  /** The broker offers the outstanding delivery again, or with none outstanding any unacknowledged one. */
  predicate Enabled(w: World, step: Step) {
    match step
    case Fetch(m) =>
      && w.phase == Idle && w.pending.None? && m.position in w.stream && m.position !in w.acked
      && w.stream[m.position] == Published(m.subject, m.payload)
      && (w.outstanding.None? || w.outstanding.value == m.position)
    case Handle(_, _, _) => w.phase.Holding?
    case Retain(_) => w.phase.Refused?
    case Ack(_) => w.phase.Durable? && w.pending == Some(w.phase.m.deliveryId)
    case Retry => w.phase.Failed? && w.pending == Some(w.phase.m.deliveryId)
    case Crash => true
  }

  function Continue(m: Message, v: Verdict): Phase {
    match v case MayAck => Durable(m) case MustQuarantine(reason) => Refused(m, reason) case MustRetry => Failed(m)
  }

  function Next(w: World, step: Step): World
    requires Enabled(w, step)
  {
    match step
    case Fetch(m) => w.(outstanding := Some(m.position), pending := Some(m.deliveryId), phase := Holding(m))
    case Handle(decoded, a, commit) => (
      match decoded
      case None => w.(phase := Refused(w.phase.m, InvalidEvent))
      case Some(d) =>
        var r := Receive(w.config, w.db, w.phase.m, d, a);
        w.(db := After(w.db, r, commit), phase := Continue(w.phase.m, AfterReceive(Seen(r, commit)))))
    case Retain(commit) =>
      var r := Quarantine(w.config, w.db, w.phase.m, w.phase.reason);
      w.(db := After(w.db, r, commit), phase := if Seen(r, commit).None? then Durable(w.phase.m) else Failed(w.phase.m))
    case Ack(reached) =>
      if reached then w.(acked := w.acked + {w.phase.m.position}, outstanding := None, pending := None, phase := Idle)
      else w.(pending := None, phase := Idle)
    case Retry => w.(pending := None, phase := Idle)
    case Crash => w.(pending := None, phase := Idle)
  }

  ghost predicate Reaches(w: World, steps: seq<Step>, end: World)
    decreases |steps|
  {
    if steps == [] then w == end else Enabled(w, steps[0]) && Reaches(Next(w, steps[0]), steps[1..], end)
  }

  function Start(config: Config, stream: map<int, Published>): World {
    World(config, stream, {}, None, None, Idle, Db(R.Initial(config.producer), map[], map[]))
  }

  // ---- Invariant ------------------------------------------------------------------------------

  /** Position p has its own exact bytes kept: as a receipt of the applied event, or in quarantine. */
  predicate Kept(db: Db, p: int, original: Published) {
    || (p in db.receipts && Published(db.receipts[p].subject, db.receipts[p].payload) == original && Retained(db, db.receipts[p]))
    || (p in db.dlq && Published(db.dlq[p].message.subject, db.dlq[p].message.payload) == original)
  }

  /** The event behind a receipt is in the immutable event log with the same bytes. */
  predicate Retained(db: Db, r: AuthorityReceipt) {
    r.eventId in db.store.receipts && db.store.receipts[r.eventId].delivery.payload == r.payload
  }

  predicate RowsMatch(w: World) {
    && (forall p | p in w.db.receipts :: p in w.stream && w.db.receipts[p].payload == w.stream[p].payload
          && w.db.receipts[p].subject == w.stream[p].subject && Retained(w.db, w.db.receipts[p]))
    && (forall p | p in w.db.dlq :: p in w.stream && w.db.dlq[p].message.payload == w.stream[p].payload && w.db.dlq[p].message.subject == w.stream[p].subject)
  }

  predicate SlotInv(w: World) {
    && (w.phase == Idle <==> w.pending.None?)
    && (w.phase != Idle ==>
          && w.pending == Some(w.phase.m.deliveryId) && w.outstanding == Some(w.phase.m.position)
          && w.phase.m.position in w.stream && w.phase.m.position !in w.acked
          && w.stream[w.phase.m.position] == Published(w.phase.m.subject, w.phase.m.payload))
    && (w.phase.Durable? ==> Kept(w.db, w.phase.m.position, w.stream[w.phase.m.position]))
    && (w.outstanding.Some? ==> w.outstanding.value !in w.acked)
  }

  predicate AckedKept(w: World) { forall p | p in w.acked :: p in w.stream && Kept(w.db, p, w.stream[p]) }

  predicate Inv(w: World) { RowsMatch(w) && SlotInv(w) && AckedKept(w) }

  // ---- What one transaction keeps -------------------------------------------------------------

  /** Receipts, quarantines and accepted events are never altered or removed. */
  predicate Grows(a: Db, b: Db) {
    && (forall p | p in a.receipts :: p in b.receipts && b.receipts[p] == a.receipts[p])
    && (forall p | p in a.dlq :: p in b.dlq && b.dlq[p] == a.dlq[p])
    && (forall e | e in a.store.receipts :: e in b.store.receipts && b.store.receipts[e] == a.store.receipts[e])
  }

  lemma AppliedGrows(s: R.Store, d: R.Delivery, clock: Time)
    requires R.Receive(s, d, clock).Ok?
    ensures var t := R.Receive(s, d, clock).value.0;
            && (forall e | e in s.receipts :: e in t.receipts && t.receipts[e] == s.receipts[e])
            && d.eventId in t.receipts && t.receipts[d.eventId].delivery == d
            && (d.eventId in s.receipts ==> t == s)
  {}

  /**
   * A successful receipt keeps exactly this position and event with the message's bytes; a second
   * receipt of an accepted event, at any position, leaves the projection untouched.
   */
  lemma ReceiveStores(c: Config, db: Db, m: Message, d: R.Delivery, a: Answers)
    requires ReceiveInTransaction(c, db, m, d, a).Ok?
    ensures var t := ReceiveInTransaction(c, db, m, d, a).value;
            && Grows(db, t) && t.dlq == db.dlq && t.receipts.Keys == db.receipts.Keys + {m.position}
            && t.receipts[m.position].eventId == d.eventId && t.receipts[m.position].payload == m.payload
            && Retained(t, t.receipts[m.position])
            && (d.eventId in db.store.receipts ==> t.store == db.store)
            && (m.position !in db.receipts ==> t.receipts[m.position].subject == m.subject)
  {
    AppliedGrows(db.store, d, a.clock);
  }

  /** The ordinary path applies only positions that are not quarantined, and then only as above. */
  lemma ReceiveSkipsQuarantine(c: Config, db: Db, m: Message, d: R.Delivery, a: Answers)
    ensures m.position in db.dlq ==> Receive(c, db, m, d, a).Err?
    ensures Receive(c, db, m, d, a).Ok? ==>
              m.position !in db.dlq && Receive(c, db, m, d, a) == ReceiveInTransaction(c, db, m, d, a)
    ensures Receive(c, db, m, d, a) == Err(Quarantined) ==>
              m.position in db.dlq && db.dlq[m.position].message.payload == m.payload && db.dlq[m.position].message.subject == m.subject
  {}

  // ---- What is received, refused and quarantined, in the fields themselves ------------------------

  /** From this consumer's own stream, with an identity, a position and a time, within the size limits. */
  predicate WellAddressed(c: Config, m: Message) {
    && m.origin == c.origin && m.position > 0 && m.deliveryId.octets[6] / 16 == 7
    && 0 < m.deliveryCount < 0x8000_0000_0000_0000 && m.publishedAt != NoTime && |m.payload| <= 65536
    && (m.subject.OtherSubject? ==> m.subject.text != "" && |m.subject.text| <= 256)
  }

  /** The subject each kind of document is published on. */
  predicate OnItsSubject(m: Message, d: R.Delivery) {
    && (d.body.Lifecycle? <==> m.subject == LifecycleSubject) && (d.body.Heartbeat? <==> m.subject == HeartbeatSubject)
    && (d.body.Bootstrap? <==> m.subject == BootstrapSubject)
  }

  /** Two different principals may publish and receive; on the bootstrap subject execution is granted too. */
  predicate Licensed(m: Message, a: Answers) {
    && a.publish.Some? && a.receive.Some? && a.publish.value.principal != a.receive.value.principal
    && (m.subject == BootstrapSubject ==> a.execute.Some?)
  }

  function AuthorityNow(m: Message, a: Answers): Authority
    requires Licensed(m, a)
  {
    Authority(a.routeVersion, a.publish.value, a.receive.value, if m.subject == BootstrapSubject then a.execute else None)
  }

  /** Every earlier receipt of this event of this tenant. */
  predicate Earlier(db: Db, d: R.Delivery, p: int) requires p in db.receipts { db.receipts[p].eventId == d.eventId && db.receipts[p].tenantId == d.tenantId }

  predicate SameAuthority(db: Db, m: Message, d: R.Delivery, a: Answers)
    requires Licensed(m, a)
  {
    forall p | p in db.receipts && Earlier(db, d, p) :: db.receipts[p].authority == AuthorityNow(m, a)
  }

  predicate SameContent(db: Db, d: R.Delivery) {
    forall p | p in db.receipts && Earlier(db, d, p) :: db.receipts[p].sequence == d.sequence && db.receipts[p].epoch == d.epoch && db.receipts[p].payload == d.payload
  }

  predicate PositionFits(db: Db, m: Message, d: R.Delivery, a: Answers)
    requires Licensed(m, a)
  {
    m.position in db.receipts ==>
      var kept := db.receipts[m.position];
      kept.authority == AuthorityNow(m, a) && kept.eventId == d.eventId && kept.epoch == d.epoch && kept.tenantId == d.tenantId && kept.payload == m.payload
  }

  /** The fact that created the tenant, and the bootstrap receipt, stand behind a bootstrap event. */
  predicate Created(d: R.Delivery, a: Answers) { d.body.Bootstrap? ==> a.creating.None? && a.bootstrap.None? }

  /** When a delivery is received, and what is then on record; in every other case nothing is. */
  lemma ReceivedIff(c: Config, db: Db, m: Message, d: R.Delivery, a: Answers)
    ensures var r := ReceiveInTransaction(c, db, m, d, a); var applied := R.Receive(db.store, d, a.clock);
            && (r.Ok? <==>
                  && WellAddressed(c, m) && R.ValidDelivery(d) && d.payload == m.payload && d.producer == c.producer
                  && m.subject in c.routes && OnItsSubject(m, d) && Licensed(m, a) && SameAuthority(db, m, d, a) && SameContent(db, d)
                  && Created(d, a) && applied.Ok? && PositionFits(db, m, d, a))
            && (r.Ok? ==>
                  && r.value.store == applied.value.0 && r.value.dlq == db.dlq
                  && (m.position in db.receipts ==> r.value.receipts == db.receipts)
                  && (m.position !in db.receipts ==>
                        r.value.receipts == db.receipts[m.position :=
                          AuthorityReceipt(AuthorityNow(m, a), m.subject, d.eventId, d.epoch, d.sequence, d.tenantId, m.payload)]))
  {
    CurrentIff(c, m, a);
  }

  lemma CurrentIff(c: Config, m: Message, a: Answers)
    ensures Current(c, m.subject, a) == if Licensed(m, a) then Ok(AuthorityNow(m, a)) else Err(Denied)
    ensures Accepts(c, m) == WellAddressed(c, m)
  {}

  /** What each refusal is: about authority denied, about content in conflict, about form invalid; the projection's own stay apart. */
  lemma RefusalsAreTold(c: Config, db: Db, m: Message, d: R.Delivery, a: Answers)
    requires ReceiveInTransaction(c, db, m, d, a).Err?
    ensures var e := ReceiveInTransaction(c, db, m, d, a).error; var applied := R.Receive(db.store, d, a.clock);
            if !WellAddressed(c, m) then e == Denied
            else if !R.ValidDelivery(d) || d.payload != m.payload || d.producer != c.producer then e == Invalid
            else if m.subject !in c.routes then e == Denied
            else if !OnItsSubject(m, d) then e == Invalid
            else if !Licensed(m, a) || !SameAuthority(db, m, d, a) then e == Denied
            else if !SameContent(db, d) then e == Conflict
            else if d.body.Bootstrap? && a.creating.Some? then e == a.creating.value
            else if d.body.Bootstrap? && a.bootstrap.Some? then e == a.bootstrap.value
            else if applied == L.Invalid then e == LifecycleInvalid
            else if applied == L.Conflict then e == LifecycleConflict
            else if applied == L.Missing then e == Unavailable else e == Conflict
  {
    CurrentIff(c, m, a);
  }

  /** The ordinary path looks at quarantine first: the same bytes are reported, other ones are a conflict. */
  lemma QuarantineComesFirst(c: Config, db: Db, m: Message, d: R.Delivery, a: Answers)
    ensures Receive(c, db, m, d, a) ==
              if !WellAddressed(c, m) then Err(Denied)
              else if m.position !in db.dlq then ReceiveInTransaction(c, db, m, d, a)
              else if db.dlq[m.position].message.payload == m.payload && db.dlq[m.position].message.subject == m.subject then Err(Quarantined)
              else Err(Conflict)
  {
    CurrentIff(c, m, a);
  }

  /** A first quarantine keeps the whole message and its reason; a repetition keeps the first. */
  lemma QuarantinedExactly(c: Config, db: Db, m: Message, reason: Reason)
    ensures Quarantine(c, db, m, reason) ==
              if !WellAddressed(c, m) then Err(Denied)
              else if |m.headers| > 16384 then Err(Invalid)
              else if m.position !in db.dlq then Ok(Db(db.store, db.receipts, db.dlq[m.position := Original(m, reason)]))
              else if db.dlq[m.position].message.payload == m.payload && db.dlq[m.position].message.subject == m.subject then Ok(db)
              else Err(Conflict)
  {}

  // ---- Every step -----------------------------------------------------------------------------

  lemma GrownKeeps(a: Db, b: Db, p: int, original: Published)
    requires Grows(a, b) && Kept(a, p, original)
    ensures Kept(b, p, original)
  {}

  lemma FetchKeepsInv(w: World, m: Message)
    requires Inv(w) && Enabled(w, Fetch(m))
    ensures Inv(Next(w, Fetch(m)))
  {}

  /** Once the database only grew, the world is sound again if the new phase is. */
  lemma GrownKeepsInv(w: World, db: Db, phase: Phase)
    requires Inv(w) && Grows(w.db, db) && RowsMatch(w.(db := db)) && w.phase != Idle && phase != Idle && phase.m == w.phase.m
    requires phase.Durable? ==> Kept(db, w.phase.m.position, w.stream[w.phase.m.position])
    ensures Inv(w.(db := db, phase := phase))
  {
    forall p | p in w.acked ensures Kept(db, p, w.stream[p]) { GrownKeeps(w.db, db, p, w.stream[p]); }
  }

  lemma ReceivedMatches(w: World, d: R.Delivery, a: Answers)
    requires Inv(w) && w.phase.Holding? && ReceiveInTransaction(w.config, w.db, w.phase.m, d, a).Ok?
    ensures var t := ReceiveInTransaction(w.config, w.db, w.phase.m, d, a).value;
            Grows(w.db, t) && RowsMatch(w.(db := t)) && Kept(t, w.phase.m.position, w.stream[w.phase.m.position])
  {
    ReceiveStores(w.config, w.db, w.phase.m, d, a);
  }

  lemma HandleKeepsInv(w: World, d: R.Delivery, a: Answers, commit: Commit)
    requires Inv(w) && w.phase.Holding?
    ensures Inv(Next(w, Handle(Some(d), a, commit)))
  {
    var m := w.phase.m;
    var r := Receive(w.config, w.db, m, d, a);
    ReceiveSkipsQuarantine(w.config, w.db, m, d, a);
    if r.Ok? { ReceivedMatches(w, d, a); }
    GrownKeepsInv(w, After(w.db, r, commit), Continue(m, AfterReceive(Seen(r, commit))));
  }

  lemma RetainKeepsInv(w: World, commit: Commit)
    requires Inv(w) && w.phase.Refused?
    ensures Inv(Next(w, Retain(commit)))
  {
    var r := Quarantine(w.config, w.db, w.phase.m, w.phase.reason);
    GrownKeepsInv(w, After(w.db, r, commit), if Seen(r, commit).None? then Durable(w.phase.m) else Failed(w.phase.m));
  }

  lemma StepKeepsInv(w: World, step: Step)
    requires Inv(w) && Enabled(w, step)
    ensures Inv(Next(w, step)) && Next(w, step).stream == w.stream
  {
    match step
    case Fetch(m) => FetchKeepsInv(w, m);
    case Handle(decoded, a, commit) => if decoded.Some? { HandleKeepsInv(w, decoded.value, a, commit); }
    case Retain(commit) => RetainKeepsInv(w, commit);
    case _ =>
  }

  lemma StepGrows(w: World, step: Step)
    requires Enabled(w, step)
    ensures Grows(w.db, Next(w, step).db) && w.acked <= Next(w, step).acked && Next(w, step).config == w.config
    ensures forall p | p in w.db.dlq && p !in w.db.receipts :: p !in Next(w, step).db.receipts
  {
    if step.Handle? && step.decoded.Some? {
      ReceiveSkipsQuarantine(w.config, w.db, w.phase.m, step.decoded.value, step.answers);
      if Receive(w.config, w.db, w.phase.m, step.decoded.value, step.answers).Ok? {
        ReceiveStores(w.config, w.db, w.phase.m, step.decoded.value, step.answers);
      }
    }
  }

  // ---- Every run ------------------------------------------------------------------------------

  lemma {:induction false} RunKeepsInv(w: World, steps: seq<Step>, end: World)
    requires Inv(w) && Reaches(w, steps, end)
    ensures Inv(end) && end.stream == w.stream && Grows(w.db, end.db) && w.acked <= end.acked
    ensures forall p | p in w.db.dlq && p !in w.db.receipts :: p !in end.db.receipts
    decreases |steps|
  {
    if steps != [] {
      StepKeepsInv(w, steps[0]);
      StepGrows(w, steps[0]);
      RunKeepsInv(Next(w, steps[0]), steps[1..], end);
    }
  }

  /**
   * A position is acknowledged only after its own bytes were committed, as an applied event with its
   * receipt or in quarantine; lost commits, unseen commits, crashes and redelivery included.
   */
  lemma AcknowledgedMeansKept(config: Config, stream: map<int, Published>, steps: seq<Step>, end: World, p: int)
    requires Reaches(Start(config, stream), steps, end) && p in end.acked
    ensures p in stream && Kept(end.db, p, stream[p])
  {
    RunKeepsInv(Start(config, stream), steps, end);
  }

  /** At most one delivery is held, it is the broker's outstanding one, and it is not acknowledged. */
  lemma OneDeliveryOutstanding(config: Config, stream: map<int, Published>, steps: seq<Step>, end: World)
    requires Reaches(Start(config, stream), steps, end)
    ensures end.pending.Some? <==> end.phase != Idle
    ensures end.phase != Idle ==> end.outstanding == Some(end.phase.m.position) && end.phase.m.position !in end.acked
  {
    RunKeepsInv(Start(config, stream), steps, end);
  }

  predicate FetchesOnly(steps: seq<Step>, p: int) { forall i | 0 <= i < |steps| && steps[i].Fetch? :: steps[i].m.position == p }

  /** No delivery overtakes one that is still unacknowledged: until then only it is fetched and nothing else is acknowledged. */
  lemma {:induction false} NothingOvertakes(w: World, steps: seq<Step>, end: World, p: int)
    requires Inv(w) && w.outstanding == Some(p) && Reaches(w, steps, end) && p !in end.acked
    ensures FetchesOnly(steps, p) && end.outstanding == Some(p) && end.acked == w.acked
    decreases |steps|
  {
    if steps != [] {
      var next := Next(w, steps[0]);
      StepKeepsInv(w, steps[0]);
      RunKeepsInv(next, steps[1..], end);
      NothingOvertakes(next, steps[1..], end, p);
      assert forall i | 1 <= i < |steps| :: steps[i] == steps[1..][i - 1];
    }
  }

  /** Quarantined before being received, a position is never received by any number of redeliveries. */
  lemma QuarantineIsFinal(w: World, steps: seq<Step>, end: World, p: int)
    requires Inv(w) && Reaches(w, steps, end) && p in w.db.dlq
    ensures p in end.db.dlq && end.db.dlq[p] == w.db.dlq[p]
    ensures p !in w.db.receipts ==> p !in end.db.receipts
    ensures p in w.db.receipts ==> p in end.db.receipts && end.db.receipts[p] == w.db.receipts[p]
  {
    RunKeepsInv(w, steps, end);
  }

  /** An accepted event is never applied again: no later receipt of it moves the projection. */
  lemma AcceptedEventAppliesOnce(w: World, steps: seq<Step>, end: World, m: Message, d: R.Delivery, a: Answers)
    requires Inv(w) && Reaches(w, steps, end) && d.eventId in w.db.store.receipts
    ensures Receive(end.config, end.db, m, d, a).Ok? ==> Receive(end.config, end.db, m, d, a).value.store == end.db.store
  {
    RunKeepsInv(w, steps, end);
    if Receive(end.config, end.db, m, d, a).Ok? {
      ReceiveSkipsQuarantine(end.config, end.db, m, d, a);
      ReceiveStores(end.config, end.db, m, d, a);
    }
  }

  /** After a lost acknowledgement the same delivery is accepted again without any change. */
  lemma RedeliveryIsStable(c: Config, db: Db, m: Message, d: R.Delivery, a: Answers, again: Message)
    requires Receive(c, db, m, d, a).Ok?
    requires again == m.(deliveryId := again.deliveryId, deliveryCount := again.deliveryCount) && Accepts(c, again)
    ensures Receive(c, Receive(c, db, m, d, a).value, again, d, a) == Ok(Receive(c, db, m, d, a).value)
  {
    ReceiveSkipsQuarantine(c, db, m, d, a);
    ReceiveStores(c, db, m, d, a);
    var t := Receive(c, db, m, d, a).value;
    assert R.Receive(t.store, d, a.clock).value.0 == t.store by { AppliedGrows(db.store, d, a.clock); }
  }

  // ---- Why a delivery is quarantined, acknowledged or asked for again ----------------------------

  /** The reason each refusal is filed under; an unavailable database or a quarantined position is none. */
  predicate RefusedFor(f: Failure, reason: Reason) {
    || (f == Denied && reason == AuthorityDenied)
    || ((f == Conflict || f == LifecycleConflict) && reason == EventConflict)
    || ((f == Invalid || f == LifecycleInvalid) && reason == InvalidEvent)
  }

  /** At this step the delivery at p did not decode, or its receipt was refused for this reason. */
  predicate Refuses(w: World, step: Step, p: int, reason: Reason) {
    && step.Handle? && w.phase.Holding? && w.phase.m.position == p
    && match step.decoded
       case None => reason == InvalidEvent
       case Some(d) =>
         var r := Receive(w.config, w.db, w.phase.m, d, step.answers);
         r.Err? && RefusedFor(r.error, reason)
  }

  /**
   * One delivery handled: it may be acknowledged exactly after a seen commit or for a quarantined position,
   * is refused exactly as above, and is otherwise asked for again; storage changes only by a receipt.
   */
  lemma HandledExactly(w: World, d: R.Delivery, a: Answers, commit: Commit)
    requires w.phase.Holding?
    ensures var r := Receive(w.config, w.db, w.phase.m, d, a); var t := Next(w, Handle(Some(d), a, commit));
            && (t.phase == Durable(w.phase.m) <==> (r.Ok? && commit == Commits) || r == Err(Quarantined))
            && (forall reason :: t.phase == Phase.Refused(w.phase.m, reason) <==> r.Err? && RefusedFor(r.error, reason))
            && (t.phase == Failed(w.phase.m) <==> (r.Ok? && commit != Commits) || r == Err(Unavailable))
            && t == w.(db := if r.Ok? && commit != Aborts then r.value else w.db, phase := t.phase)
  {}

  /**
   * A receipt that failed for want of the database, or whose commit was refused or not seen, quarantines and
   * acknowledges nothing, whatever follows it, and leaves the same delivery to be fetched again.
   */
  lemma UnavailableIsRetried(w: World, d: R.Delivery, a: Answers, commit: Commit, after: Step, redelivery: Uuid)
    requires Inv(w) && w.phase.Holding?
    requires var r := Receive(w.config, w.db, w.phase.m, d, a); (r.Ok? && commit != Commits) || r == Err(Unavailable)
    requires Enabled(Next(w, Handle(Some(d), a, commit)), after)
    ensures var t := Next(Next(w, Handle(Some(d), a, commit)), after);
            t.db.dlq == w.db.dlq && t.acked == w.acked && t.phase == Idle && Enabled(t, Fetch(w.phase.m.(deliveryId := redelivery)))
  {
    var next := Next(w, Handle(Some(d), a, commit));
    HandledExactly(w, d, a, commit);
    if Receive(w.config, w.db, w.phase.m, d, a).Ok? {
      ReceiveSkipsQuarantine(w.config, w.db, w.phase.m, d, a);
      ReceiveStores(w.config, w.db, w.phase.m, d, a);
    }
    StepKeepsInv(w, Handle(Some(d), a, commit));
    assert next.phase == Failed(w.phase.m);
  }

  lemma ReachesCons(w: World, step: Step, rest: seq<Step>, end: World)
    requires Enabled(w, step) && Reaches(Next(w, step), rest, end)
    ensures Reaches(w, [step] + rest, end)
  {
    assert ([step] + rest)[1..] == rest;
  }

  /** Only Handle refuses a delivery, and only Retain of a refused one quarantines it. */
  lemma StepQuarantines(w: World, step: Step, p: int)
    requires Enabled(w, step) && p !in w.db.dlq
    ensures p in Next(w, step).db.dlq ==> w.phase.Refused? && w.phase.reason == Next(w, step).db.dlq[p].reason && w.phase.m.position == p
    ensures forall m, reason | Next(w, step).phase == Phase.Refused(m, reason) && m.position == p :: Refuses(w, step, p, reason)
  {
    if step.Handle? && step.decoded.Some? {
      HandledExactly(w, step.decoded.value, step.answers, step.commit);
      if Receive(w.config, w.db, w.phase.m, step.decoded.value, step.answers).Ok? {
        ReceiveSkipsQuarantine(w.config, w.db, w.phase.m, step.decoded.value, step.answers);
        ReceiveStores(w.config, w.db, w.phase.m, step.decoded.value, step.answers);
      }
    }
  }

  /** A position quarantined during a run was refused in it for the recorded reason, unless the run began with that refusal. */
  lemma {:induction false} QuarantinedDuring(w: World, steps: seq<Step>, end: World, p: int) returns (k: nat, mid: World, begun: bool)
    requires Reaches(w, steps, end) && p !in w.db.dlq && p in end.db.dlq
    ensures begun ==> w.phase.Refused? && w.phase.reason == end.db.dlq[p].reason && w.phase.m.position == p
    ensures !begun ==> k < |steps| && Reaches(w, steps[..k], mid) && Enabled(mid, steps[k]) && Refuses(mid, steps[k], p, end.db.dlq[p].reason)
    decreases |steps|
  {
    var next := Next(w, steps[0]);
    StepQuarantines(w, steps[0], p);
    if p in next.db.dlq {
      RunGrows(next, steps[1..], end);
      k, mid, begun := 0, w, true;
    } else {
      k, mid, begun := QuarantinedDuring(next, steps[1..], end, p);
      if begun {
        k, mid, begun := 0, w, false;
        assert steps[..0] == [];
      } else {
        ReachesCons(w, steps[0], steps[1..][..k], mid);
        assert [steps[0]] + steps[1..][..k] == steps[..k + 1];
        k := k + 1;
      }
    }
  }

  lemma {:induction false} RunGrows(w: World, steps: seq<Step>, end: World)
    requires Reaches(w, steps, end)
    ensures Grows(w.db, end.db)
    decreases |steps|
  {
    if steps != [] {
      StepGrows(w, steps[0]);
      RunGrows(Next(w, steps[0]), steps[1..], end);
    }
  }

  /**
   * In every run: what is in quarantine was refused at some step for exactly the recorded reason. In
   * particular an acknowledged position without a receipt was, so no outage ever costs an event.
   */
  lemma QuarantineHasItsReason(config: Config, stream: map<int, Published>, steps: seq<Step>, end: World, p: int)
    returns (k: nat, mid: World)
    requires Reaches(Start(config, stream), steps, end) && (p in end.db.dlq || (p in end.acked && p !in end.db.receipts))
    ensures p in end.db.dlq && k < |steps| && Reaches(Start(config, stream), steps[..k], mid)
    ensures Refuses(mid, steps[k], p, end.db.dlq[p].reason)
  {
    if p in end.acked { AcknowledgedMeansKept(config, stream, steps, end, p); }
    var begun;
    k, mid, begun := QuarantinedDuring(Start(config, stream), steps, end, p);
  }

  // ---- Authority --------------------------------------------------------------------------------

  /** A receipt names the current publisher and receiver, two different principals, on a configured route of its kind. */
  lemma ReceiptNeedsAuthority(c: Config, db: Db, m: Message, d: R.Delivery, a: Answers)
    requires ReceiveInTransaction(c, db, m, d, a).Ok?
    ensures Accepts(c, m) && m.subject in c.routes && KindFits(m.subject, d.body) && d.payload == m.payload && d.producer == c.producer
    ensures a.publish.Some? && a.receive.Some? && a.publish.value.principal != a.receive.value.principal
    ensures m.subject == BootstrapSubject ==> a.execute.Some? && a.creating.None? && a.bootstrap.None?
    ensures ReceiveInTransaction(c, db, m, d, a).value.receipts[m.position].authority
              == Authority(a.routeVersion, a.publish.value, a.receive.value, if m.subject == BootstrapSubject then a.execute else None)
  {}

  /** All receipts of one event, at whatever positions, were accepted under one authority for one content. */
  predicate OneAuthority(db: Db) {
    forall p, q | p in db.receipts && q in db.receipts && db.receipts[p].eventId == db.receipts[q].eventId && db.receipts[p].tenantId == db.receipts[q].tenantId ::
      SameAcceptance(db.receipts[p], db.receipts[q])
  }

  predicate SameAcceptance(a: AuthorityReceipt, b: AuthorityReceipt) {
    a.authority == b.authority && a.sequence == b.sequence && a.epoch == b.epoch && a.payload == b.payload
  }

  lemma ReceiveKeepsOneAuthority(c: Config, db: Db, m: Message, d: R.Delivery, a: Answers)
    requires OneAuthority(db) && ReceiveInTransaction(c, db, m, d, a).Ok?
    ensures OneAuthority(ReceiveInTransaction(c, db, m, d, a).value)
  {
    var authority := Current(c, m.subject, a).value;
    assert AuthorityAgrees(db, d, authority) && EventAgrees(db, d);
    var t := ReceiveInTransaction(c, db, m, d, a).value;
    forall p | p in db.receipts && db.receipts[p].eventId == d.eventId && db.receipts[p].tenantId == d.tenantId
      ensures SameAcceptance(db.receipts[p], ReceiptOf(m, d, authority))
    {}
  }

  lemma {:induction false} EveryRunKeepsOneAuthority(w: World, steps: seq<Step>, end: World)
    requires OneAuthority(w.db) && Reaches(w, steps, end)
    ensures OneAuthority(end.db)
    decreases |steps|
  {
    if steps != [] {
      var step := steps[0];
      if step.Handle? && step.decoded.Some? {
        ReceiveSkipsQuarantine(w.config, w.db, w.phase.m, step.decoded.value, step.answers);
        if Receive(w.config, w.db, w.phase.m, step.decoded.value, step.answers).Ok? {
          ReceiveKeepsOneAuthority(w.config, w.db, w.phase.m, step.decoded.value, step.answers);
        }
      }
      EveryRunKeepsOneAuthority(Next(w, step), steps[1..], end);
    }
  }
}
