/**
 * Receipt of broker deliveries: internal/data/core_broker.go over the replication store, one
 * function a transaction. Digests are injective, so contents are compared directly.
 */
module BrokerModel {
  import opened Ids
  import L = TenantLifecycle
  import R = TenantReplication

  datatype Origin = Origin(consumerId: Uuid, consumer: string, broker: string, account: string, stream: string)
  datatype SubjectKind = LifecycleSubject | BootstrapSubject | HeartbeatSubject | OtherSubject(text: string)

  datatype Message = Message(
    deliveryId: Uuid, origin: Origin, subject: SubjectKind, position: int,
    deliveryCount: nat, publishedAt: Time, payload: seq<byte>, headers: seq<byte>)

  datatype Grant = Grant(
    principal: Uuid, principalVersion: int, binding: Uuid, bindingVersion: int, grant: Uuid, grantVersion: int)

  /** The identities a delivery was accepted under; `execution` only on the bootstrap subject. */
  datatype Authority = Authority(routeVersion: int, producer: Grant, receiver: Grant, execution: Option<Grant>)

  /** Errors of the lifecycle projection keep their own kind; an operator replay files them differently. */
  datatype Failure = Denied | Conflict | Invalid | LifecycleConflict | LifecycleInvalid | Quarantined | Unavailable

  /** Checks inside the transaction never answer with the quarantine marker of the outer path. */
  type Refusal = f: Failure | f != Quarantined witness Denied

  datatype Outcome<+T> = Ok(value: T) | Err(error: Failure)

  datatype AuthorityReceipt = AuthorityReceipt(
    authority: Authority, subject: SubjectKind, eventId: Uuid, epoch: Uuid, sequence: int, tenantId: Uuid, payload: seq<byte>)

  datatype Original = Original(message: Message, reason: Reason)
  datatype Reason = InvalidEvent | AuthorityDenied | EventConflict

  datatype Config = Config(origin: Origin, producer: string, routes: set<SubjectKind>)

  /** `receipts` and `dlq` are keyed by broker position within this consumer. */
  datatype Db = Db(store: R.Store, receipts: map<int, AuthorityReceipt>, dlq: map<int, Original>)

  /** What current grants, the creating-fact check and the bootstrap receipt answer in this transaction. */
  datatype Answers = Answers(
    publish: Option<Grant>, receive: Option<Grant>, execute: Option<Grant>, routeVersion: int,
    creating: Option<Refusal>, bootstrap: Option<Refusal>, clock: Time)

  predicate Accepts(c: Config, m: Message) {
    && m.origin == c.origin && m.position >= 1 && IsV7(m.deliveryId)
    && 1 <= m.deliveryCount <= 0x7FFF_FFFF_FFFF_FFFF && m.publishedAt != NoTime && |m.payload| <= 65536
    && (m.subject.OtherSubject? ==> 0 < |m.subject.text| <= 256)
  }

  function Current(c: Config, subject: SubjectKind, a: Answers): Outcome<Authority> {
    if a.publish.None? || a.receive.None? || a.publish.value.principal == a.receive.value.principal then Err(Denied)
    else if subject == BootstrapSubject && a.execute.None? then Err(Denied)
    else Ok(Authority(a.routeVersion, a.publish.value, a.receive.value, if subject == BootstrapSubject then a.execute else None))
  }

  predicate KindFits(subject: SubjectKind, body: R.Body) {
    match body
    case Lifecycle(_) => subject == LifecycleSubject
    case Heartbeat(_) => subject == HeartbeatSubject
    case Bootstrap(_) => subject == BootstrapSubject
  }

  /** A receipt already kept for the event must name the same authority and the same bytes. */
  predicate EventAgrees(db: Db, d: R.Delivery) {
    forall p | p in db.receipts && db.receipts[p].eventId == d.eventId && db.receipts[p].tenantId == d.tenantId ::
      db.receipts[p].sequence == d.sequence && db.receipts[p].epoch == d.epoch && db.receipts[p].payload == d.payload
  }

  predicate AuthorityAgrees(db: Db, d: R.Delivery, authority: Authority) {
    forall p | p in db.receipts && db.receipts[p].eventId == d.eventId && db.receipts[p].tenantId == d.tenantId ::
      db.receipts[p].authority == authority
  }

  function ReceiptOf(m: Message, d: R.Delivery, authority: Authority): AuthorityReceipt {
    AuthorityReceipt(authority, m.subject, d.eventId, d.epoch, d.sequence, d.tenantId, m.payload)
  }

  /** receiveInTransaction: apply the event and keep the authority receipt of this position, together. */
  function ReceiveInTransaction(c: Config, db: Db, m: Message, d: R.Delivery, a: Answers): Outcome<Db> {
    if !Accepts(c, m) then Err(Denied)
    else if !R.ValidDelivery(d) || d.payload != m.payload || d.producer != c.producer then Err(Invalid)
    else if m.subject !in c.routes then Err(Denied)
    else if !KindFits(m.subject, d.body) then Err(Invalid)
    else match Current(c, m.subject, a)
      case Err(e) => Err(e)
      case Ok(authority) =>
        if !AuthorityAgrees(db, d, authority) then Err(Denied)
        else if !EventAgrees(db, d) then Err(Conflict)
        else if d.body.Bootstrap? && a.creating.Some? then Err(a.creating.value)
        else if d.body.Bootstrap? && a.bootstrap.Some? then Err(a.bootstrap.value)
        else match R.Receive(db.store, d, a.clock)
          case Invalid => Err(LifecycleInvalid)
          case Conflict => Err(LifecycleConflict)
          case Missing => Err(Unavailable)
          case Ok(applied) =>
            var kept := ReceiptOf(m, d, authority);
            if m.position in db.receipts then
              if db.receipts[m.position].authority != authority || db.receipts[m.position].eventId != d.eventId
                || db.receipts[m.position].epoch != d.epoch || db.receipts[m.position].tenantId != d.tenantId
                || db.receipts[m.position].payload != m.payload
              then Err(Conflict) else Ok(db.(store := applied.0))
            else Ok(db.(store := applied.0, receipts := db.receipts[m.position := kept]))
  }

  /** The ordinary receive path: a quarantined position is never applied by it. */
  function Receive(c: Config, db: Db, m: Message, d: R.Delivery, a: Answers): Outcome<Db> {
    if !Accepts(c, m) then Err(Denied)
    else if m.position in db.dlq then
      if db.dlq[m.position].message.payload != m.payload || db.dlq[m.position].message.subject != m.subject then Err(Conflict) else Err(Quarantined)
    else ReceiveInTransaction(c, db, m, d, a)
  }

  function Quarantine(c: Config, db: Db, m: Message, reason: Reason): Outcome<Db> {
    if !Accepts(c, m) then Err(Denied)
    else if |m.headers| > 16384 then Err(Invalid)
    else if m.position in db.dlq then
      if db.dlq[m.position].message.payload != m.payload || db.dlq[m.position].message.subject != m.subject then Err(Conflict) else Ok(db)
    else Ok(db.(dlq := db.dlq[m.position := Original(m, reason)]))
  }

  /** Whether a transaction's commit takes effect and whether the caller learns it. */
  datatype Commit = Commits | Aborts | CommitsUnseen

  function After(db: Db, r: Outcome<Db>, commit: Commit): Db {
    if r.Ok? && commit != Aborts then r.value else db
  }

  function Seen(r: Outcome<Db>, commit: Commit): Option<Failure> {
    if r.Err? then Some(r.error) else if commit == Commits then None else Some(Unavailable)
  }

  /** What ReceiveNext does next, given how storing the event ended. */
  datatype Verdict = MayAck | MustQuarantine(reason: Reason) | MustRetry

  function AfterReceive(seen: Option<Failure>): Verdict {
    match seen
    case None => MayAck
    case Some(Quarantined) => MayAck
    case Some(Denied) => MustQuarantine(AuthorityDenied)
    case Some(Conflict) | Some(LifecycleConflict) => MustQuarantine(EventConflict)
    case Some(Invalid) | Some(LifecycleInvalid) => MustQuarantine(InvalidEvent)
    case Some(Unavailable) => MustRetry
  }
}
