/**
 * The pure rules of internal/biz/tenant_lifecycle.go: what one lifecycle event,
 * one heartbeat and one snapshot activation do to a replication pipeline.
 */
module TenantLifecycle {
  import opened Ids

  datatype Status = Active | Frozen | Disabled | Other(text: string)

  datatype Event = Event(
    eventId: Uuid, epoch: Uuid, tenantId: Uuid,
    sequence: int64, tenantVersion: int64,
    status: Status, reason: string,
    occurredAt: Time, effectiveAt: Time)

  datatype Beat = Beat(id: Uuid, epoch: Uuid, committed: int64, published: int64, observedAt: Time)

  datatype Fact = Fact(version: int64, status: Status, reason: string, effectiveAt: Time, snapshotBase: bool)

  datatype Pipeline = Pipeline(
    epoch: Uuid, applied: int64, highest: int64, snapshotRequired: bool,
    beat: Beat, beatReceivedAt: Time)

  datatype Outcome = Applied | Covered | EpochRequiresSnapshot | AwaitingSnapshot | SequenceGap
                   | TenantVersionGap | Observed | OlderHeartbeat | BootstrapKept

  datatype Result<+T> = Ok(value: T) | Invalid | Conflict | Missing

  datatype Update = Update(pipeline: Pipeline, fact: Fact, outcome: Outcome)

  const NoBeat := Beat(NilId, NilId, 0, 0, NoTime)
  const NoFact := Fact(0, Other(""), "", NoTime, false)
  const StaleAfter: Time := 30 * Second

  predicate LifecycleId(id: Uuid) { IsV7(id) && IsRfc4122(id) }

  predicate KnownStatus(s: Status) { !s.Other? }

  predicate ValidReason(reason: string) {
    |reason| <= 1024 && exists i :: 0 <= i < |reason| && !IsSpace(reason[i])
  }

  predicate ValidEvent(e: Event) {
    && LifecycleId(e.eventId) && LifecycleId(e.epoch) && LifecycleId(e.tenantId)
    && e.sequence >= 1 && e.tenantVersion >= 1
    && KnownStatus(e.status) && ValidReason(e.reason)
    && e.occurredAt != NoTime && e.effectiveAt == e.occurredAt
  }

  predicate ValidBeat(h: Beat) {
    LifecycleId(h.id) && LifecycleId(h.epoch) && 0 <= h.published <= h.committed && h.observedAt != NoTime
  }

  /** active and frozen alternate; disabled is reachable from both and final. */
  predicate Transition(from: Status, to: Status, initial: bool) {
    if initial then to == Active
    else (from == Active && (to == Frozen || to == Disabled)) || (from == Frozen && (to == Active || to == Disabled))
  }

  function FactOf(e: Event): Fact { Fact(e.tenantVersion, e.status, e.reason, e.effectiveAt, false) }

  function Project(p: Pipeline, previous: Fact, e: Event): (r: Result<Update>)
    ensures r.Ok? && r.value.outcome == Applied ==>
              r.value.pipeline.applied == p.applied + 1 && r.value.fact.version == previous.version + 1
    ensures r.Ok? && r.value.outcome != Applied ==>
              r.value.fact == previous && r.value.pipeline.applied == p.applied
  {
    if !ValidEvent(e) then Invalid
    else if p.epoch != e.epoch then
      Ok(Update(p.(snapshotRequired := true), previous, EpochRequiresSnapshot))
    else
      var q := p.(highest := Max(p.highest, e.sequence));
      if p.snapshotRequired then Ok(Update(q, previous, AwaitingSnapshot))
      else if e.sequence <= p.applied then Ok(Update(q, previous, Covered))
      else
        var next: int64 := p.applied + 1;
        if e.sequence != next then Ok(Update(q.(snapshotRequired := true), previous, SequenceGap))
        else if e.tenantVersion <= previous.version then Conflict
        else
          var nextVersion: int64 := previous.version + 1;
          if e.tenantVersion != nextVersion then Ok(Update(q.(snapshotRequired := true), previous, TenantVersionGap))
          else if !Transition(previous.status, e.status, previous.version == 0) then Conflict
          else Ok(Update(q.(applied := e.sequence), FactOf(e), Applied))
  }

  function Observe(p: Pipeline, h: Beat, receivedAt: Time): (r: Result<(Pipeline, Outcome)>)
    ensures r.Ok? && r.value.1 != Observed ==> r.value.0.beat == p.beat && r.value.0.beatReceivedAt == p.beatReceivedAt
  {
    if !ValidBeat(h) || receivedAt == NoTime || h.observedAt > receivedAt then Invalid
    else if p.epoch != h.epoch then Ok((p.(snapshotRequired := true), EpochRequiresSnapshot))
    else if h.id == p.beat.id || h.observedAt <= p.beat.observedAt then Ok((p, OlderHeartbeat))
    else if h.committed < p.beat.committed || h.published < p.beat.published then Conflict
    else Ok((p.(beat := h, beatReceivedAt := receivedAt, highest := Max(p.highest, h.committed)), Observed))
  }

  predicate Fresh(p: Pipeline, now: Time) {
    && LifecycleId(p.epoch) && !p.snapshotRequired && 0 <= p.applied == p.highest
    && ValidBeat(p.beat) && p.beat.epoch == p.epoch && p.applied >= p.beat.committed
    && p.beatReceivedAt != NoTime && p.beatReceivedAt <= now && p.beat.observedAt <= now
    && now < p.beatReceivedAt + StaleAfter && now < p.beat.observedAt + StaleAfter
  }

  function Activate(epoch: Uuid, watermark: int64, highestRetained: int64): (r: Result<Pipeline>)
    ensures r.Ok? ==> forall now :: !Fresh(r.value, now)
  {
    if !LifecycleId(epoch) || watermark < 0 || highestRetained < 0 then Invalid
    else
      NilIsNotV7();
      Ok(Pipeline(epoch, watermark, Max(watermark, highestRetained), false, NoBeat, NoTime))
  }
}
