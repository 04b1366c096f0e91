/** What each lifecycle delivery, heartbeat and snapshot step is taken for, in its own fields. */
module LifecycleDecisions {
  import opened Ids
  import opened TenantLifecycle
  import opened TenantReplication

  // ---- Documents --------------------------------------------------------------------------------

  /** A version 7 identifier of the RFC 9562 variant. */
  predicate V7(id: Uuid) { id.octets[6] / 16 == 7 && id.octets[8] / 64 == 2 }

  predicate WholeEvent(e: Event) {
    && V7(e.eventId) && V7(e.epoch) && V7(e.tenantId) && e.sequence > 0 && e.tenantVersion > 0
    && e.status in {Active, Frozen, Disabled} && |e.reason| <= 1024 && (exists c :: c in e.reason && !IsSpace(c))
    && e.occurredAt != NoTime && e.effectiveAt == e.occurredAt
  }

  predicate WholeBeat(h: Beat) { V7(h.id) && V7(h.epoch) && h.published >= 0 && h.committed >= h.published && h.observedAt != NoTime }

  /** The envelope repeats what its document says; a heartbeat names no tenant and no position. */
  predicate WholeDelivery(d: Delivery) {
    && V7(d.eventId) && V7(d.epoch) && d.occurredAt != NoTime && d.payload != [] && |d.payload| <= 65536
    && (d.body.Lifecycle? ==>
          var e := d.body.event;
          WholeEvent(e) && e.eventId == d.eventId && e.epoch == d.epoch && e.tenantId == d.tenantId && e.sequence == d.sequence && e.occurredAt == d.occurredAt)
    && (d.body.Heartbeat? ==>
          var h := d.body.beat;
          WholeBeat(h) && h.id == d.eventId && h.epoch == d.epoch && d.tenantId == NilId && d.sequence == 0 && h.observedAt == d.occurredAt)
    && (d.body.Bootstrap? ==> d.tenantId.octets[6] / 16 == 7 && d.sequence > 0)
  }

  lemma WholeIff(e: Event, h: Beat, d: Delivery)
    ensures ValidEvent(e) <==> WholeEvent(e)
    ensures ValidBeat(h) <==> WholeBeat(h)
    ensures ValidDelivery(d) <==> WholeDelivery(d)
  {
    ReasonIff(e.reason);
    if d.body.Lifecycle? { ReasonIff(d.body.event.reason); }
  }

  lemma ReasonIff(reason: string)
    ensures ValidReason(reason) <==> |reason| <= 1024 && exists c :: c in reason && !IsSpace(c)
  {
    if c :| c in reason && !IsSpace(c) {
      var i :| 0 <= i < |reason| && reason[i] == c;
    }
  }

  // ---- One event --------------------------------------------------------------------------------

  /** Born active; active and frozen alternate; either may be disabled, which is the end. */
  predicate Legal(previous: Fact, status: Status) {
    if previous.version == 0 then status == Active
    else match previous.status
      case Active => status == Frozen || status == Disabled
      case Frozen => status == Active || status == Disabled
      case _ => false
  }

  /** The event is the next position of the pipeline's own epoch and no snapshot is outstanding. */
  predicate IsNext(p: Pipeline, e: Event) { p.epoch == e.epoch && !p.snapshotRequired && e.sequence == p.applied + 1 }

  /**
   * Which event is applied, which is in conflict, which asks for a snapshot and which is only counted;
   * what the pipeline and the tenant's fact then are.
   */
  lemma ProjectedExactly(p: Pipeline, previous: Fact, e: Event)
    ensures var r := Project(p, previous, e);
            && (r == Invalid <==> !WholeEvent(e))
            && (r == Conflict <==>
                  && WholeEvent(e) && IsNext(p, e)
                  && (e.tenantVersion <= previous.version || (e.tenantVersion == previous.version + 1 && !Legal(previous, e.status))))
            && (r.Ok? ==>
                  var t := r.value.pipeline;
                  && (r.value.outcome == Applied <==> IsNext(p, e) && e.tenantVersion == previous.version + 1 && Legal(previous, e.status))
                  && (r.value.outcome == EpochRequiresSnapshot <==> p.epoch != e.epoch)
                  && (r.value.outcome == AwaitingSnapshot <==> p.epoch == e.epoch && p.snapshotRequired)
                  && (r.value.outcome == Covered <==> p.epoch == e.epoch && !p.snapshotRequired && e.sequence <= p.applied)
                  && (r.value.outcome == SequenceGap <==> p.epoch == e.epoch && !p.snapshotRequired && e.sequence > p.applied + 1)
                  && (r.value.outcome == TenantVersionGap <==> IsNext(p, e) && e.tenantVersion > previous.version + 1)
                  && t == Pipeline(p.epoch, if r.value.outcome == Applied then e.sequence else p.applied,
                                   if p.epoch == e.epoch then Max(p.highest, e.sequence) else p.highest,
                                   p.snapshotRequired || r.value.outcome in {EpochRequiresSnapshot, SequenceGap, TenantVersionGap},
                                   p.beat, p.beatReceivedAt)
                  && r.value.fact == if r.value.outcome == Applied then Fact(e.tenantVersion, e.status, e.reason, e.effectiveAt, false) else previous)
  {
    ReasonIff(e.reason);
  }

  // ---- One heartbeat ----------------------------------------------------------------------------

  /** Of the live epoch, under a new identity and observed later than the one held. */
  predicate IsNewer(p: Pipeline, h: Beat) { p.epoch == h.epoch && h.id != p.beat.id && h.observedAt > p.beat.observedAt }

  lemma ObservedExactly(p: Pipeline, h: Beat, receivedAt: Time)
    ensures var r := Observe(p, h, receivedAt);
            && (r == Invalid <==> !WholeBeat(h) || receivedAt == NoTime || receivedAt < h.observedAt)
            && (r == Conflict <==>
                  && WholeBeat(h) && receivedAt != NoTime && h.observedAt <= receivedAt
                  && IsNewer(p, h) && (h.committed < p.beat.committed || h.published < p.beat.published))
            && (r.Ok? ==>
                  r.value ==
                    if p.epoch != h.epoch then (p.(snapshotRequired := true), EpochRequiresSnapshot)
                    else if IsNewer(p, h) then (p.(beat := h, beatReceivedAt := receivedAt, highest := Max(p.highest, h.committed)), Observed)
                    else (p, OlderHeartbeat))
  {}

  /** Fresh: everything known is applied, the last observation is of this epoch and both its times are less than 30 seconds old. */
  lemma FreshIff(p: Pipeline, now: Time)
    ensures Fresh(p, now) <==>
              && V7(p.epoch) && !p.snapshotRequired && p.applied >= 0 && p.highest == p.applied
              && WholeBeat(p.beat) && p.beat.epoch == p.epoch && p.beat.committed <= p.applied && p.beatReceivedAt != NoTime
              && now - 30 * Second < p.beatReceivedAt && p.beatReceivedAt <= now && now - 30 * Second < p.beat.observedAt && p.beat.observedAt <= now
  {}

  /** A generation goes live at its watermark, in a version 7 epoch, with nothing observed yet. */
  lemma ActivatedExactly(epoch: Uuid, watermark: int64, retained: int64)
    ensures Activate(epoch, watermark, retained) ==
              if V7(epoch) && watermark >= 0 && retained >= 0 then Ok(Pipeline(epoch, watermark, Max(watermark, retained), false, NoBeat, NoTime)) else Invalid
  {}

  // ---- One delivery -----------------------------------------------------------------------------

  /** A delivery kept before is only accepted as it was; a new position of an epoch only once; an application needs a live generation. */
  predicate Acceptable(s: Store, d: Delivery, clock: Time) {
    if d.eventId in s.receipts then s.receipts[d.eventId].delivery == d
    else match d.body
      case Lifecycle(e) =>
        var u := Project(s.pipeline, FactAt(FactsOf(s.live), d.tenantId), e);
        && u.Ok? && (u.value.outcome == Applied ==> s.live.Some?)
        && forall id | id in s.receipts && s.receipts[id].delivery.body.Lifecycle? ::
             s.receipts[id].delivery.epoch != d.epoch || s.receipts[id].delivery.sequence != d.sequence
      case Heartbeat(h) => Observe(s.pipeline, h, clock).Ok?
      case Bootstrap(_) => true
  }

  /** When a delivery is kept, what it changes, and that a redelivery changes nothing. */
  lemma ReceivedExactly(s: Store, d: Delivery, clock: Time)
    ensures var r := Receive(s, d, clock);
            && (r.Ok? <==> WholeDelivery(d) && d.producer == s.producer && Acceptable(s, d, clock))
            && (r.Ok? && d.eventId in s.receipts ==> r.value == (s, Answer(true, s.receipts[d.eventId].outcome)))
            && (r.Ok? && d.eventId !in s.receipts ==>
                  var t := r.value.0; var outcome := r.value.1.outcome;
                  && !r.value.1.duplicate && t.receipts == s.receipts[d.eventId := Receipt(d, outcome)] && t.builds == s.builds && t.producer == s.producer
                  && (match d.body
                      case Lifecycle(e) =>
                        var u := Project(s.pipeline, FactAt(FactsOf(s.live), d.tenantId), e).value;
                        && outcome == u.outcome && t.pipeline == u.pipeline
                        && t.live == if outcome == Applied then Some(Generation(s.live.value.id, s.live.value.facts[d.tenantId := u.fact])) else s.live
                      case Heartbeat(h) => (t.pipeline, outcome) == Observe(s.pipeline, h, clock).value && t.live == s.live
                      case Bootstrap(_) => t.pipeline == s.pipeline && t.live == s.live && outcome == BootstrapKept))
    ensures Receive(s, d, clock) == Invalid || Receive(s, d, clock) == Conflict || Receive(s, d, clock).Ok?
    ensures !WholeDelivery(d) || d.producer != s.producer ==> Receive(s, d, clock) == Invalid
    ensures WholeDelivery(d) && d.producer == s.producer && d.eventId in s.receipts && s.receipts[d.eventId].delivery != d ==> Receive(s, d, clock) == Conflict
  {
    WholeIff(NoEvent(d), NoBeat, d);
    if d.body.Lifecycle? { RetainedIff(s.receipts, d); }
  }

  function NoEvent(d: Delivery): Event { Event(d.eventId, d.epoch, d.tenantId, 1, 1, Active, "", NoTime, NoTime) }

  lemma RetainedIff(receipts: map<Uuid, Receipt>, d: Delivery)
    ensures Retained(receipts, d.epoch, d.sequence) <==>
              !(forall id | id in receipts && receipts[id].delivery.body.Lifecycle? ::
                  receipts[id].delivery.epoch != d.epoch || receipts[id].delivery.sequence != d.sequence)
  {
    if !Retained(receipts, d.epoch, d.sequence) { assert forall id | id in receipts :: !At(receipts[id], d.epoch, d.sequence); }
    else {
      var id :| id in receipts && At(receipts[id], d.epoch, d.sequence);
    }
  }

  // ---- Snapshots --------------------------------------------------------------------------------

  /** A snapshot begins a build of its watermark's facts, unless it is known, malformed or behind the live epoch. */
  lemma LoadedIff(s: Store, id: Uuid, epoch: Uuid, watermark: int64, facts: Facts)
    ensures var t := Next(s, Load(id, epoch, watermark, facts));
            if && V7(id) && V7(epoch) && watermark >= 0 && id !in s.builds && (s.pipeline.epoch == epoch ==> s.pipeline.applied <= watermark)
               && (forall x | x in facts :: V7(x) && facts[x].version > 0 && facts[x].status in {Active, Frozen, Disabled})
            then
              && t == s.(builds := t.builds) && id in t.builds && t.builds == s.builds[id := t.builds[id]]
              && t.builds[id].epoch == epoch && t.builds[id].appliedThrough == watermark && t.builds[id].state == Loaded
              && t.builds[id].base == (if s.live.Some? then Some(s.live.value.id) else None)
              && t.builds[id].facts == map x | x in facts :: Fact(facts[x].version, facts[x].status, "", NoTime, true)
            else t == s
  {
    assert ValidSnapshotFacts(facts) <==> forall x | x in facts :: V7(x) && facts[x].version > 0 && facts[x].status in {Active, Frozen, Disabled};
  }

  /** A missing increment, or one that does not apply plainly, ends the build; a present one moves it by one. */
  lemma IncrementEndsOrMoves(receipts: map<Uuid, Receipt>, b: Build)
    requires b.appliedThrough >= 0
    ensures var n := AdvanceOne(receipts, b);
            && (n.state == Abandoned || (n.state == CatchingUp && n.appliedThrough == b.appliedThrough + 1))
            && (!Retained(receipts, b.epoch, b.appliedThrough + 1) ==> n == b.(state := Abandoned))
            && (n.state == Abandoned ==> n.facts == b.facts && n.appliedThrough == b.appliedThrough)
  {}

  /** An increment applies plainly when it is the next version of its tenant, legally moved, in the build's own epoch. */
  lemma IncrementedIff(b: Build, e: Event)
    requires b.appliedThrough >= 0 && e.sequence == b.appliedThrough + 1
    ensures var previous := FactAt(b.facts, e.tenantId); var r := Incremented(b, e);
            && (r.Ok? <==> V7(b.epoch) && WholeEvent(e) && e.epoch == b.epoch && e.tenantVersion == previous.version + 1 && Legal(previous, e.status))
            && (r.Ok? ==> r.value == b.(facts := b.facts[e.tenantId := Fact(e.tenantVersion, e.status, e.reason, e.effectiveAt, false)], appliedThrough := e.sequence))
  {
    var p := Pipeline(b.epoch, b.appliedThrough, b.appliedThrough, false, NoBeat, NoTime);
    assert V7(b.epoch) ==> Activate(b.epoch, b.appliedThrough, b.appliedThrough) == Ok(p);
    ProjectedExactly(p, FactAt(b.facts, e.tenantId), e);
  }

  /** Abandoning a build in progress ends it and touches nothing else. */
  lemma AbandonedExactly(s: Store, id: Uuid)
    ensures var t := Next(s, Abandon(id));
            if id in s.builds && s.builds[id].state in {Loaded, CatchingUp} then t == s.(builds := s.builds[id := s.builds[id].(state := Abandoned)]) else t == s
  {}
}
