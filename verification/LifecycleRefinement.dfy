/**
 * Replication against the owner's own log: from truthful deliveries and snapshots, in any order and
 * with any loss, the live facts are a prefix fold of that log and `Fresh` bounds what is missing.
 */
module LifecycleRefinement {
  import opened Ids
  import opened TenantLifecycle
  import opened TenantReplication

  // ---- The owner's log and truthful input ----------------------------------------------------

  /** `payload` is the exact published document; the broker entry exists from `committedAt` on. */
  datatype Entry = Entry(event: Event, committedAt: Time)

  /** One epoch of the owner: the facts it opened with and everything it ever commits. */
  datatype Owner = Owner(base: Facts, log: seq<Entry>)

  type Owners = map<Uuid, Owner>

  function Fold(o: Owner, n: nat): (f: Facts)
    requires n <= |o.log|
  {
    if n == 0 then o.base
    else Fold(o, n - 1)[o.log[n - 1].event.tenantId := FactOf(o.log[n - 1].event)]
  }

  /** The owner numbers its commits 1, 2, ... and moves each tenant by single legal versions. */
  ghost predicate WellFormed(epoch: Uuid, o: Owner) {
    && ValidSnapshotFacts(o.base)
    && forall i | 0 <= i < |o.log| :: Continues(epoch, o, i)
  }

  predicate Continues(epoch: Uuid, o: Owner, i: int)
    requires 0 <= i < |o.log|
  {
    var e := o.log[i].event;
    var before := FactAt(Fold(o, i), e.tenantId);
    && ValidEvent(e) && e.epoch == epoch && e.sequence == i + 1
    && e.tenantVersion == before.version + 1
    && Transition(before.status, e.status, before.version == 0)
  }

  predicate Published(owners: Owners, e: Event) {
    e.epoch in owners && 1 <= e.sequence <= |owners[e.epoch].log| && owners[e.epoch].log[e.sequence - 1].event == e
  }

  /** The commit count at observation: every entry committed by then is within it. */
  predicate TruthfulBeat(o: Owner, h: Beat) {
    && 0 <= h.committed <= |o.log|
    && forall i | 0 <= i < |o.log| && o.log[i].committedAt <= h.observedAt :: i < h.committed
  }

  predicate TruthfulDelivery(owners: Owners, d: Delivery) {
    match d.body
    case Lifecycle(e) => ValidDelivery(d) ==> Published(owners, e)
    case Heartbeat(h) => h.epoch in owners && TruthfulBeat(owners[h.epoch], h)
    case Bootstrap(_) => true
  }

  ghost predicate Truthful(owners: Owners, step: Step) {
    match step
    case Deliver(d, _) => TruthfulDelivery(owners, d)
    case Load(_, epoch, w, facts) => epoch in owners && 0 <= w <= |owners[epoch].log| && SameVersions(facts, Fold(owners[epoch], w))
    case _ => true
  }

  predicate SameVersions(a: Facts, b: Facts) {
    a.Keys == b.Keys && forall t | t in a :: a[t].version == b[t].version && a[t].status == b[t].status
  }

  /** Versions and statuses always; the whole record once an event rather than a page wrote it. */
  predicate Agrees(stored: Facts, truth: Facts) {
    SameVersions(stored, truth) && forall t | t in stored && !stored[t].snapshotBase :: stored[t] == truth[t]
  }

  ghost predicate WellFormedOwners(owners: Owners) {
    forall e | e in owners :: LifecycleId(e) && WellFormed(e, owners[e])
  }

  ghost predicate PrefixOf(owners: Owners, epoch: Uuid, n: int, facts: Facts) {
    epoch in owners && 0 <= n <= |owners[epoch].log| && Agrees(facts, Fold(owners[epoch], n))
  }

  /** What every reachable store satisfies. */
  ghost predicate Inv(owners: Owners, s: Store) {
    && PipelineInv(owners, s.pipeline, s.live)
    && AllPublished(owners, s.receipts)
    && (s.live.Some? && !s.pipeline.snapshotRequired ==> NoneBeyond(s.receipts, s.pipeline.epoch, s.pipeline.applied))
    && (forall id | id in s.builds :: PrefixOf(owners, s.builds[id].epoch, s.builds[id].appliedThrough, s.builds[id].facts))
  }

  ghost predicate PipelineInv(owners: Owners, p: Pipeline, live: Option<Generation>) {
    && 0 <= p.applied <= p.highest
    && (live.None? <==> p.epoch == NilId)
    && (live.None? ==> p.snapshotRequired && p.applied == 0 && p.highest == 0)
    && (live.Some? ==> PrefixOf(owners, p.epoch, p.applied, live.value.facts))
    && (p.beat != NoBeat ==>
          && live.Some? && ValidBeat(p.beat) && p.beat.epoch == p.epoch && p.beat.committed <= p.highest
          && TruthfulBeat(owners[p.epoch], p.beat) && p.beat.observedAt <= p.beatReceivedAt && p.beatReceivedAt != NoTime)
  }

  ghost predicate AllPublished(owners: Owners, receipts: map<Uuid, Receipt>) {
    forall id | id in receipts && receipts[id].delivery.body.Lifecycle? ::
      ValidDelivery(receipts[id].delivery) && Published(owners, receipts[id].delivery.body.event)
  }

  ghost predicate NoneBeyond(receipts: map<Uuid, Receipt>, epoch: Uuid, sequence: int) {
    forall id | id in receipts :: !Beyond(receipts[id], epoch, sequence)
  }

  lemma AgreesOn(stored: Facts, truth: Facts, t: Uuid, f: Fact)
    requires Agrees(stored, truth)
    ensures Agrees(stored[t := f], truth[t := f])
    ensures FactAt(stored, t).version == FactAt(truth, t).version && FactAt(stored, t).status == FactAt(truth, t).status
  {}

  /** The next entry of the prefix held is applied, never refused and never a gap. */
  lemma NextApplies(epoch: Uuid, o: Owner, p: Pipeline, stored: Facts)
    requires WellFormed(epoch, o) && 0 <= p.applied < |o.log| && Agrees(stored, Fold(o, p.applied))
    requires p.epoch == epoch && !p.snapshotRequired
    ensures var e := o.log[p.applied].event;
            var r := Project(p, FactAt(stored, e.tenantId), e);
            && r == Ok(Update(p.(applied := e.sequence, highest := Max(p.highest, e.sequence)), FactOf(e), Applied))
            && Agrees(stored[e.tenantId := FactOf(e)], Fold(o, p.applied + 1))
  {
    var e := o.log[p.applied].event;
    assert Continues(epoch, o, p.applied);
    AgreesOn(stored, Fold(o, p.applied), e.tenantId, FactOf(e));
  }

  lemma IncrementedPrefix(owners: Owners, b: Build, e: Event)
    requires WellFormedOwners(owners) && PrefixOf(owners, b.epoch, b.appliedThrough, b.facts)
    requires Published(owners, e) && e.epoch == b.epoch && e.sequence == b.appliedThrough + 1
    ensures var r := Incremented(b, e); r.Ok? && PrefixOf(owners, b.epoch, r.value.appliedThrough, r.value.facts)
  {
    var p := Pipeline(b.epoch, b.appliedThrough, b.appliedThrough, false, NoBeat, NoTime);
    NextApplies(b.epoch, owners[b.epoch], p, b.facts);
    assert Max(b.appliedThrough, b.appliedThrough) == b.appliedThrough;
  }

  lemma EventPublished(owners: Owners, receipts: map<Uuid, Receipt>, epoch: Uuid, sequence: int)
    requires AllPublished(owners, receipts) && Retained(receipts, epoch, sequence)
    ensures var e := EventAt(receipts, epoch, sequence);
            Published(owners, e) && e.epoch == epoch && e.sequence == sequence
  {
    var id :| id in receipts && At(receipts[id], epoch, sequence)
      && receipts[id].delivery.body.event == EventAt(receipts, epoch, sequence);
  }

  lemma AdvanceOnePrefix(owners: Owners, receipts: map<Uuid, Receipt>, b: Build)
    requires WellFormedOwners(owners) && AllPublished(owners, receipts)
    requires PrefixOf(owners, b.epoch, b.appliedThrough, b.facts)
    ensures var r := AdvanceOne(receipts, b); PrefixOf(owners, r.epoch, r.appliedThrough, r.facts)
    ensures Retained(receipts, b.epoch, b.appliedThrough + 1) ==> AdvanceOne(receipts, b).state == CatchingUp
  {
    if Retained(receipts, b.epoch, b.appliedThrough + 1) {
      EventPublished(owners, receipts, b.epoch, b.appliedThrough + 1);
      IncrementedPrefix(owners, b, EventAt(receipts, b.epoch, b.appliedThrough + 1));
    }
  }

  lemma AdvancePrefix(owners: Owners, receipts: map<Uuid, Receipt>, b: Build, budget: nat)
    requires WellFormedOwners(owners) && AllPublished(owners, receipts)
    requires PrefixOf(owners, b.epoch, b.appliedThrough, b.facts)
    ensures var r := Advance(receipts, b, budget); PrefixOf(owners, r.epoch, r.appliedThrough, r.facts)
  {
    var keeps := (c: Build) => PrefixOf(owners, c.epoch, c.appliedThrough, c.facts);
    forall c ensures Extends(receipts, c, keeps) {
      if keeps(c) { AdvanceOnePrefix(owners, receipts, c); }
    }
    AdvanceKeeps(receipts, b, budget, keeps);
  }

  // ---- Refinement: every reachable store holds a prefix of the owner's log --------------------

  /** The owner's events are never in conflict with a reachable pipeline; unless applied they change no fact. */
  lemma ProjectPublished(owners: Owners, p: Pipeline, live: Option<Generation>, e: Event)
    requires WellFormedOwners(owners) && PipelineInv(owners, p, live) && Published(owners, e) && ValidEvent(e)
    ensures var r := Project(p, FactAt(FactsOf(live), e.tenantId), e);
            && r.Ok? && r.value.pipeline.epoch == p.epoch
            && (r.value.outcome == Applied <==> e.epoch == p.epoch && !p.snapshotRequired && e.sequence == p.applied + 1)
            && (r.value.outcome != Applied ==> PipelineInv(owners, r.value.pipeline, live))
  {
    if live.Some? && e.epoch == p.epoch && !p.snapshotRequired && e.sequence == p.applied + 1 {
      NextApplies(e.epoch, owners[e.epoch], p, live.value.facts);
    }
  }

  lemma ProjectAppliesPrefix(owners: Owners, p: Pipeline, live: Generation, e: Event)
    requires WellFormedOwners(owners) && PipelineInv(owners, p, Some(live)) && Published(owners, e)
    requires e.epoch == p.epoch && !p.snapshotRequired && e.sequence == p.applied + 1
    ensures var r := Project(p, FactAt(live.facts, e.tenantId), e);
            && r.Ok? && !r.value.pipeline.snapshotRequired && r.value.pipeline.applied == e.sequence
            && PipelineInv(owners, r.value.pipeline, Some(live.(facts := live.facts[e.tenantId := r.value.fact])))
  {
    NextApplies(e.epoch, owners[e.epoch], p, live.facts);
  }

  lemma ObserveKeepsInv(owners: Owners, p: Pipeline, live: Option<Generation>, h: Beat, clock: Time)
    requires PipelineInv(owners, p, live) && h.epoch in owners && TruthfulBeat(owners[h.epoch], h)
    requires Observe(p, h, clock).Ok?
    ensures PipelineInv(owners, Observe(p, h, clock).value.0, live)
  {}

  lemma KeepKeepsInv(owners: Owners, s: Store, d: Delivery, p: Pipeline, live: Option<Generation>, outcome: Outcome)
    requires Inv(owners, s) && PipelineInv(owners, p, live) && p.epoch == s.pipeline.epoch && p.applied >= s.pipeline.applied
    requires !p.snapshotRequired ==> !s.pipeline.snapshotRequired
    requires d.body.Lifecycle? ==> ValidDelivery(d) && Published(owners, d.body.event)
    requires d.body.Lifecycle? && d.epoch == p.epoch && !p.snapshotRequired ==> d.sequence <= p.applied
    requires Keep(s, d, p, live, outcome).Ok?
    ensures Inv(owners, Keep(s, d, p, live, outcome).value.0)
  {
    var receipts := s.receipts[d.eventId := Receipt(d, outcome)];
    assert AllPublished(owners, receipts);
    if live.Some? && !p.snapshotRequired {
      assert NoneBeyond(s.receipts, p.epoch, s.pipeline.applied);
      assert forall id | id in receipts && id != d.eventId :: receipts[id] == s.receipts[id] && !Beyond(s.receipts[id], p.epoch, s.pipeline.applied);
      assert NoneBeyond(receipts, p.epoch, p.applied);
    }
  }

  lemma EventKeepsInv(owners: Owners, s: Store, d: Delivery)
    requires WellFormedOwners(owners) && Inv(owners, s) && d.body.Lifecycle? && ValidDelivery(d) && Published(owners, d.body.event)
    requires d.eventId !in s.receipts && Receive(s, d, NoTime).Ok?
    ensures Inv(owners, Receive(s, d, NoTime).value.0)
  {
    var e := d.body.event;
    var u := Project(s.pipeline, FactAt(FactsOf(s.live), e.tenantId), e).value;
    ProjectPublished(owners, s.pipeline, s.live, e);
    if u.outcome == Applied {
      ProjectAppliesPrefix(owners, s.pipeline, s.live.value, e);
      KeepKeepsInv(owners, s, d, u.pipeline, Some(s.live.value.(facts := s.live.value.facts[d.tenantId := u.fact])), u.outcome);
    } else {
      KeepKeepsInv(owners, s, d, u.pipeline, s.live, u.outcome);
    }
  }

  lemma BeatKeepsInv(owners: Owners, s: Store, d: Delivery, clock: Time)
    requires Inv(owners, s) && TruthfulDelivery(owners, d) && d.body.Heartbeat? && d.eventId !in s.receipts
    requires Receive(s, d, clock).Ok?
    ensures Inv(owners, Receive(s, d, clock).value.0)
  {
    ObserveKeepsInv(owners, s.pipeline, s.live, d.body.beat, clock);
    var o := Observe(s.pipeline, d.body.beat, clock).value;
    KeepKeepsInv(owners, s, d, o.0, s.live, o.1);
  }

  lemma ReceiveKeepsInv(owners: Owners, s: Store, d: Delivery, clock: Time)
    requires WellFormedOwners(owners) && Inv(owners, s) && TruthfulDelivery(owners, d)
    requires Receive(s, d, clock).Ok?
    ensures Inv(owners, Receive(s, d, clock).value.0)
  {
    if d.eventId !in s.receipts {
      match d.body
      case Lifecycle(_) => EventKeepsInv(owners, s, d);
      case Heartbeat(_) => BeatKeepsInv(owners, s, d, clock);
      case Bootstrap(_) => KeepKeepsInv(owners, s, d, s.pipeline, s.live, BootstrapKept);
    }
  }

  lemma SwitchKeepsInv(owners: Owners, s: Store, id: Uuid)
    requires WellFormedOwners(owners) && Inv(owners, s) && Usable(s, id)
    ensures Inv(owners, Switch(s, id))
  {
    NilIsNotV7();
    assert s.builds[id].epoch in owners;
  }

  lemma LoadedIsPrefix(o: Owner, w: nat, facts: Facts)
    requires w <= |o.log| && SameVersions(facts, Fold(o, w))
    ensures Agrees(BaseOf(facts), Fold(o, w))
  {}

  lemma BuildKeepsInv(owners: Owners, s: Store, id: Uuid, b: Build)
    requires Inv(owners, s) && PrefixOf(owners, b.epoch, b.appliedThrough, b.facts)
    ensures Inv(owners, s.(builds := s.builds[id := b]))
  {}

  lemma CatchUpKeepsInv(owners: Owners, s: Store, id: Uuid, page: nat)
    requires WellFormedOwners(owners) && Inv(owners, s) && Usable(s, id)
    ensures Inv(owners, Next(s, CatchUp(id, page)))
  {
    AdvancePrefix(owners, s.receipts, s.builds[id], page);
    BuildKeepsInv(owners, s, id, s.builds[id].(state := Abandoned));
    BuildKeepsInv(owners, s, id, Advance(s.receipts, s.builds[id], page));
  }

  lemma StepKeepsInv(owners: Owners, s: Store, step: Step)
    requires WellFormedOwners(owners) && Inv(owners, s) && Truthful(owners, step)
    ensures Inv(owners, Next(s, step))
  {
    match step
    case Deliver(d, clock) => if Receive(s, d, clock).Ok? { ReceiveKeepsInv(owners, s, d, clock); }
    case Load(id, epoch, w, facts) =>
      LoadedIsPrefix(owners[epoch], w, facts);
      BuildKeepsInv(owners, s, id, Build(epoch, LiveId(s), Loaded, BaseOf(facts), w));
    case CatchUp(id, page) => if Usable(s, id) { CatchUpKeepsInv(owners, s, id, page); }
    case Activation(id) => if Usable(s, id) { SwitchKeepsInv(owners, s, id); }
    case Abandon(id) => if Usable(s, id) { BuildKeepsInv(owners, s, id, s.builds[id].(state := Abandoned)); }
  }

  ghost predicate AllTruthful(owners: Owners, steps: seq<Step>) { forall i | 0 <= i < |steps| :: Truthful(owners, steps[i]) }

  /**
   * Refinement over every run: any order, loss, repetition and gap of truthful deliveries, any
   * number of rebuilds and epoch changes. The live facts are the owner's fold of exactly the
   * first `applied` entries.
   */
  lemma {:induction false} ReachableIsPrefix(owners: Owners, producer: string, steps: seq<Step>)
    requires WellFormedOwners(owners) && AllTruthful(owners, steps)
    ensures var s := Run(Initial(producer), steps);
            && Inv(owners, s)
            && (s.live.Some? ==> PrefixOf(owners, s.pipeline.epoch, s.pipeline.applied, s.live.value.facts))
    decreases |steps|
  {
    if steps != [] {
      ReachableIsPrefix(owners, producer, steps[..|steps| - 1]);
      assert Truthful(owners, steps[|steps| - 1]);
      StepKeepsInv(owners, Run(Initial(producer), steps[..|steps| - 1]), steps[|steps| - 1]);
    }
  }

  // ---- Freshness is a real staleness bound ----------------------------------------------------

  /** Every entry a fresh projection lacks was committed within the last 30 seconds. */
  lemma FreshMissesOnlyRecent(owners: Owners, s: Store, now: Time)
    requires Inv(owners, s) && Fresh(s.pipeline, now)
    ensures s.live.Some? && PrefixOf(owners, s.pipeline.epoch, s.pipeline.applied, s.live.value.facts)
    ensures forall i | s.pipeline.applied <= i < |owners[s.pipeline.epoch].log| ::
              owners[s.pipeline.epoch].log[i].committedAt > now - 30 * Second
  {
    NilIsNotV7();
  }

  /** The deadline column of the reader's view; None stands for '-infinity'. */
  function FreshUntil(s: Store, now: Time): Option<Time> {
    var p := s.pipeline;
    if s.live.Some? && !p.snapshotRequired && p.applied == p.highest && p.applied >= p.beat.committed
      && p.beat != NoBeat && p.beat.epoch == p.epoch && p.beat.observedAt <= now && p.beatReceivedAt <= now
    then Some(Min(p.beat.observedAt, p.beatReceivedAt) + StaleAfter) else None
  }

  /** The view that readers query and the service's own rule agree on every reachable store. */
  lemma ViewAgreesWithFresh(owners: Owners, s: Store, now: Time)
    requires WellFormedOwners(owners) && Inv(owners, s)
    ensures Fresh(s.pipeline, now) <==> FreshUntil(s, now).Some? && now < FreshUntil(s, now).value
  {
    NilIsNotV7();
  }

  predicate NewObservation(s: Store, step: Step) {
    && step.Deliver? && step.delivery.body.Heartbeat? && step.delivery.eventId !in s.receipts
    && Receive(s, step.delivery, step.clock).Ok?
    && s.pipeline.epoch == step.delivery.epoch
    && step.delivery.body.beat.id != s.pipeline.beat.id
    && step.delivery.body.beat.observedAt > s.pipeline.beat.observedAt
  }

  /**
   * Only a heartbeat never kept before, of the current epoch and observed strictly later, renews the
   * window; a replay or an older one leaves it, and an activation closes it.
   */
  lemma OnlyNewObservationsRenew(s: Store, step: Step)
    ensures var a, b := s.pipeline, Next(s, step).pipeline;
            && (NewObservation(s, step) ==> b.beat == step.delivery.body.beat && b.beatReceivedAt == step.clock)
            && (!NewObservation(s, step) ==> (b.beat == a.beat && b.beatReceivedAt == a.beatReceivedAt) || b.beat == NoBeat)
            && (!NewObservation(s, step) && !step.Activation? ==> b.beat == a.beat && b.beatReceivedAt == a.beatReceivedAt)
  {
    if step.Deliver? && step.delivery.body.Heartbeat? { ObservedIsNew(s, step.delivery, step.clock); }
  }

  lemma ObservedIsNew(s: Store, d: Delivery, clock: Time)
    requires d.body.Heartbeat?
    ensures NewObservation(s, Deliver(d, clock)) ==>
              Receive(s, d, clock).value.0.pipeline.beat == d.body.beat && Receive(s, d, clock).value.0.pipeline.beatReceivedAt == clock
    ensures !NewObservation(s, Deliver(d, clock)) && Receive(s, d, clock).Ok? ==>
              && Receive(s, d, clock).value.0.pipeline.beat == s.pipeline.beat
              && Receive(s, d, clock).value.0.pipeline.beatReceivedAt == s.pipeline.beatReceivedAt
  {}

  ghost predicate Unobserved(s: Store, steps: seq<Step>)
    decreases |steps|
  {
    steps == [] || (var before := steps[..|steps| - 1]; Unobserved(s, before) && !NewObservation(Run(s, before), steps[|before|]))
  }

  /** After an activation, or from the beginning, no run makes the projection fresh at any instant until a new heartbeat is observed in it. */
  lemma {:induction false} NeverFreshWithoutObservation(s: Store, steps: seq<Step>, now: Time)
    requires s.pipeline.beat == NoBeat && Unobserved(s, steps)
    ensures Run(s, steps).pipeline.beat == NoBeat && !Fresh(Run(s, steps).pipeline, now)
    decreases |steps|
  {
    NilIsNotV7();
    if steps != [] {
      var before := steps[..|steps| - 1];
      NeverFreshWithoutObservation(s, before, now);
      OnlyNewObservationsRenew(Run(s, before), steps[|before|]);
    }
  }

  // ---- In-order delivery makes progress -------------------------------------------------------

  predicate DeliversNext(owners: Owners, s: Store, d: Delivery) {
    && s.live.Some? && !s.pipeline.snapshotRequired && s.pipeline.epoch in owners
    && 0 <= s.pipeline.applied < |owners[s.pipeline.epoch].log|
    && ValidDelivery(d) && d.producer == s.producer && d.eventId !in s.receipts
    && d.body == Lifecycle(owners[s.pipeline.epoch].log[s.pipeline.applied].event)
  }

  /** The next published event is applied: no conflict, no gap, and it is the only receipt added. */
  lemma NextDeliveryApplies(owners: Owners, s: Store, d: Delivery, clock: Time)
    requires WellFormedOwners(owners) && Inv(owners, s) && DeliversNext(owners, s, d)
    ensures var r := Receive(s, d, clock);
            && r.Ok? && r.value.1 == Answer(false, Applied)
            && r.value.0.pipeline == s.pipeline.(applied := d.sequence, highest := Max(s.pipeline.highest, d.sequence))
            && r.value.0.receipts == s.receipts[d.eventId := Receipt(d, Applied)]
            && d.sequence == s.pipeline.applied + 1
  {
    NextApplies(s.pipeline.epoch, owners[s.pipeline.epoch], s.pipeline, s.live.value.facts);
    assert NoneBeyond(s.receipts, s.pipeline.epoch, s.pipeline.applied);
    assert Continues(s.pipeline.epoch, owners[s.pipeline.epoch], s.pipeline.applied);
    assert forall id | id in s.receipts :: !At(s.receipts[id], d.epoch, d.sequence)
      by { assert forall id | id in s.receipts :: !Beyond(s.receipts[id], s.pipeline.epoch, s.pipeline.applied); }
  }

  /** Published events from the applied position on, in order, under identities not used before. */
  predicate Backlog(owners: Owners, s: Store, ds: seq<Delivery>) {
    && s.live.Some? && !s.pipeline.snapshotRequired && s.pipeline.epoch in owners
    && 0 <= s.pipeline.applied && s.pipeline.applied + |ds| <= |owners[s.pipeline.epoch].log|
    && (forall k | 0 <= k < |ds| ::
          && ValidDelivery(ds[k]) && ds[k].producer == s.producer && ds[k].eventId !in s.receipts
          && ds[k].body == Lifecycle(owners[s.pipeline.epoch].log[s.pipeline.applied + k].event))
    && (forall j, k | 0 <= j < k < |ds| :: ds[j].eventId != ds[k].eventId)
  }

  ghost function Feed(s: Store, ds: seq<Delivery>): Store
    decreases |ds|
  {
    if ds == [] then s else Feed(Next(s, Deliver(ds[0], NoTime)), ds[1..])
  }

  lemma BacklogShrinks(owners: Owners, s: Store, ds: seq<Delivery>)
    requires WellFormedOwners(owners) && Inv(owners, s) && ds != [] && Backlog(owners, s, ds)
    ensures var next := Next(s, Deliver(ds[0], NoTime));
            Backlog(owners, next, ds[1..]) && next.pipeline.epoch == s.pipeline.epoch && next.pipeline.applied == s.pipeline.applied + 1
  {
    NextDeliveryApplies(owners, s, ds[0], NoTime);
    var next := Receive(s, ds[0], NoTime).value.0;
    assert next.producer == s.producer && next.live.Some?;
    var log := owners[s.pipeline.epoch].log;
    forall k | 0 <= k < |ds[1..]|
      ensures ds[1..][k].eventId !in next.receipts && ds[1..][k].body == Lifecycle(log[next.pipeline.applied + k].event)
    {
      assert ds[1..][k] == ds[k + 1] && ds[0].eventId != ds[k + 1].eventId;
    }
  }

  /** After an activation, in-order delivery of the rest reaches every entry without a new snapshot. */
  lemma {:induction false} BacklogCatchesUp(owners: Owners, s: Store, ds: seq<Delivery>)
    requires WellFormedOwners(owners) && Inv(owners, s) && Backlog(owners, s, ds)
    ensures Inv(owners, Feed(s, ds)) && CaughtUp(s, Feed(s, ds), |ds|)
    decreases |ds|
  {
    if ds != [] {
      BacklogShrinks(owners, s, ds);
      StepKeepsInv(owners, s, Deliver(ds[0], NoTime));
      BacklogCatchesUp(owners, Next(s, Deliver(ds[0], NoTime)), ds[1..]);
    }
  }

  predicate CaughtUp(s: Store, t: Store, n: nat) {
    t.live.Some? && !t.pipeline.snapshotRequired && t.pipeline.epoch == s.pipeline.epoch && t.pipeline.applied == s.pipeline.applied + n
  }

  // ---- A rebuild makes the projection fresh ---------------------------------------------------

  /** One owner never takes a tenant back, so a longer prefix covers a shorter one. */
  lemma {:induction false} LongerPrefixCovers(epoch: Uuid, o: Owner, m: nat, n: nat)
    requires WellFormed(epoch, o) && m <= n <= |o.log|
    ensures Covers(Fold(o, n), Fold(o, m))
    decreases n
  {
    if m < n {
      LongerPrefixCovers(epoch, o, m, n - 1);
      assert Continues(epoch, o, n - 1);
      FoldSound(epoch, o, n - 1);
      EntryCovers(Fold(o, n - 1), o.log[n - 1].event);
      CoversTransitive(Fold(o, m), Fold(o, n - 1), Fold(o, n));
    }
  }

  lemma {:induction false} FoldSound(epoch: Uuid, o: Owner, n: nat)
    requires WellFormed(epoch, o) && n <= |o.log|
    ensures SoundFacts(Fold(o, n))
    decreases n
  {
    if n > 0 {
      assert Continues(epoch, o, n - 1);
      FoldSound(epoch, o, n - 1);
    }
  }

  lemma EntryCovers(facts: Facts, e: Event)
    requires SoundFacts(facts)
    requires var before := FactAt(facts, e.tenantId);
             e.tenantVersion == before.version + 1 && Transition(before.status, e.status, before.version == 0)
    ensures Covers(facts[e.tenantId := FactOf(e)], facts)
  {}

  lemma AgreeingCovers(a: Facts, truthA: Facts, b: Facts, truthB: Facts)
    requires SameVersions(a, truthA) && SameVersions(b, truthB) && Covers(truthA, truthB)
    ensures Covers(a, b)
  {
    forall t | t in b ensures t in a && NotBehind(b[t], a[t]) { assert t in truthB && NotBehind(truthB[t], truthA[t]); }
  }

  /** The retained events of an epoch are complete from one position to the last one there is. */
  ghost predicate Complete(receipts: map<Uuid, Receipt>, epoch: Uuid, from: int, through: int) {
    (forall i | from < i <= through :: Retained(receipts, epoch, i)) && NothingBeyond(receipts, epoch, through)
  }

  /** A build on its way from b to the end of the backlog, never given up. */
  ghost predicate OnTheWay(owners: Owners, b: Build, c: Build, through: int) {
    c.epoch == b.epoch && b.appliedThrough <= c.appliedThrough <= through && c.state != Abandoned && PrefixOf(owners, c.epoch, c.appliedThrough, c.facts)
  }

  lemma StaysOnTheWay(owners: Owners, receipts: map<Uuid, Receipt>, b: Build, c: Build, through: int)
    requires WellFormedOwners(owners) && AllPublished(owners, receipts) && b.appliedThrough >= 0 && OnTheWay(owners, b, c, through)
    requires Complete(receipts, b.epoch, b.appliedThrough, through) && PendingAfter(receipts, c.epoch, c.appliedThrough)
    ensures OnTheWay(owners, b, AdvanceOne(receipts, c), through)
  {
    PendingUntilEnd(receipts, b.epoch, c.appliedThrough, through);
    AdvanceOnePrefix(owners, receipts, c);
  }

  /** A page long enough for a complete backlog takes the build to its end. */
  lemma AdvanceReachesEnd(owners: Owners, receipts: map<Uuid, Receipt>, b: Build, through: int, budget: nat)
    requires WellFormedOwners(owners) && AllPublished(owners, receipts) && PrefixOf(owners, b.epoch, b.appliedThrough, b.facts)
    requires b.appliedThrough <= through <= b.appliedThrough + budget && Complete(receipts, b.epoch, b.appliedThrough, through)
    requires b.state != Abandoned
    ensures var r := Advance(receipts, b, budget); r.appliedThrough == through && r.state == CatchingUp
  {
    var keeps := (c: Build) => OnTheWay(owners, b, c, through);
    forall c ensures Extends(receipts, c, keeps) {
      if keeps(c) && PendingAfter(receipts, c.epoch, c.appliedThrough) { StaysOnTheWay(owners, receipts, b, c, through); }
    }
    AdvanceKeeps(receipts, b, budget, keeps);
    AdvanceUsesItsBudget(receipts, b, budget);
    PendingUntilEnd(receipts, b.epoch, Advance(receipts, b, budget).appliedThrough, through);
  }

  lemma PendingUntilEnd(receipts: map<Uuid, Receipt>, epoch: Uuid, from: int, through: int)
    requires from <= through && Complete(receipts, epoch, from, through)
    ensures PendingAfter(receipts, epoch, from) <==> from < through
    ensures from < through ==> Retained(receipts, epoch, from + 1) && Complete(receipts, epoch, from + 1, through)
  {
    if from < through {
      assert Retained(receipts, epoch, through);
      var last :| last in receipts && At(receipts[last], epoch, through);
      assert Beyond(receipts[last], epoch, from);
    } else {
      assert forall id | id in receipts :: !Beyond(receipts[id], epoch, through);
    }
  }

  /** A valid heartbeat of the live epoch that reports exactly what is applied, never kept before. */
  predicate Confirms(s: Store, d: Delivery) {
    && ValidDelivery(d) && d.producer == s.producer && d.eventId !in s.receipts && d.body.Heartbeat?
    && d.epoch == s.pipeline.epoch && d.body.beat.committed == s.pipeline.applied && d.occurredAt > NoTime
  }

  /**
   * A complete projection is fresh once such a heartbeat arrives, and again with each later one even if
   * the owner commits nothing in between: until 30 seconds after the observation.
   */
  lemma HeartbeatFreshens(s: Store, d: Delivery, clock: Time, now: Time)
    requires s.live.Some? && !s.pipeline.snapshotRequired && s.pipeline.highest == s.pipeline.applied && Confirms(s, d)
    requires s.pipeline.beat == NoBeat
      || (&& s.pipeline.beat.id != d.eventId && s.pipeline.beat.observedAt < d.occurredAt
          && s.pipeline.beat.committed <= d.body.beat.committed && s.pipeline.beat.published <= d.body.beat.published)
    requires d.occurredAt <= clock <= now
    ensures Next(s, Deliver(d, clock)).live == s.live
    ensures Fresh(Next(s, Deliver(d, clock)).pipeline, now) <==> now < d.occurredAt + 30 * Second
  {
    NilIsNotV7();
  }

  /** The step is admissible and its epoch's backlog complete, against what is live now. */
  ghost predicate Rebuilds(owners: Owners, s: Store, id: Uuid, epoch: Uuid, w: int64, facts: Facts, through: int64) {
    && LifecycleId(id) && id !in s.builds && ValidSnapshotFacts(facts) && Truthful(owners, Load(id, epoch, w, facts))
    && (s.pipeline.epoch == epoch ==> s.pipeline.applied <= w)
    && w <= through <= |owners[epoch].log| && Complete(s.receipts, epoch, w, through)
    && (s.live.None? || s.pipeline.epoch == epoch || Covers(Fold(owners[epoch], through), s.live.value.facts))
  }

  lemma LoadStarts(s: Store, id: Uuid, epoch: Uuid, w: int64, facts: Facts)
    requires LifecycleId(id) && LifecycleId(epoch) && w >= 0 && id !in s.builds && ValidSnapshotFacts(facts)
    requires s.pipeline.epoch == epoch ==> s.pipeline.applied <= w
    ensures Next(s, Load(id, epoch, w, facts)) == s.(builds := s.builds[id := Build(epoch, LiveId(s), Loaded, BaseOf(facts), w)])
  {}

  /** The build as it stands after loading, and after catching up. */
  lemma RebuildCatchesUp(owners: Owners, s: Store, id: Uuid, epoch: Uuid, w: int64, facts: Facts, through: int64, page: nat)
    requires WellFormedOwners(owners) && Inv(owners, s) && Rebuilds(owners, s, id, epoch, w, facts, through) && w + page >= through
    ensures var t := Next(Next(s, Load(id, epoch, w, facts)), CatchUp(id, page));
            && Inv(owners, t) && t == s.(builds := t.builds) && Usable(t, id) && t.builds[id].base == LiveId(s)
            && t.builds[id].epoch == epoch && t.builds[id].appliedThrough == through
  {
    var loaded := Next(s, Load(id, epoch, w, facts));
    StepKeepsInv(owners, s, Load(id, epoch, w, facts));
    LoadStarts(s, id, epoch, w, facts);
    StepKeepsInv(owners, loaded, CatchUp(id, page));
    AdvanceReachesEnd(owners, s.receipts, loaded.builds[id], through, page);
  }

  lemma CaughtUpCovers(owners: Owners, s: Store, epoch: Uuid, through: int, facts: Facts)
    requires WellFormedOwners(owners) && Inv(owners, s) && s.live.Some? && PrefixOf(owners, epoch, through, facts)
    requires (s.pipeline.epoch == epoch && s.pipeline.applied <= through) || Covers(Fold(owners[epoch], through), s.live.value.facts)
    ensures Covers(facts, s.live.value.facts)
  {
    if s.pipeline.epoch == epoch && s.pipeline.applied <= through {
      LongerPrefixCovers(epoch, owners[epoch], s.pipeline.applied, through);
      AgreeingCovers(facts, Fold(owners[epoch], through), s.live.value.facts, Fold(owners[epoch], s.pipeline.applied));
    } else {
      AgreeingCovers(facts, Fold(owners[epoch], through), s.live.value.facts, s.live.value.facts);
    }
  }

  /** Loading a truthful snapshot, catching up and activating makes the owner's prefix live and complete. */
  lemma RebuildGoesLive(owners: Owners, s: Store, id: Uuid, epoch: Uuid, w: int64, facts: Facts, through: int64, page: nat)
    requires WellFormedOwners(owners) && Inv(owners, s) && Rebuilds(owners, s, id, epoch, w, facts, through) && w + page >= through
    ensures var t := Next(Next(Next(s, Load(id, epoch, w, facts)), CatchUp(id, page)), Activation(id));
            && t.live.Some? && t.live.value.id == id && PrefixOf(owners, epoch, through, t.live.value.facts)
            && t.pipeline == Pipeline(epoch, through, through, false, NoBeat, NoTime) && t.receipts == s.receipts && t.producer == s.producer
  {
    var ready := Next(Next(s, Load(id, epoch, w, facts)), CatchUp(id, page));
    RebuildCatchesUp(owners, s, id, epoch, w, facts, through, page);
    if s.live.Some? { CaughtUpCovers(owners, s, epoch, through, ready.builds[id].facts); }
    ReadyGoesLive(ready, id);
  }

  lemma ReadyGoesLive(s: Store, id: Uuid)
    requires Usable(s, id) && s.builds[id].base == LiveId(s) && s.builds[id].appliedThrough >= 0
    requires NothingBeyond(s.receipts, s.builds[id].epoch, s.builds[id].appliedThrough)
    requires s.pipeline.epoch == s.builds[id].epoch ==> s.pipeline.applied <= s.builds[id].appliedThrough
    requires s.live.Some? ==> Covers(s.builds[id].facts, s.live.value.facts)
    ensures var b := s.builds[id]; var t := Next(s, Activation(id));
            && t.pipeline == Pipeline(b.epoch, b.appliedThrough, b.appliedThrough, false, NoBeat, NoTime)
            && t.live == Some(Generation(id, b.facts)) && t.receipts == s.receipts && t.producer == s.producer
  {
    WithinIsNothingBeyond(s.receipts, s.builds[id].epoch, s.builds[id].appliedThrough);
  }

  /**
   * From every reachable store, the first one included: a truthful snapshot, its catch-up over a
   * complete backlog, the activation and one heartbeat at the owner's count make the projection fresh.
   */
  lemma RebuildBecomesFresh(owners: Owners, producer: string, steps: seq<Step>, id: Uuid, epoch: Uuid, w: int64, facts: Facts,
                            through: int64, page: nat, d: Delivery, clock: Time, now: Time)
    requires WellFormedOwners(owners) && AllTruthful(owners, steps)
    requires Rebuilds(owners, Run(Initial(producer), steps), id, epoch, w, facts, through) && w + page >= through
    requires d.body.Heartbeat? && ValidDelivery(d) && d.producer == producer && d.eventId !in Run(Initial(producer), steps).receipts
    requires d.epoch == epoch && d.body.beat.committed == through && NoTime < d.occurredAt <= clock <= now < d.occurredAt + 30 * Second
    ensures var s := Run(Initial(producer), steps);
            var t := Next(Next(Next(Next(s, Load(id, epoch, w, facts)), CatchUp(id, page)), Activation(id)), Deliver(d, clock));
            Fresh(t.pipeline, now) && t.live.Some? && PrefixOf(owners, epoch, through, t.live.value.facts)
  {
    var s := Run(Initial(producer), steps);
    ReachableIsPrefix(owners, producer, steps);
    ProducerStays(Initial(producer), steps);
    RebuildGoesLive(owners, s, id, epoch, w, facts, through, page);
    var live := Next(Next(Next(s, Load(id, epoch, w, facts)), CatchUp(id, page)), Activation(id));
    HeartbeatFreshens(live, d, clock, now);
  }
}
