/**
 * The stored side of lifecycle replication: deliveries, shadow generations, catch-up and
 * activation over the durable pipeline row, as in internal/data/governance_lifecycle.go and
 * internal/data/governance_snapshot_rebuild.go. Every transaction is one step.
 */
module TenantReplication {
  import opened Ids
  import opened TenantLifecycle

  type Facts = map<Uuid, Fact>

  datatype Body = Lifecycle(event: Event) | Heartbeat(beat: Beat) | Bootstrap(operationId: Uuid)

  datatype Delivery = Delivery(
    eventId: Uuid, epoch: Uuid, tenantId: Uuid, producer: string,
    sequence: int64, occurredAt: Time, payload: seq<byte>, body: Body)

  datatype Receipt = Receipt(delivery: Delivery, outcome: Outcome)

  /** One retained response to a delivery: a fresh receipt, or the earlier one again. */
  datatype Answer = Answer(duplicate: bool, outcome: Outcome)

  datatype Generation = Generation(id: Uuid, facts: Facts)

  datatype BuildState = Loaded | CatchingUp | Activated | Abandoned

  /** A shadow generation; `base` is the live generation it was started against. */
  datatype Build = Build(epoch: Uuid, base: Option<Uuid>, state: BuildState, facts: Facts, appliedThrough: int64)

  /** `builds` is keyed by snapshot id, which also names the generation it may become. */
  datatype Store = Store(
    producer: string,
    pipeline: Pipeline,
    live: Option<Generation>,
    receipts: map<Uuid, Receipt>,
    builds: map<Uuid, Build>)

  /** The source catches up in pages of 500; every page size is covered here. */
  datatype Step =
    | Deliver(delivery: Delivery, clock: Time)
    | Load(id: Uuid, epoch: Uuid, watermark: int64, facts: Facts)
    | CatchUp(id: Uuid, page: nat)
    | Activation(id: Uuid)
    | Abandon(id: Uuid)

  function Initial(producer: string): Store {
    Store(producer, Pipeline(NilId, 0, 0, true, NoBeat, NoTime), None, map[], map[])
  }

  function FactAt(facts: Facts, tenant: Uuid): Fact { if tenant in facts then facts[tenant] else NoFact }

  function FactsOf(live: Option<Generation>): Facts { if live.Some? then live.value.facts else map[] }

  predicate ValidDelivery(d: Delivery) {
    && LifecycleId(d.eventId) && LifecycleId(d.epoch) && d.occurredAt != NoTime && 0 < |d.payload| <= 65536
    && match d.body
       case Lifecycle(e) =>
         && ValidEvent(e) && e.eventId == d.eventId && e.epoch == d.epoch && e.tenantId == d.tenantId
         && e.sequence == d.sequence && e.occurredAt == d.occurredAt
       case Heartbeat(h) =>
         && ValidBeat(h) && h.id == d.eventId && h.epoch == d.epoch && d.tenantId == NilId
         && d.sequence == 0 && h.observedAt == d.occurredAt
       case Bootstrap(_) => IsV7(d.tenantId) && d.sequence >= 1
  }

  /** The unique index on (epoch, source sequence) of retained lifecycle receipts. */
  predicate Retained(receipts: map<Uuid, Receipt>, epoch: Uuid, sequence: int) {
    exists id :: id in receipts && At(receipts[id], epoch, sequence)
  }

  predicate At(r: Receipt, epoch: Uuid, sequence: int) {
    r.delivery.body.Lifecycle? && r.delivery.epoch == epoch && r.delivery.sequence == sequence
  }

  function Keep(s: Store, d: Delivery, p: Pipeline, live: Option<Generation>, outcome: Outcome): (r: Result<(Store, Answer)>) {
    if d.body.Lifecycle? && Retained(s.receipts, d.epoch, d.sequence) then Conflict
    else Ok((s.(pipeline := p, live := live, receipts := s.receipts[d.eventId := Receipt(d, outcome)]), Answer(false, outcome)))
  }

  /** applyTenantIntegration: one delivery under the pipeline row lock. */
  function Receive(s: Store, d: Delivery, clock: Time): (r: Result<(Store, Answer)>) {
    if !ValidDelivery(d) || d.producer != s.producer then Invalid
    else if d.eventId in s.receipts then
      if s.receipts[d.eventId].delivery != d then Conflict
      else Ok((s, Answer(true, s.receipts[d.eventId].outcome)))
    else match d.body
      case Lifecycle(e) => (
        match Project(s.pipeline, FactAt(FactsOf(s.live), d.tenantId), e)
        case Ok(u) =>
          if u.outcome == Applied then
            if s.live.None? then Invalid
            else Keep(s, d, u.pipeline, Some(s.live.value.(facts := s.live.value.facts[d.tenantId := u.fact])), u.outcome)
          else Keep(s, d, u.pipeline, s.live, u.outcome)
        case Invalid => Invalid
        case Conflict => Conflict
        case Missing => Missing)
      case Heartbeat(h) => (
        match Observe(s.pipeline, h, clock)
        case Ok(o) => Keep(s, d, o.0, s.live, o.1)
        case Invalid => Invalid
        case Conflict => Conflict
        case Missing => Missing)
      case Bootstrap(_) => Keep(s, d, s.pipeline, s.live, BootstrapKept)
  }

  predicate ValidSnapshotFacts(facts: Facts) {
    forall t | t in facts :: LifecycleId(t) && facts[t].version >= 1 && KnownStatus(facts[t].status)
  }

  /** A snapshot page carries versions and statuses only. */
  function BaseOf(facts: Facts): (b: Facts)
    ensures b.Keys == facts.Keys
  { map t | t in facts :: Fact(facts[t].version, facts[t].status, "", NoTime, true) }

  function LiveId(s: Store): Option<Uuid> { if s.live.Some? then Some(s.live.value.id) else None }

  predicate Usable(s: Store, id: Uuid) {
    id in s.builds && (s.builds[id].state == Loaded || s.builds[id].state == CatchingUp)
  }

  predicate Begins(s: Store, id: Uuid, epoch: Uuid, watermark: int64) {
    && LifecycleId(id) && LifecycleId(epoch) && watermark >= 0 && id !in s.builds
    && !(s.pipeline.epoch == epoch && watermark < s.pipeline.applied)
  }

  /** Any retained increment of the epoch behind the cursor's next position. */
  predicate PendingAfter(receipts: map<Uuid, Receipt>, epoch: Uuid, sequence: int) {
    exists id :: id in receipts && Beyond(receipts[id], epoch, sequence)
  }

  predicate Beyond(r: Receipt, epoch: Uuid, sequence: int) {
    r.delivery.body.Lifecycle? && r.delivery.epoch == epoch && r.delivery.sequence > sequence
  }

  ghost function EventAt(receipts: map<Uuid, Receipt>, epoch: Uuid, sequence: int): (e: Event)
    requires Retained(receipts, epoch, sequence)
    ensures exists id :: id in receipts && At(receipts[id], epoch, sequence) && receipts[id].delivery.body.event == e
  {
    var id :| id in receipts && At(receipts[id], epoch, sequence);
    receipts[id].delivery.body.event
  }

  /** One page of catch-up: increments in position order, none missing, each applied by the projector. */
  ghost function Advance(receipts: map<Uuid, Receipt>, b: Build, budget: nat): (r: Build)
    requires b.appliedThrough >= 0
    ensures r.epoch == b.epoch && r.base == b.base && r.appliedThrough >= b.appliedThrough
    decreases budget
  {
    if budget == 0 || !PendingAfter(receipts, b.epoch, b.appliedThrough) then b.(state := CatchingUp)
    else
      var next := AdvanceOne(receipts, b);
      if next.state == Abandoned then next else Advance(receipts, next, budget - 1)
  }

  ghost function AdvanceOne(receipts: map<Uuid, Receipt>, b: Build): (r: Build)
    requires b.appliedThrough >= 0
    ensures r.epoch == b.epoch && r.base == b.base && r.appliedThrough >= b.appliedThrough
  {
    if !Retained(receipts, b.epoch, b.appliedThrough + 1) then b.(state := Abandoned)
    else
      match Incremented(b, EventAt(receipts, b.epoch, b.appliedThrough + 1))
      case Ok(next) => next.(state := CatchingUp)
      case _ => b.(state := Abandoned)
  }

  /** One retained event over a shadow generation; anything but a plain application is refused. */
  function Incremented(b: Build, e: Event): (r: Result<Build>)
    requires b.appliedThrough >= 0
    ensures r.Ok? ==> r.value.appliedThrough == b.appliedThrough + 1 && r.value.epoch == b.epoch && r.value.base == b.base
  {
    match TenantLifecycle.Activate(b.epoch, b.appliedThrough, b.appliedThrough)
    case Ok(p) => (
      match Project(p, FactAt(b.facts, e.tenantId), e)
      case Ok(u) =>
        if u.outcome != Applied then Conflict
        else Ok(b.(facts := b.facts[e.tenantId := u.fact], appliedThrough := u.pipeline.applied))
      case _ => Conflict)
    case _ => Invalid
  }

  /** `through` is at least TenantSnapshotHighest, over lifecycle positions and heartbeat commits. */
  predicate ReachesHighest(receipts: map<Uuid, Receipt>, epoch: Uuid, through: int) {
    && through >= 0
    && forall id | id in receipts && receipts[id].delivery.epoch == epoch :: Within(receipts[id].delivery, through)
  }

  predicate Within(d: Delivery, through: int) {
    match d.body
    case Lifecycle(_) => d.sequence <= through
    case Heartbeat(h) => h.committed <= through
    case Bootstrap(_) => true
  }

  /** TenantSnapshotCoversCurrent. */
  predicate Covers(replacement: Facts, current: Facts) {
    forall t | t in current :: t in replacement && NotBehind(current[t], replacement[t])
  }

  predicate NotBehind(old_: Fact, new_: Fact) {
    && new_.version >= old_.version
    && (new_.version == old_.version ==> new_.status == old_.status)
    && (old_.status == Disabled ==> new_.status == Disabled)
  }

  function Switch(s: Store, id: Uuid): (r: Store) requires Usable(s, id) {
    var b := s.builds[id];
    if b.base != LiveId(s) then s.(builds := s.builds[id := b.(state := Abandoned)])
    else if !ReachesHighest(s.receipts, b.epoch, b.appliedThrough)
      || (s.pipeline.epoch == b.epoch && b.appliedThrough < s.pipeline.applied) then s
    else if s.live.Some? && !Covers(b.facts, s.live.value.facts) then s.(builds := s.builds[id := b.(state := Abandoned)])
    else s.(
      pipeline := Pipeline(b.epoch, b.appliedThrough, b.appliedThrough, false, NoBeat, NoTime),
      live := Some(Generation(id, b.facts)),
      builds := s.builds[id := b.(state := Activated)])
  }

  /** The committed effect of one transaction; a refused one rolls back to the same store. */
  ghost function Next(s: Store, step: Step): (r: Store) {
    match step
    case Deliver(d, clock) => (match Receive(s, d, clock) case Ok(v) => v.0 case _ => s)
    case Load(id, epoch, watermark, facts) =>
      if Begins(s, id, epoch, watermark) && ValidSnapshotFacts(facts)
      then s.(builds := s.builds[id := Build(epoch, LiveId(s), Loaded, BaseOf(facts), watermark)])
      else s
    case CatchUp(id, page) =>
      if !Usable(s, id) || s.builds[id].appliedThrough < 0 then s
      else if s.builds[id].base != LiveId(s) then s.(builds := s.builds[id := s.builds[id].(state := Abandoned)])
      else s.(builds := s.builds[id := Advance(s.receipts, s.builds[id], page)])
    case Activation(id) => if Usable(s, id) then Switch(s, id) else s
    case Abandon(id) => if Usable(s, id) then s.(builds := s.builds[id := s.builds[id].(state := Abandoned)]) else s
  }

  ghost function Run(s: Store, steps: seq<Step>): (r: Store) {
    if steps == [] then s else Next(Run(s, steps[..|steps| - 1]), steps[|steps| - 1])
  }

  // ---- What no input can do, truthful or not -------------------------------------------------

  /** tenant_version > 0 and a known status on every stored fact row. */
  predicate Sound(s: Store) {
    && (s.live.Some? ==> SoundFacts(s.live.value.facts))
    && forall id | id in s.builds :: SoundFacts(s.builds[id].facts)
  }

  predicate SoundFacts(facts: Facts) { forall t | t in facts :: facts[t].version >= 1 }

  predicate NeverRegresses(a: Store, b: Store) {
    && (a.live.Some? ==> b.live.Some? && Covers(b.live.value.facts, a.live.value.facts))
    && (forall id | id in a.receipts :: id in b.receipts && a.receipts[id] == b.receipts[id])
  }

  /** Taking the next increment, while there is one, keeps the property. */
  ghost predicate Extends(receipts: map<Uuid, Receipt>, c: Build, keeps: Build -> bool) {
    keeps(c) && c.appliedThrough >= 0 && PendingAfter(receipts, c.epoch, c.appliedThrough) ==> keeps(AdvanceOne(receipts, c))
  }

  /** An increment-by-increment property of a shadow generation holds after a whole page. */
  lemma {:induction false} AdvanceKeeps(receipts: map<Uuid, Receipt>, b: Build, budget: nat, keeps: Build -> bool)
    requires forall c | keeps(c) :: c.appliedThrough >= 0 && keeps(c.(state := CatchingUp))
    requires forall c :: Extends(receipts, c, keeps)
    requires keeps(b)
    ensures keeps(Advance(receipts, b, budget))
    decreases budget
  {
    if budget > 0 && PendingAfter(receipts, b.epoch, b.appliedThrough) {
      var next := AdvanceOne(receipts, b);
      assert Extends(receipts, b, keeps);
      if next.state != Abandoned { AdvanceKeeps(receipts, next, budget - 1, keeps); }
    }
  }

  /** A page that is not given up stops short of its budget only with nothing left. */
  lemma {:induction false} AdvanceUsesItsBudget(receipts: map<Uuid, Receipt>, b: Build, budget: nat)
    requires b.appliedThrough >= 0
    ensures var r := Advance(receipts, b, budget);
            r.state == Abandoned || (r.state == CatchingUp && (r.appliedThrough >= b.appliedThrough + budget || !PendingAfter(receipts, r.epoch, r.appliedThrough)))
    decreases budget
  {
    if budget > 0 && PendingAfter(receipts, b.epoch, b.appliedThrough) {
      var next := AdvanceOne(receipts, b);
      if next.state != Abandoned { AdvanceUsesItsBudget(receipts, next, budget - 1); }
    }
  }

  lemma AdvanceSound(receipts: map<Uuid, Receipt>, b: Build, budget: nat)
    requires b.appliedThrough >= 0 && SoundFacts(b.facts)
    ensures SoundFacts(Advance(receipts, b, budget).facts)
  {
    var keeps := (c: Build) => c.appliedThrough >= 0 && SoundFacts(c.facts);
    AdvanceKeeps(receipts, b, budget, keeps);
  }

  lemma ReceiveSound(s: Store, d: Delivery, clock: Time)
    requires Sound(s) && Receive(s, d, clock).Ok?
    ensures Sound(Receive(s, d, clock).value.0)
  {}

  lemma StepSound(s: Store, step: Step)
    requires Sound(s)
    ensures Sound(Next(s, step))
  {
    match step
    case Deliver(d, clock) => if Receive(s, d, clock).Ok? { ReceiveSound(s, d, clock); }
    case CatchUp(id, page) =>
      if Usable(s, id) && s.builds[id].appliedThrough >= 0 { AdvanceSound(s.receipts, s.builds[id], page); }
    case _ =>
  }

  lemma ProjectedCovers(p: Pipeline, facts: Facts, t: Uuid, e: Event)
    requires SoundFacts(facts)
    ensures var r := Project(p, FactAt(facts, t), e);
            r.Ok? ==> Covers(facts[t := r.value.fact], facts) || r.value.outcome != Applied
  {}

  lemma ReceiveCovers(s: Store, d: Delivery, clock: Time)
    requires Sound(s) && Receive(s, d, clock).Ok?
    ensures NeverRegresses(s, Receive(s, d, clock).value.0)
  {
    if s.live.Some? && d.body.Lifecycle? { ProjectedCovers(s.pipeline, s.live.value.facts, d.tenantId, d.body.event); }
  }

  /** A delivery moves the applied position by one at most, and nothing at all while a snapshot is required. */
  lemma ReceiveMovesOne(s: Store, d: Delivery, clock: Time)
    requires Receive(s, d, clock).Ok?
    ensures var t := Receive(s, d, clock).value.0;
            && t.pipeline.epoch == s.pipeline.epoch
            && s.pipeline.applied <= t.pipeline.applied <= s.pipeline.applied + 1
            && (s.pipeline.snapshotRequired ==>
                  t.live == s.live && t.pipeline.applied == s.pipeline.applied && t.pipeline.snapshotRequired)
  {}

  lemma SwitchNeverRegresses(s: Store, id: Uuid)
    requires Usable(s, id)
    ensures var t := Switch(s, id);
            NeverRegresses(s, t) && (t.pipeline.epoch == s.pipeline.epoch ==> s.pipeline.applied <= t.pipeline.applied)
  {}

  /**
   * One transaction, whatever its input: no tenant loses a version, changes status under a version
   * or leaves disabled; the applied position of an epoch never falls and, activation aside, moves
   * by one at most; while a snapshot is required only an activation changes facts or position.
   */
  lemma StepNeverRegresses(s: Store, step: Step)
    requires Sound(s)
    ensures NeverRegresses(s, Next(s, step))
    ensures Next(s, step).pipeline.epoch == s.pipeline.epoch ==> s.pipeline.applied <= Next(s, step).pipeline.applied
    ensures !step.Activation? ==>
              && Next(s, step).pipeline.epoch == s.pipeline.epoch
              && Next(s, step).pipeline.applied <= s.pipeline.applied + 1
    ensures s.pipeline.snapshotRequired && !step.Activation? ==>
              && Next(s, step).live == s.live
              && Next(s, step).pipeline.applied == s.pipeline.applied
              && Next(s, step).pipeline.snapshotRequired
  {
    match step
    case Deliver(d, clock) => if Receive(s, d, clock).Ok? { ReceiveCovers(s, d, clock); ReceiveMovesOne(s, d, clock); }
    case Activation(id) => if Usable(s, id) { SwitchNeverRegresses(s, id); }
    case _ =>
  }

  lemma CoversTransitive(a: Facts, b: Facts, c: Facts)
    requires Covers(b, a) && Covers(c, b)
    ensures Covers(c, a)
  {
    forall t | t in a ensures t in c && NotBehind(a[t], c[t]) { assert NotBehind(a[t], b[t]) && NotBehind(b[t], c[t]); }
  }

  /** Over any run from any sound store; disabled tenants in particular stay disabled for good. */
  lemma {:induction false} RunNeverRegresses(s: Store, steps: seq<Step>)
    requires Sound(s)
    ensures Sound(Run(s, steps)) && NeverRegresses(s, Run(s, steps))
    decreases |steps|
  {
    if steps != [] {
      var before := Run(s, steps[..|steps| - 1]);
      RunNeverRegresses(s, steps[..|steps| - 1]);
      StepSound(before, steps[|steps| - 1]);
      StepNeverRegresses(before, steps[|steps| - 1]);
      if s.live.Some? {
        CoversTransitive(s.live.value.facts, before.live.value.facts, Run(s, steps).live.value.facts);
      }
    }
  }

  /** An accepted event is inside the applied prefix or leaves the pipeline asking for a snapshot. */
  lemma NothingSilentlySkipped(s: Store, d: Delivery, clock: Time)
    requires d.body.Lifecycle? && d.eventId !in s.receipts && Receive(s, d, clock).Ok?
    ensures var p := Receive(s, d, clock).value.0.pipeline;
            p.snapshotRequired || (d.epoch == p.epoch && d.sequence <= p.applied)
    ensures var r := Receive(s, d, clock).value;
            r.1.outcome == Applied <==> r.0.pipeline.applied == s.pipeline.applied + 1
  {}

  /** A redelivery, however much later, changes nothing and reports the first outcome. */
  lemma RedeliveryIsNoOp(s: Store, d: Delivery, clock: Time, later: seq<Step>, laterClock: Time)
    requires Sound(s) && Receive(s, d, clock).Ok?
    ensures var (first, answer) := Receive(s, d, clock).value;
            var t := Run(first, later);
            Receive(t, d, laterClock) == Ok((t, Answer(true, answer.outcome)))
  {
    var first := Receive(s, d, clock).value.0;
    ReceiveSound(s, d, clock);
    RunNeverRegresses(first, later);
    ProducerStays(first, later);
    assert first.receipts[d.eventId].delivery == d;
  }

  lemma {:induction false} ProducerStays(s: Store, steps: seq<Step>)
    ensures Run(s, steps).producer == s.producer
    decreases |steps|
  {
    if steps != [] { ProducerStays(s, steps[..|steps| - 1]); }
  }

  /** While a heartbeat is held its watermarks only rise; nothing but an activation lowers them, to none. */
  lemma WatermarksNeverFall(s: Store, step: Step)
    ensures var a, b := s.pipeline.beat, Next(s, step).pipeline.beat;
            b == NoBeat || b == a || (a.committed <= b.committed && a.published <= b.published && a.observedAt < b.observedAt)
    ensures s.pipeline.beat != NoBeat && Next(s, step).pipeline.beat == NoBeat ==> step.Activation?
  {
    if step.Deliver? && step.delivery.body.Heartbeat? && Receive(s, step.delivery, step.clock).Ok? { BeatWatermarks(s, step.delivery, step.clock); }
  }

  lemma BeatWatermarks(s: Store, d: Delivery, clock: Time)
    requires d.body.Heartbeat? && Receive(s, d, clock).Ok?
    ensures var a, b := s.pipeline.beat, Receive(s, d, clock).value.0.pipeline.beat;
            b == a || (b != NoBeat && a.committed <= b.committed && a.published <= b.published && a.observedAt < b.observedAt)
  {
    NilIsNotV7();
  }

  /** A build whose base generation is no longer live neither advances nor goes live: it is abandoned. */
  lemma SupersededBuildIsAbandoned(s: Store, id: Uuid, page: nat)
    requires Usable(s, id) && s.builds[id].base != LiveId(s) && s.builds[id].appliedThrough >= 0
    ensures var t := s.(builds := s.builds[id := s.builds[id].(state := Abandoned)]);
            Next(s, Activation(id)) == t && Next(s, CatchUp(id, page)) == t && !Usable(t, id)
  {}

  /** Going live takes every retained event and every reported commit of the epoch, and nothing less. */
  lemma ActivationIsComplete(s: Store, id: Uuid)
    requires Usable(s, id) && Next(s, Activation(id)).live != s.live
    ensures var b := s.builds[id]; var t := Next(s, Activation(id));
            && ReachesHighest(s.receipts, b.epoch, b.appliedThrough)
            && t.live == Some(Generation(id, b.facts)) && t.pipeline.epoch == b.epoch
            && t.pipeline.applied == t.pipeline.highest == b.appliedThrough && !t.pipeline.snapshotRequired && !Usable(t, id)
  {}

  /** The live generation came from a build that was activated, so its own build is spent. */
  predicate LiveIsSpent(s: Store) { s.live.Some? ==> s.live.value.id in s.builds && s.builds[s.live.value.id].state == Activated }

  lemma {:induction false} LiveStaysSpent(s: Store, steps: seq<Step>)
    requires LiveIsSpent(s)
    ensures LiveIsSpent(Run(s, steps))
    decreases |steps|
  {
    if steps != [] {
      var before := Run(s, steps[..|steps| - 1]);
      LiveStaysSpent(s, steps[..|steps| - 1]);
      StepKeepsSpent(before, steps[|steps| - 1]);
    }
  }

  lemma StepKeepsSpent(s: Store, step: Step)
    requires LiveIsSpent(s)
    ensures LiveIsSpent(Next(s, step))
  {
    if step.Deliver? && Receive(s, step.delivery, step.clock).Ok? { ReceiveKeepsGeneration(s, step.delivery, step.clock); }
  }

  lemma ReceiveKeepsGeneration(s: Store, d: Delivery, clock: Time)
    requires Receive(s, d, clock).Ok?
    ensures var t := Receive(s, d, clock).value.0; t.builds == s.builds && LiveId(t) == LiveId(s)
  {}

  /** Every retained position and every reported commit of the epoch is within `through`. */
  predicate NothingBeyond(receipts: map<Uuid, Receipt>, epoch: Uuid, through: int) {
    forall id | id in receipts && receipts[id].delivery.epoch == epoch ::
      && (receipts[id].delivery.body.Lifecycle? ==> receipts[id].delivery.sequence <= through)
      && (receipts[id].delivery.body.Heartbeat? ==> receipts[id].delivery.body.beat.committed <= through)
  }

  /**
   * When a build goes live: it was started against what is live now, reaches everything retained and
   * reported of its epoch, is not behind the position applied in it, and takes no tenant back. With no
   * generation live only the first three count. Otherwise what is live stays.
   */
  lemma GoesLiveIff(s: Store, id: Uuid)
    requires LiveIsSpent(s) && Usable(s, id)
    ensures var b := s.builds[id]; var t := Next(s, Activation(id));
            && (t.live == Some(Generation(id, b.facts)) <==>
                  && (if s.live.Some? then b.base == Some(s.live.value.id) else b.base == None)
                  && b.appliedThrough >= 0 && NothingBeyond(s.receipts, b.epoch, b.appliedThrough)
                  && (s.pipeline.epoch == b.epoch ==> s.pipeline.applied <= b.appliedThrough)
                  && (s.live.Some? ==> forall x | x in s.live.value.facts ::
                        var old_ := s.live.value.facts[x];
                        && x in b.facts && old_.version <= b.facts[x].version
                        && (old_.version == b.facts[x].version ==> old_.status == b.facts[x].status)
                        && (old_.status == Disabled ==> b.facts[x].status == Disabled)))
            && (t.live == Some(Generation(id, b.facts)) || (t.live == s.live && t.pipeline == s.pipeline))
  {
    var b := s.builds[id];
    assert ReachesHighest(s.receipts, b.epoch, b.appliedThrough) <==> b.appliedThrough >= 0 && NothingBeyond(s.receipts, b.epoch, b.appliedThrough) by {
      WithinIsNothingBeyond(s.receipts, b.epoch, b.appliedThrough);
    }
  }

  lemma WithinIsNothingBeyond(receipts: map<Uuid, Receipt>, epoch: Uuid, through: int)
    ensures ReachesHighest(receipts, epoch, through) <==> through >= 0 && NothingBeyond(receipts, epoch, through)
  {}
}
