/**
 * The per-tenant Core projection of internal/biz/core_lifecycle_projection.go. Effective times
 * arrive in nanoseconds and are kept truncated to microseconds.
 */
module CoreProjection {
  import opened Ids

  datatype Status = NoStatus | Active | Frozen | Disabled | OtherStatus(text: string)
  datatype Reason = NoReason | Created | Restored | AdministrativeFreeze | BillingSuspension
                  | UserRequestedDeactivation | OtherReason(text: string)
  datatype Kind = Heartbeat | Bootstrap | Lifecycle | OtherKind(text: string)

  type Nanos = int

  datatype Message = Message(
    eventId: Uuid, tenantId: Uuid, kind: Kind, sourceSequence: int64, occurredAt: Nanos,
    payload: seq<byte>, version: int64, status: Status, reason: Reason, effectiveAt: Nanos)

  datatype Projection = Projection(
    version: int64, required: int64, status: Status, reason: Reason, effectiveAt: Nanos,
    repair: bool, snapshotBase: bool)

  datatype Outcome = Applied | AwaitingSnapshot | Older | SameVersion | VersionGap

  datatype Result = Ok(next: Projection, outcome: Outcome) | Invalid | Conflict

  const Placeholder := Projection(0, 0, NoStatus, NoReason, 0, false, false)

  function Truncate(t: Nanos): Nanos { t - t % 1000 }

  predicate StatusFits(status: Status, reason: Reason) {
    match status
    case Active => reason == Created || reason == Restored
    case Frozen => reason == AdministrativeFreeze || reason == BillingSuspension
    case Disabled => reason == UserRequestedDeactivation
    case _ => false
  }

  predicate Bare(m: Message) {
    m.version == 0 && m.status == NoStatus && m.reason == NoReason && m.effectiveAt == 0
  }

  predicate Valid(m: Message) {
    && IsV7(m.eventId) && m.sourceSequence >= 1 && m.occurredAt != 0 && 0 < |m.payload| <= 65536
    && match m.kind
       case Heartbeat => m.tenantId == NilId && Bare(m)
       case Bootstrap => IsV7(m.tenantId) && Bare(m)
       case Lifecycle => IsV7(m.tenantId) && m.version >= 1 && m.effectiveAt != 0 && StatusFits(m.status, m.reason)
       case OtherKind(_) => false
  }

  function Recorded(m: Message): Projection {
    Projection(m.version, m.version, m.status, m.reason, Truncate(m.effectiveAt), false, false)
  }

  function Project(p: Projection, m: Message): (r: Result)
    ensures r.Ok? && r.outcome == VersionGap ==> r.next.repair && r.next.required > p.version
  {
    if !Valid(m) || m.kind != Lifecycle then Invalid
    else if p.repair then Ok(p.(required := Max(p.required, m.version)), AwaitingSnapshot)
    else if m.version < p.version then Ok(p, Older)
    else if m.version == p.version then
      if m.status != p.status || (!p.snapshotBase && (m.reason != p.reason || Truncate(m.effectiveAt) != Truncate(p.effectiveAt)))
      then Conflict
      else if p.snapshotBase then Ok(Recorded(m), Applied)
      else Ok(p, SameVersion)
    else
      var next: int64 := p.version + 1;
      if m.version != next then Ok(p.(repair := true, required := m.version), VersionGap)
      else if p.status == Disabled || (p.version == 0 && (m.status != Active || m.reason != Created)) then Conflict
      else Ok(Recorded(m), Applied)
  }

  /** Which reasons each status may carry, and nothing else is a lifecycle message. */
  predicate WholeLifecycle(m: Message) {
    && m.kind == Lifecycle && m.eventId.octets[6] / 16 == 7 && m.tenantId.octets[6] / 16 == 7
    && m.sourceSequence > 0 && m.occurredAt != 0 && m.payload != [] && |m.payload| <= 65536 && m.version > 0 && m.effectiveAt != 0
    && (m.status, m.reason) in {(Active, Created), (Active, Restored), (Frozen, AdministrativeFreeze), (Frozen, BillingSuspension), (Disabled, UserRequestedDeactivation)}
  }

  /** The other kinds carry no lifecycle fact; a heartbeat names no tenant. */
  lemma ValidIff(m: Message)
    ensures Valid(m) <==>
              || WholeLifecycle(m)
              || (&& (m.kind == Heartbeat || m.kind == Bootstrap) && m.eventId.octets[6] / 16 == 7 && m.sourceSequence > 0 && m.occurredAt != 0
                  && m.payload != [] && |m.payload| <= 65536 && (m.version, m.status, m.reason, m.effectiveAt) == (0, NoStatus, NoReason, 0)
                  && (if m.kind == Heartbeat then m.tenantId == NilId else m.tenantId.octets[6] / 16 == 7))
  {}

  /** The same version tells the same; a bare snapshot base only knows the status. */
  predicate Contradicts(p: Projection, m: Message) {
    m.status != p.status || (!p.snapshotBase && (m.reason != p.reason || m.effectiveAt / 1000 != p.effectiveAt / 1000))
  }

  /** The record a message becomes, its effective time in whole microseconds. */
  function RecordOf(m: Message): Projection { Projection(m.version, m.version, m.status, m.reason, m.effectiveAt / 1000 * 1000, false, false) }

  /**
   * What a message is taken for: what is recorded, what is only counted, what asks for a repair and what is
   * refused. A disabled tenant ends, and a tenant begins as created.
   */
  lemma ProjectedExactly(p: Projection, m: Message)
    ensures Project(p, m) ==
              if !WholeLifecycle(m) then Invalid
              else if p.repair then Ok(p.(required := Max(p.required, m.version)), AwaitingSnapshot)
              else if m.version < p.version then Ok(p, Older)
              else if m.version == p.version && Contradicts(p, m) then Conflict
              else if m.version == p.version then if p.snapshotBase then Ok(RecordOf(m), Applied) else Ok(p, SameVersion)
              else if m.version > p.version + 1 then Ok(p.(repair := true, required := m.version), VersionGap)
              else if p.status == Disabled || (p.version == 0 && (m.status, m.reason) != (Active, Created)) then Conflict
              else Ok(RecordOf(m), Applied)
  {
    assert Truncate(m.effectiveAt) == m.effectiveAt / 1000 * 1000 && Truncate(p.effectiveAt) == p.effectiveAt / 1000 * 1000;
  }

  /** A refused message rolls back; the projection stays as it was. */
  function Step(p: Projection, m: Message): Projection {
    match Project(p, m) case Ok(next, _) => next case _ => p
  }

  function Run(p: Projection, ms: seq<Message>): Projection
    decreases |ms|
  {
    if ms == [] then p else Step(Run(p, ms[..|ms| - 1]), ms[|ms| - 1])
  }

  // ---- Any input ------------------------------------------------------------------------------

  /** Every success is idempotent: presenting the same message again changes nothing. */
  lemma RedeliveryIdempotent(p: Projection, m: Message)
    requires Project(p, m).Ok?
    ensures Project(Project(p, m).next, m).Ok?
    ensures Project(Project(p, m).next, m).next == Project(p, m).next
    ensures Project(p, m).outcome != Applied && Project(p, m).outcome != VersionGap ==>
              Project(Project(p, m).next, m).outcome == Project(p, m).outcome
  {}

  /** A repair is owed for a version not reached; without one nothing beyond the version is known. */
  predicate Sound(p: Projection) {
    && 0 <= p.version <= p.required
    && (p.repair <==> p.required > p.version)
  }

  /** Repair is sticky and freezes the record; versions rise by one; disabled never advances. */
  lemma StepLaws(p: Projection, m: Message)
    requires Sound(p)
    ensures var q := Step(p, m);
            && Sound(q)
            && p.version <= q.version <= p.version + 1 && p.required <= q.required
            && (p.repair ==> q == p.(required := q.required))
            && (q.version == p.version ==> q.status == p.status)
            && (p.status == Disabled ==> q.version == p.version && q.status == Disabled)
            && (q.snapshotBase ==> p.snapshotBase && q.version == p.version)
    ensures Project(p, m).Ok? ==> Step(p, m).required >= m.version
  {}

  /**
   * Over any run: versions and required versions never fall, a repair is never lifted by a later
   * delivery, a disabled tenant keeps its version, and every accepted version is either reached or
   * still required. A record stays a bare snapshot base only at the version it started from.
   */
  lemma {:induction false} RunLaws(p: Projection, ms: seq<Message>)
    requires Sound(p)
    ensures var q := Run(p, ms);
            && Sound(q) && p.version <= q.version && p.required <= q.required
            && (p.repair ==> q == p.(required := q.required))
            && (p.status == Disabled ==> q.version == p.version && q.status == Disabled)
            && (q.snapshotBase ==> p.snapshotBase && q.version == p.version)
    ensures forall i | 0 <= i < |ms| && Project(Run(p, ms[..i]), ms[i]).Ok? :: ms[i].version <= Run(p, ms).required
    decreases |ms|
  {
    if ms != [] {
      var front := ms[..|ms| - 1];
      RunLaws(p, front);
      StepLaws(Run(p, front), ms[|ms| - 1]);
      forall i | 0 <= i < |ms| && Project(Run(p, ms[..i]), ms[i]).Ok? ensures ms[i].version <= Run(p, ms).required {
        if i < |front| { assert ms[..i] == front[..i] && ms[i] == front[i]; }
        else { assert ms[..i] == front; }
      }
    }
  }

  // ---- Against the tenant's own history -------------------------------------------------------

  /** The owner's record of one tenant: versions 1, 2, ..., born active, nothing after disabled. */
  predicate History(h: seq<Message>) { forall i | 0 <= i < |h| :: Follows(h, i) }

  predicate Follows(h: seq<Message>, i: nat) requires i < |h| {
    && Valid(h[i]) && h[i].kind == Lifecycle && h[i].version == i + 1
    && (i == 0 ==> h[i].status == Active && h[i].reason == Created)
    && (i > 0 ==> h[i - 1].status != Disabled)
  }

  /** The projection built from the full history 1..n. */
  function Full(h: seq<Message>, n: nat): Projection requires n <= |h| { Run(Placeholder, h[..n]) }

  /** The row a snapshot page at version k inserts: version and status only. */
  function SnapshotAt(h: seq<Message>, k: nat): Projection requires 1 <= k <= |h| {
    Projection(h[k - 1].version, h[k - 1].version, h[k - 1].status, NoReason, 0, false, true)
  }

  function Last(h: seq<Message>, n: nat): Projection requires n <= |h| {
    if n == 0 then Placeholder else Recorded(h[n - 1])
  }

  lemma NextIsApplied(h: seq<Message>, n: nat)
    requires History(h) && n < |h|
    ensures Project(Last(h, n), h[n]) == Ok(Recorded(h[n]), Applied)
    ensures Last(h, n).version == n && (n > 0 ==> Last(h, n).status != Disabled)
  {
    assert Follows(h, n);
    if n > 0 { assert Follows(h, n - 1); }
  }

  lemma {:induction false} FullIsLast(h: seq<Message>, n: nat)
    requires History(h) && n <= |h|
    ensures Full(h, n) == Last(h, n)
    decreases n
  {
    if n > 0 {
      FullIsLast(h, n - 1);
      NextIsApplied(h, n - 1);
      assert h[..n][..n - 1] == h[..n - 1] && h[..n][n - 1] == h[n - 1];
    }
  }

  /** The projection stands at a prefix of the history, whole unless only a snapshot page wrote it. */
  predicate AtPrefix(h: seq<Message>, p: Projection) {
    && Sound(p) && p.version <= |h| && p.status == Last(h, p.version).status
    && (p.snapshotBase ==> p.version >= 1)
    && (!p.snapshotBase ==> p == Last(h, p.version).(repair := p.repair, required := p.required))
  }

  lemma DeliveredStaysAtPrefix(h: seq<Message>, p: Projection, i: nat)
    requires History(h) && AtPrefix(h, p) && i < |h|
    ensures Project(p, h[i]).Ok? && AtPrefix(h, Step(p, h[i]))
    ensures !p.repair && i == p.version ==> Step(p, h[i]) == Recorded(h[i])
    ensures !p.repair && i + 1 == p.version ==> Step(p, h[i]) == Recorded(h[i])
  {
    assert Follows(h, i);
    if i == p.version && !p.repair { NextIsApplied(h, i); }
  }

  predicate Delivers(h: seq<Message>, ms: seq<Message>) { forall m | m in ms :: m in h }

  /**
   * Any order, loss and repetition of a tenant's true messages, from nothing or from a snapshot,
   * never conflicts and always leaves the projection at a prefix of the full history.
   */
  lemma {:induction false} AnyOrderStaysAtPrefix(h: seq<Message>, p: Projection, ms: seq<Message>)
    requires History(h) && AtPrefix(h, p) && Delivers(h, ms)
    ensures AtPrefix(h, Run(p, ms))
    ensures forall i | 0 <= i < |ms| :: Project(Run(p, ms[..i]), ms[i]).Ok?
    decreases |ms|
  {
    if ms != [] {
      var front, m := ms[..|ms| - 1], ms[|ms| - 1];
      AnyOrderStaysAtPrefix(h, p, front);
      assert m in ms;
      var j :| 0 <= j < |h| && h[j] == m;
      DeliveredStaysAtPrefix(h, Run(p, front), j);
      forall i | 0 <= i < |ms| ensures Project(Run(p, ms[..i]), ms[i]).Ok? {
        if i < |front| { assert ms[..i] == front[..i] && ms[i] == front[i]; }
        else { assert ms[..i] == front; }
      }
    }
  }

  /** Both starting points of the theorem above. */
  lemma StartsAtPrefix(h: seq<Message>, k: nat)
    requires History(h) && k <= |h|
    ensures AtPrefix(h, Placeholder)
    ensures k >= 1 ==> AtPrefix(h, SnapshotAt(h, k)) && SnapshotAt(h, k).version == k
  {
    if k > 0 { assert Follows(h, k - 1); }
  }

  /**
   * A snapshot at version k followed by k+1..n and the full history 1..n agree on version and
   * status at every n, and on the whole record once any event at version k or later was applied.
   */
  lemma {:induction false} SnapshotAgreesWithFullHistory(h: seq<Message>, k: nat, n: nat)
    requires History(h) && 1 <= k <= n <= |h|
    ensures var q := Run(SnapshotAt(h, k), h[k..n]);
            && q.version == Full(h, n).version == n && q.status == Full(h, n).status && !q.repair
            && (n > k ==> q == Full(h, n))
    ensures Step(SnapshotAt(h, k), h[k - 1]) == Full(h, k)
    decreases n
  {
    StartsAtPrefix(h, k);
    FullIsLast(h, k);
    FullIsLast(h, n);
    DeliveredStaysAtPrefix(h, SnapshotAt(h, k), k - 1);
    if n > k { SnapshotThenIncrements(h, k, n); } else { assert h[k..n] == []; }
  }

  lemma RunSplits(p: Projection, h: seq<Message>, k: nat, n: nat)
    requires k < n <= |h|
    ensures Run(p, h[k..n]) == Step(Run(p, h[k..n - 1]), h[n - 1])
  {
    assert h[k..n][..n - k - 1] == h[k..n - 1] && h[k..n][n - k - 1] == h[n - 1];
  }

  lemma {:induction false} SnapshotThenIncrements(h: seq<Message>, k: nat, n: nat)
    requires History(h) && 1 <= k < n <= |h|
    ensures Run(SnapshotAt(h, k), h[k..n]) == Recorded(h[n - 1])
    ensures Recorded(h[n - 1]).version == n
    decreases n
  {
    assert Follows(h, n - 1);
    RunSplits(SnapshotAt(h, k), h, k, n);
    if n == k + 1 {
      StartsAtPrefix(h, k);
      assert h[k..k] == [];
      DeliveredStaysAtPrefix(h, SnapshotAt(h, k), k);
    } else {
      SnapshotThenIncrements(h, k, n - 1);
      NextIsApplied(h, n - 1);
    }
  }

  /** A gap is still recorded on a disabled tenant although it can never advance. */
  lemma GapOnDisabledStillAsksForRepair(p: Projection, m: Message)
    requires Sound(p) && p.status == Disabled && !p.repair && Valid(m) && m.kind == Lifecycle && m.version > p.version
    ensures m.version == p.version + 1 ==> Project(p, m) == Conflict
    ensures m.version > p.version + 1 ==> Step(p, m).repair && Step(p, m).required == m.version && Step(p, m).version == p.version
  {}
}
