/**
 * The API key usage buffer: a Redis sorted set of newest observations, flushed into PostgreSQL by
 * any number of workers whose read, record and acknowledge steps interleave. Milliseconds.
 */
module ApiKeyUsage {
  import opened Ids
  import UuidText

  datatype Member = Member(tenant: Uuid, key: Uuid)
  type Millis = int
  const Throttle: Millis := 15 * 60 * 1000

  /** `suspended`: the owning workload or its membership is not active. */
  datatype KeyRow = KeyRow(neverExpires: bool, expiresAt: Millis, lastUsed: Option<Millis>, revoked: bool, suspended: bool)
  datatype Entry = Entry(member: Member, score: Millis)

  /** A flusher's unprocessed batch; `recorded` once the head was written but not yet acknowledged. */
  datatype Flusher = Flusher(batch: seq<Entry>, recorded: bool)

  /** `seen` is history: the newest time per member that was ever observed or durable at the start. */
  datatype World = World(
    buffer: map<Member, Millis>, rows: map<Member, KeyRow>, flushers: map<int, Flusher>, seen: map<Member, Millis>)

  /** The observe script: keep the larger score. */
  function Observed(buffer: map<Member, Millis>, m: Member, t: Millis): map<Member, Millis> {
    if m !in buffer || t > buffer[m] then buffer[m := t] else buffer
  }

  /** The acknowledge script: remove what is not newer than the acknowledged time. */
  function Acknowledged(buffer: map<Member, Millis>, m: Member, t: Millis): map<Member, Millis> {
    if m in buffer && buffer[m] <= t then buffer - {m} else buffer
  }

  /** The update finds the row: the key exists and was not expired when used. */
  predicate Timely(rows: map<Member, KeyRow>, e: Entry) {
    e.member in rows && (rows[e.member].neverExpires || rows[e.member].expiresAt > e.score)
  }

  /** The constraint trigger refuses every update of an unrevoked key whose workload is not active. */
  predicate Blocked(rows: map<Member, KeyRow>, m: Member) { m in rows && rows[m].suspended && !rows[m].revoked }

  predicate Recordable(rows: map<Member, KeyRow>, e: Entry) { Timely(rows, e) && !Blocked(rows, e.member) }

  /** RecordAPIKeyUse writes only when the stored time is more than 15 minutes older. */
  function Recorded(rows: map<Member, KeyRow>, e: Entry): map<Member, KeyRow>
    requires Recordable(rows, e)
  {
    var row := rows[e.member];
    if row.lastUsed.None? || row.lastUsed.value < e.score - Throttle
    then rows[e.member := row.(lastUsed := Some(e.score))] else rows
  }

  /**
   * A use is observed only after the key was read and found active, unexpired and its workload active;
   * its time is that instant rounded down. Keys are never deleted and their expiry never changes.
   */
  datatype Step =
    | Observe(m: Member, t: Millis)
    | Issue(m: Member, neverExpires: bool, expiresAt: Millis)
    | Revoke(m: Member)
    | SetSuspended(m: Member, suspended: bool)
    | Read(worker: int, batch: seq<Entry>)
    | Record(worker: int)
    | Acknowledge(worker: int)
    | Stop(worker: int)

  predicate Enabled(w: World, step: Step) {
    match step
    case Observe(m, t) =>
      m.key != NilId && m.tenant != NilId && Timely(w.rows, Entry(m, t)) && !w.rows[m].revoked && !w.rows[m].suspended
    case Issue(m, _, _) => m !in w.rows
    case Revoke(m) => m in w.rows
    case SetSuspended(m, _) => m in w.rows
    case Read(f, batch) => f !in w.flushers && forall i | 0 <= i < |batch| :: batch[i].member in w.buffer && w.buffer[batch[i].member] == batch[i].score
    case Record(f) => f in w.flushers && w.flushers[f].batch != [] && !w.flushers[f].recorded
    case Acknowledge(f) => f in w.flushers && w.flushers[f].batch != [] && w.flushers[f].recorded
    case Stop(f) => f in w.flushers
  }

  function Next(w: World, step: Step): World
    requires Enabled(w, step)
  {
    match step
    case Observe(m, t) =>
      w.(buffer := Observed(w.buffer, m, t), seen := w.seen[m := if m in w.seen then Max(w.seen[m], t) else t])
    case Issue(m, neverExpires, expiresAt) => w.(rows := w.rows[m := KeyRow(neverExpires, expiresAt, None, false, false)])
    case Revoke(m) => w.(rows := w.rows[m := w.rows[m].(revoked := true)])
    case SetSuspended(m, suspended) => w.(rows := w.rows[m := w.rows[m].(suspended := suspended)])
    case Read(f, batch) => w.(flushers := w.flushers[f := Flusher(batch, false)])
    case Record(f) =>
      var e := w.flushers[f].batch[0];
      if Recordable(w.rows, e) then w.(rows := Recorded(w.rows, e), flushers := w.flushers[f := w.flushers[f].(recorded := true)])
      else w.(flushers := w.flushers - {f})
    case Acknowledge(f) =>
      var e := w.flushers[f].batch[0];
      w.(buffer := Acknowledged(w.buffer, e.member, e.score), flushers := w.flushers[f := Flusher(w.flushers[f].batch[1..], false)])
    case Stop(f) => w.(flushers := w.flushers - {f})
  }

  ghost predicate Reaches(w: World, steps: seq<Step>, end: World)
    decreases |steps|
  {
    if steps == [] then w == end else Enabled(w, steps[0]) && Reaches(Next(w, steps[0]), steps[1..], end)
  }

  function Durable(w: World, m: Member): Option<Millis> { if m in w.rows then w.rows[m].lastUsed else None }

  /** The newest time still known for a member, pending or durable. */
  function Known(w: World, m: Member): Option<Millis> {
    match (if m in w.buffer then Some(w.buffer[m]) else None, Durable(w, m))
    case (Some(p), Some(d)) => Some(Max(p, d))
    case (Some(p), None) => Some(p)
    case (None, d) => d
  }

  /** The newest time ever observed is pending, or durable to within the throttle. */
  predicate MemberInv(w: World, m: Member) {
    && (m in w.buffer ==> m in w.seen && w.buffer[m] <= w.seen[m])
    && (Durable(w, m).Some? ==> m in w.seen && Durable(w, m).value <= w.seen[m])
    && (m in w.seen ==> (m in w.buffer && w.buffer[m] == w.seen[m]) || (Durable(w, m).Some? && Durable(w, m).value >= w.seen[m] - Throttle))
  }

  predicate FlusherInv(w: World, f: Flusher) {
    && (forall i | 0 <= i < |f.batch| :: f.batch[i].member in w.seen && f.batch[i].score <= w.seen[f.batch[i].member])
    && (f.recorded && f.batch != [] ==>
          Durable(w, f.batch[0].member).Some? && Durable(w, f.batch[0].member).value >= f.batch[0].score - Throttle)
  }

  ghost predicate Inv(w: World) {
    && (forall m: Member :: MemberInv(w, m))
    && (forall f | f in w.flushers :: FlusherInv(w, w.flushers[f]))
  }

  /** Empty buffer; what is durable counts as seen. */
  function Start(rows: map<Member, KeyRow>): World {
    World(map[], rows, map[], map m | m in rows && rows[m].lastUsed.Some? :: rows[m].lastUsed.value)
  }

  lemma StepKeepsMembers(w: World, step: Step, m: Member)
    requires Inv(w) && Enabled(w, step)
    ensures MemberInv(Next(w, step), m)
  {
    assert MemberInv(w, m);
    if step.Record? || step.Acknowledge? { assert FlusherInv(w, w.flushers[step.worker]); }
  }

  lemma StepKeepsFlusher(w: World, step: Step, f: int)
    requires Inv(w) && Enabled(w, step) && f in Next(w, step).flushers
    ensures FlusherInv(Next(w, step), Next(w, step).flushers[f])
  {
    if f in w.flushers { assert FlusherInv(w, w.flushers[f]); }
    match step
    case Record(worker) => if Recordable(w.rows, w.flushers[worker].batch[0]) { DurableOnlyGrows(w, worker); }
    case Read(_, batch) =>
      forall i | 0 <= i < |batch| ensures batch[i].member in w.seen && batch[i].score <= w.seen[batch[i].member] { assert MemberInv(w, batch[i].member); }
    case _ =>
  }

  lemma StepKeepsInv(w: World, step: Step)
    requires Inv(w) && Enabled(w, step)
    ensures Inv(Next(w, step))
  {
    forall m: Member ensures MemberInv(Next(w, step), m) { StepKeepsMembers(w, step, m); }
    forall f | f in Next(w, step).flushers ensures FlusherInv(Next(w, step), Next(w, step).flushers[f]) { StepKeepsFlusher(w, step, f); }
  }

  lemma DurableOnlyGrows(w: World, f: int)
    requires Enabled(w, Record(f)) && Recordable(w.rows, w.flushers[f].batch[0])
    ensures forall m: Member :: Durable(w, m).Some? ==> Durable(Next(w, Record(f)), m).Some? && Durable(w, m).value <= Durable(Next(w, Record(f)), m).value
  {}

  lemma {:induction false} RunKeepsInv(w: World, steps: seq<Step>, end: World)
    requires Inv(w) && Reaches(w, steps, end)
    ensures Inv(end)
    decreases |steps|
  {
    if steps != [] {
      StepKeepsInv(w, steps[0]);
      RunKeepsInv(Next(w, steps[0]), steps[1..], end);
    }
  }

  /**
   * Over every interleaving of observations and flushers, stopped anywhere: nothing newer than the
   * newest observation is ever known, and nothing older than it by more than the throttle.
   */
  lemma NoObservationLostBeyondThrottle(rows: map<Member, KeyRow>, steps: seq<Step>, w: World, m: Member)
    requires Reaches(Start(rows), steps, w)
    ensures m in w.seen <==> Known(w, m).Some?
    ensures m in w.seen ==> w.seen[m] - 15 * 60 * 1000 <= Known(w, m).value <= w.seen[m]
  {
    assert Inv(Start(rows));
    RunKeepsInv(Start(rows), steps, w);
    assert MemberInv(w, m);
  }

  predicate Exact(w: World, m: Member) { (m in w.seen <==> Known(w, m).Some?) && (m in w.seen ==> Known(w, m).value == w.seen[m]) }

  /** The removal that forgets: the entry goes while the durable time stayed behind it. */
  predicate Forgets(w: World, step: Step, m: Member)
    requires Enabled(w, step)
  {
    && step.Acknowledge? && w.flushers[step.worker].batch[0].member == m
    && m in w.buffer && w.buffer[m] <= w.flushers[step.worker].batch[0].score
    && (Durable(w, m).None? || Durable(w, m).value < w.buffer[m])
  }

  /** The exact maximum survives a step unless, and only unless, that step forgets. */
  lemma ExactUnlessForgotten(w: World, step: Step, m: Member)
    requires Inv(w) && Enabled(w, step) && Exact(w, m)
    ensures Exact(Next(w, step), m) <==> !Forgets(w, step, m)
  {
    assert MemberInv(w, m);
    if step.Record? || step.Acknowledge? { assert FlusherInv(w, w.flushers[step.worker]); }
  }

  /** One worker alone on one pending entry: read, record, acknowledge. */
  function FlushOne(w: World, m: Member): World
    requires m in w.buffer && 0 !in w.flushers
  {
    var read := Next(w, Read(0, [Entry(m, w.buffer[m])]));
    var recorded := Next(read, Record(0));
    if 0 in recorded.flushers then Next(recorded, Acknowledge(0)) else recorded
  }

  /**
   * Flushing a recordable entry keeps the exact maximum exactly when the stored time is missing,
   * more than the throttle behind, or not behind at all.
   */
  lemma FlushKeepsMaximumIff(w: World, m: Member)
    requires Inv(w) && Exact(w, m) && m in w.buffer && 0 !in w.flushers && Recordable(w.rows, Entry(m, w.buffer[m]))
    ensures Exact(FlushOne(w, m), m) <==>
              Durable(w, m).None? || Durable(w, m).value < w.buffer[m] - 15 * 60 * 1000 || Durable(w, m).value >= w.buffer[m]
  {
    assert MemberInv(w, m);
  }

  /** A second use within the throttle is forgotten: durable 0, observed one second later, flushed. */
  lemma MaximumIsNotAlwaysKept(m: Member)
    requires m.key != NilId && m.tenant != NilId
    ensures var start := Start(map[m := KeyRow(true, 0, Some(0), false, false)]);
            var end := FlushOne(Next(start, Observe(m, 1000)), m);
            end.seen[m] == 1000 && Known(end, m) == Some(0)
  {}

  // ---- What each step does, in the stored values ------------------------------------------------

  /** An observation keeps the later of two times, under its own member only. */
  lemma ObservedExactly(w: World, m: Member, t: Millis)
    requires Enabled(w, Observe(m, t))
    ensures var next := Next(w, Observe(m, t));
            && next.rows == w.rows && next.flushers == w.flushers && next.buffer.Keys == w.buffer.Keys + {m}
            && next.buffer[m] == (if m in w.buffer && w.buffer[m] > t then w.buffer[m] else t)
            && forall k | k in w.buffer && k != m :: next.buffer[k] == w.buffer[k]
  {}

  /** A key can be recorded when it is on record, was not expired when used, and is not held back by its suspended workload. */
  lemma RecordableIff(rows: map<Member, KeyRow>, e: Entry)
    ensures Recordable(rows, e) <==>
              && e.member in rows && (rows[e.member].neverExpires || e.score < rows[e.member].expiresAt)
              && (rows[e.member].revoked || !rows[e.member].suspended)
  {}

  /** Recording writes a time more than 15 minutes past the stored one and nothing else; what cannot be recorded ends the flush. */
  lemma RecordedExactly(w: World, f: int)
    requires Enabled(w, Record(f))
    ensures var e := w.flushers[f].batch[0]; var next := Next(w, Record(f));
            && next.buffer == w.buffer
            && (Recordable(w.rows, e) ==>
                  && next.flushers == w.flushers[f := Flusher(w.flushers[f].batch, true)] && next.rows.Keys == w.rows.Keys
                  && (forall k | k in w.rows && k != e.member :: next.rows[k] == w.rows[k])
                  && next.rows[e.member] == w.rows[e.member].(lastUsed :=
                       if w.rows[e.member].lastUsed.Some? && w.rows[e.member].lastUsed.value + 15 * 60 * 1000 >= e.score then w.rows[e.member].lastUsed else Some(e.score)))
            && (!Recordable(w.rows, e) ==> next.rows == w.rows && f !in next.flushers)
  {}

  /** An acknowledgement removes what was recorded, unless a later use has come in. */
  lemma AcknowledgedExactly(w: World, f: int)
    requires Enabled(w, Acknowledge(f))
    ensures var e := w.flushers[f].batch[0]; var next := Next(w, Acknowledge(f));
            && next.rows == w.rows && next.flushers == w.flushers[f := Flusher(w.flushers[f].batch[1..], false)]
            && (e.member in next.buffer <==> e.member in w.buffer && w.buffer[e.member] > e.score)
            && (forall k | k != e.member :: k in next.buffer <==> k in w.buffer)
            && (forall k | k in next.buffer :: next.buffer[k] == w.buffer[k])
  {}

  // ---- Flush ----------------------------------------------------------------------------------

  /** ZRANGE 0..n-1: the lowest scores in order, all of them when fewer. */
  predicate IsBatch(buffer: map<Member, Millis>, n: nat, batch: seq<Entry>) {
    && (forall i | 0 <= i < |batch| :: batch[i].member in buffer && buffer[batch[i].member] == batch[i].score)
    && (forall i, j | 0 <= i < j < |batch| :: batch[i].member != batch[j].member && batch[i].score <= batch[j].score)
    && |batch| == (if |buffer| < n then |buffer| else n)
    && (forall m | m in buffer && (forall i | 0 <= i < |batch| :: batch[i].member != m) :: forall i | 0 <= i < |batch| :: batch[i].score <= buffer[m])
  }

  datatype Stored = Stored(buffer: map<Member, Millis>, rows: map<Member, KeyRow>)

  /** An undisturbed flush: entry by entry until the batch ends or one cannot be recorded. */
  function Flushed(s: Stored, batch: seq<Entry>): (Stored, nat)
    decreases |batch|
  {
    if batch == [] || !Recordable(s.rows, batch[0]) then (s, 0)
    else
      var e := batch[0];
      var rest := Flushed(Stored(Acknowledged(s.buffer, e.member, e.score), Recorded(s.rows, e)), batch[1..]);
      (rest.0, rest.1 + 1)
  }

  class Aggregator {
    var buffer: map<Member, Millis>
    var rows: map<Member, KeyRow>

    constructor (rows: map<Member, KeyRow>)
      ensures buffer == map[] && this.rows == rows
    { buffer, this.rows := map[], rows; }

    method ObserveUse(m: Member, t: Millis) returns (ok: bool)
      modifies this`buffer
      ensures ok <==> m.key != NilId && m.tenant != NilId
      ensures buffer == if ok then Observed(old(buffer), m, t) else old(buffer)
    {
      if m.key == NilId || m.tenant == NilId { return false; }
      if m !in buffer || t > buffer[m] { buffer := buffer[m := t]; }
      return true;
    }

    method Flush(batch: seq<Entry>) returns (processed: nat, failed: bool)
      modifies this
      ensures (Stored(buffer, rows), processed) == Flushed(old(Stored(buffer, rows)), batch)
      ensures failed <==> processed < |batch|
    {
      processed := 0;
      while processed < |batch|
        invariant processed <= |batch|
        invariant var rest := Flushed(Stored(buffer, rows), batch[processed..]);
                  (rest.0, rest.1 + processed) == old(Flushed(Stored(buffer, rows), batch))
      {
        var e := batch[processed];
        assert batch[processed..][0] == e && batch[processed..][1..] == batch[processed + 1..];
        if e.member !in rows || !(rows[e.member].neverExpires || rows[e.member].expiresAt > e.score) { return processed, true; }
        if rows[e.member].suspended && !rows[e.member].revoked { return processed, true; }
        var row := rows[e.member];
        if row.lastUsed.None? || row.lastUsed.value < e.score - Throttle {
          rows := rows[e.member := row.(lastUsed := Some(e.score))];
        }
        if e.member in buffer && buffer[e.member] <= e.score { buffer := buffer - {e.member}; }
        processed := processed + 1;
      }
      failed := false;
    }
  }

  predicate AllRecordable(s: Stored) { forall m | m in s.buffer :: Recordable(s.rows, Entry(m, s.buffer[m])) }

  /** Recording changes nothing of a key but its last use, so what was recordable stays so. */
  predicate SameStanding(a: map<Member, KeyRow>, b: map<Member, KeyRow>) {
    a.Keys == b.Keys && forall m | m in a :: a[m].(lastUsed := None) == b[m].(lastUsed := None)
  }

  predicate Current(buffer: map<Member, Millis>, batch: seq<Entry>) {
    && (forall i | 0 <= i < |batch| :: batch[i].member in buffer && buffer[batch[i].member] == batch[i].score)
    && (forall i, j | 0 <= i < j < |batch| :: batch[i].member != batch[j].member)
  }

  function Members(batch: seq<Entry>): set<Member> { set i | 0 <= i < |batch| :: batch[i].member }

  lemma StandingDecides(a: map<Member, KeyRow>, b: map<Member, KeyRow>, e: Entry)
    requires SameStanding(a, b)
    ensures Recordable(a, e) == Recordable(b, e)
  {}

  lemma RecordedKeepsStanding(rows: map<Member, KeyRow>, e: Entry)
    requires Recordable(rows, e)
    ensures SameStanding(rows, Recorded(rows, e))
  {}

  lemma StandingTransitive(a: map<Member, KeyRow>, b: map<Member, KeyRow>, c: map<Member, KeyRow>)
    requires SameStanding(a, b) && SameStanding(b, c)
    ensures SameStanding(a, c)
  {}

  /** A flush clears exactly the entries before the first unrecordable one. */
  lemma {:induction false} FlushClearsPrefix(s: Stored, batch: seq<Entry>)
    requires Current(s.buffer, batch)
    ensures var (t, n) := Flushed(s, batch);
            && n <= |batch| && t.buffer == s.buffer - Members(batch[..n]) && SameStanding(s.rows, t.rows)
            && (forall i | 0 <= i < n :: Recordable(s.rows, batch[i]))
            && (n < |batch| ==> !Recordable(s.rows, batch[n]))
    decreases |batch|
  {
    if batch != [] && Recordable(s.rows, batch[0]) {
      var e := batch[0];
      var next := Stored(Acknowledged(s.buffer, e.member, e.score), Recorded(s.rows, e));
      RecordedKeepsStanding(s.rows, e);
      FlushClearsPrefix(next, batch[1..]);
      var (t, n) := Flushed(next, batch[1..]);
      StandingTransitive(s.rows, next.rows, t.rows);
      assert batch[..n + 1] == [e] + batch[1..][..n];
      MembersCons(e, batch[1..][..n]);
      forall i | 0 <= i < n + 1 ensures Recordable(s.rows, batch[i]) {
        if i > 0 { StandingDecides(s.rows, next.rows, batch[1..][i - 1]); }
      }
      if n + 1 < |batch| { StandingDecides(s.rows, next.rows, batch[1..][n]); }
    } else {
      assert Members(batch[..0]) == {};
    }
  }

  lemma MembersCons(e: Entry, rest: seq<Entry>)
    ensures Members([e] + rest) == {e.member} + Members(rest)
  {
    var all := [e] + rest;
    forall m | m in {e.member} + Members(rest) ensures m in Members(all) {
      if m != e.member { var i :| 0 <= i < |rest| && rest[i].member == m; assert all[i + 1] == rest[i]; }
      else { assert all[0].member == m; }
    }
  }

  function FlushAll(s: Stored, batches: seq<seq<Entry>>): Stored
    decreases |batches|
  {
    if batches == [] then s else FlushAll(Flushed(s, batches[0]).0, batches[1..])
  }

  /** Each flush reads its batch from the buffer its predecessor left. */
  predicate BatchesFit(s: Stored, n: nat, batches: seq<seq<Entry>>)
    decreases |batches|
  {
    batches == [] || (IsBatch(s.buffer, n, batches[0]) && BatchesFit(Flushed(s, batches[0]).0, n, batches[1..]))
  }

  lemma SmallerKeys(a: map<Member, Millis>, b: map<Member, Millis>, m: Member)
    requires a.Keys <= b.Keys && m in b && m !in a
    ensures |a| < |b|
  {
    Subset(a.Keys, b.Keys - {m});
    assert |a| == |a.Keys| && |b| == |b.Keys|;
  }

  lemma {:induction false} Subset(a: set<Member>, b: set<Member>)
    requires a <= b
    ensures |a| <= |b|
    decreases a
  {
    if a != {} {
      var m :| m in a;
      Subset(a - {m}, b - {m});
    }
  }

  lemma AllFlushed(s: Stored, batch: seq<Entry>)
    requires Current(s.buffer, batch) && AllRecordable(s)
    ensures Flushed(s, batch).1 == |batch|
  {
    FlushClearsPrefix(s, batch);
    forall i | 0 <= i < |batch| ensures Recordable(s.rows, batch[i]) {
      assert batch[i] == Entry(batch[i].member, s.buffer[batch[i].member]);
    }
  }

  /** Recordable entries stay so, and one that cannot be recorded stays in the buffer. */
  lemma FlushKeepsRecordability(s: Stored, batch: seq<Entry>)
    requires Current(s.buffer, batch)
    ensures AllRecordable(Flushed(s, batch).0) == AllRecordable(s)
  {
    FlushClearsPrefix(s, batch);
    var (t, k) := Flushed(s, batch);
    forall m | m in s.buffer && !Recordable(s.rows, Entry(m, s.buffer[m]))
      ensures m in t.buffer && !Recordable(t.rows, Entry(m, t.buffer[m]))
    {
      assert m !in Members(batch[..k]);
    }
  }

  lemma FlushShrinks(s: Stored, batch: seq<Entry>)
    requires Current(s.buffer, batch) && AllRecordable(s) && batch != []
    ensures |Flushed(s, batch).0.buffer| < |s.buffer|
  {
    FlushClearsPrefix(s, batch);
    AllFlushed(s, batch);
    assert batch[..|batch|] == batch && batch[0].member in Members(batch);
    SmallerKeys(Flushed(s, batch).0.buffer, s.buffer, batch[0].member);
  }

  lemma FlushStep(s: Stored, n: nat, batch: seq<Entry>)
    requires IsBatch(s.buffer, n, batch)
    ensures var t := Flushed(s, batch).0;
            && AllRecordable(t) == AllRecordable(s)
            && (AllRecordable(s) && n >= 1 && s.buffer != map[] ==> |t.buffer| < |s.buffer|)
            && (s.buffer == map[] ==> t.buffer == map[])
  {
    assert Current(s.buffer, batch);
    FlushKeepsRecordability(s, batch);
    if s.buffer == map[] { assert batch == []; }
    else if AllRecordable(s) && n >= 1 {
      assert |s.buffer| > 0;
      FlushShrinks(s, batch);
    }
  }

  /**
   * With no new observations, as many flushes as there are entries empty the buffer exactly when
   * every pending entry can be recorded; a single one that cannot keeps it from ever emptying.
   */
  lemma {:induction false} RepeatedFlushEmptiesIff(s: Stored, n: nat, batches: seq<seq<Entry>>)
    requires n >= 1 && BatchesFit(s, n, batches)
    ensures !AllRecordable(s) ==> FlushAll(s, batches).buffer != map[]
    ensures AllRecordable(s) && |batches| >= |s.buffer| ==> FlushAll(s, batches).buffer == map[]
    decreases |batches|
  {
    if batches == [] {
      assert s.buffer == map[] ==> AllRecordable(s);
    } else {
      FlushStep(s, n, batches[0]);
      RepeatedFlushEmptiesIff(Flushed(s, batches[0]).0, n, batches[1..]);
    }
  }

  // ---- The buffer of every reachable world --------------------------------------------------------

  predicate AllTimely(w: World) { forall m | m in w.buffer :: Timely(w.rows, Entry(m, w.buffer[m])) }

  lemma {:induction false} RunKeepsTimely(w: World, steps: seq<Step>, end: World)
    requires AllTimely(w) && Reaches(w, steps, end)
    ensures AllTimely(end)
    decreases |steps|
  {
    if steps != [] { RunKeepsTimely(Next(w, steps[0]), steps[1..], end); }
  }

  /**
   * In every reachable world, with no new observations, as many flushes as there are entries empty the
   * buffer exactly when no buffered key is unrevoked with its workload suspended.
   */
  lemma ReachableFlushEmptiesIff(rows: map<Member, KeyRow>, steps: seq<Step>, w: World, n: nat, batches: seq<seq<Entry>>)
    requires Reaches(Start(rows), steps, w)
    requires n >= 1 && BatchesFit(Stored(w.buffer, w.rows), n, batches) && |batches| >= |w.buffer|
    ensures FlushAll(Stored(w.buffer, w.rows), batches).buffer == map[] <==> forall m | m in w.buffer :: !Blocked(w.rows, m)
  {
    RunKeepsTimely(Start(rows), steps, w);
    RepeatedFlushEmptiesIff(Stored(w.buffer, w.rows), n, batches);
  }

  lemma OldestComesFirst(buffer: map<Member, Millis>, n: nat, b: seq<Entry>, m: Member)
    requires n >= 1 && IsBatch(buffer, n, b) && m in buffer && forall k | k in buffer && k != m :: buffer[m] < buffer[k]
    ensures b != [] && b[0].member == m
  {
    assert |buffer| > 0;
    assert forall i | 0 <= i < |b| && b[i].member == m :: b[0].score <= b[i].score == buffer[m];
    assert (forall i | 0 <= i < |b| :: b[i].member != m) ==> b[0].score <= buffer[m];
  }

  /** While the oldest entry is blocked nothing is flushed at all, however recordable the entries behind it. */
  lemma {:induction false} BlockedHeadHoldsEverything(s: Stored, n: nat, batches: seq<seq<Entry>>, m: Member)
    requires n >= 1 && BatchesFit(s, n, batches)
    requires m in s.buffer && Blocked(s.rows, m) && forall k | k in s.buffer && k != m :: s.buffer[m] < s.buffer[k]
    ensures FlushAll(s, batches) == s
    decreases |batches|
  {
    if batches != [] {
      OldestComesFirst(s.buffer, n, batches[0], m);
      BlockedHeadHoldsEverything(s, n, batches[1..], m);
    }
  }

  /**
   * A use that is real and still never flushed: a key is used, its workload is suspended, another key is
   * used. No number of flushes clears either entry; one flush of both does after the first key is revoked.
   */
  lemma SuspensionHoldsTheBuffer(m: Member, k: Member, n: nat, batches: seq<seq<Entry>>)
    requires m != k && m.key != NilId && m.tenant != NilId && k.key != NilId && k.tenant != NilId
    ensures var row := KeyRow(true, 0, None, false, false);
            var steps := [Observe(m, 1000), SetSuspended(m, true), Observe(k, 2000)];
            var w := World(map[m := 1000, k := 2000], map[m := row.(suspended := true), k := row], map[], map[m := 1000, k := 2000]);
            && Reaches(Start(map[m := row, k := row]), steps, w)
            && (n >= 1 && BatchesFit(Stored(w.buffer, w.rows), n, batches) ==>
                  FlushAll(Stored(w.buffer, w.rows), batches).buffer == w.buffer)
            && Flushed(Stored(w.buffer, Next(w, Revoke(m)).rows), [Entry(m, 1000), Entry(k, 2000)]).0.buffer == map[]
  {
    var row := KeyRow(true, 0, None, false, false);
    var w := World(map[m := 1000, k := 2000], map[m := row.(suspended := true), k := row], map[], map[m := 1000, k := 2000]);
    ThreeSteps(Start(map[m := row, k := row]), Observe(m, 1000), SetSuspended(m, true), Observe(k, 2000), w);
    if n >= 1 && BatchesFit(Stored(w.buffer, w.rows), n, batches) {
      BlockedHeadHoldsEverything(Stored(w.buffer, w.rows), n, batches, m);
    }
    RevokedFlushes(w, m, k);
  }

  lemma ThreeSteps(w: World, a: Step, b: Step, c: Step, end: World)
    requires Enabled(w, a) && Enabled(Next(w, a), b) && Enabled(Next(Next(w, a), b), c)
    requires Next(Next(Next(w, a), b), c) == end
    ensures Reaches(w, [a, b, c], end)
  {
    assert [a, b, c][1..] == [b, c] && [b, c][1..] == [c] && [c][1..] == [];
    assert Reaches(end, [], end);
    assert Reaches(Next(Next(w, a), b), [c], end);
    assert Reaches(Next(w, a), [b, c], end);
  }

  lemma RevokedFlushes(w: World, m: Member, k: Member)
    requires m != k && w.buffer == map[m := 1000, k := 2000] && m in w.rows && k in w.rows
    requires w.rows[m].neverExpires && w.rows[k].neverExpires && !Blocked(w.rows, k)
    ensures Flushed(Stored(w.buffer, Next(w, Revoke(m)).rows), [Entry(m, 1000), Entry(k, 2000)]).0.buffer == map[]
  {
    var batch := [Entry(m, 1000), Entry(k, 2000)];
    var s := Stored(w.buffer, Next(w, Revoke(m)).rows);
    assert Current(s.buffer, batch);
    AllFlushed(s, batch);
    FlushClearsPrefix(s, batch);
    assert batch[..2] == batch;
    assert batch[0].member in Members(batch) && batch[1].member in Members(batch);
  }

  // ---- Member text ----------------------------------------------------------------------------

  function MemberText(m: Member): string { UuidText.Print(m.tenant) + "/" + UuidText.Print(m.key) }

  function ParseMember(text: string): Option<Member> {
    var parts := UuidText.Split(text, '/');
    if |parts| != 2 then None
    else match (UuidText.Parse(parts[0]), UuidText.Parse(parts[1]))
      case (Some(tenant), Some(key)) => if tenant == NilId || key == NilId then None else Some(Member(tenant, key))
      case _ => None
  }

  /** Every member an observation can write is read back, and no two share a text. */
  lemma MemberRoundTrip(m: Member)
    ensures ParseMember(MemberText(m)) == if m.tenant == NilId || m.key == NilId then None else Some(m)
  {
    var a, b := UuidText.Print(m.tenant), UuidText.Print(m.key);
    UuidText.ParsePrint(m.tenant);
    UuidText.ParsePrint(m.key);
    UuidText.SplitFree(b, '/');
    UuidText.SplitAtFirst(a, '/', b);
    assert MemberText(m) == a + ['/'] + b;
  }
}
