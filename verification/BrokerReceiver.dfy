/** CoreBrokerReceiver.ReceiveNext over the single pending slot of the consumer. */
module BrokerReceiver {
  import opened Ids
  import R = TenantReplication
  import opened BrokerModel
  import opened BrokerRuns

  /** What the outside world answers during one call. */
  datatype Outside = Outside(
    decoded: Option<R.Delivery>, answers: Answers, receiveCommit: Commit, quarantineCommit: Commit, ackReached: bool, ackReported: bool)

  /** The call up to its last act: fetched, handled and, when refused, quarantined. */
  function Judged(w: World, m: Message, o: Outside): (r: World)
    requires Enabled(w, Fetch(m))
    ensures (r.phase.Durable? || r.phase.Failed?) && r.phase.m == m && r.pending == Some(m.deliveryId)
  {
    var handled := BrokerRuns.Next(BrokerRuns.Next(w, Fetch(m)), Handle(o.decoded, o.answers, o.receiveCommit));
    if handled.phase.Refused? then BrokerRuns.Next(handled, Retain(o.quarantineCommit)) else handled
  }

  /** The whole call: what may be acknowledged is, everything else is asked for again. */
  function Called(w: World, m: Message, o: Outside): World
    requires Enabled(w, Fetch(m))
  {
    var judged := Judged(w, m, o);
    BrokerRuns.Next(judged, if judged.phase.Durable? then Ack(o.ackReached) else Retry)
  }

  /**
   * What one call does to storage and broker. A committed receipt is kept and acknowledged; a quarantined
   * position only acknowledged; a receipt that was refused is quarantined under its reason and then
   * acknowledged; one that failed or whose commit was not seen quarantines and acknowledges nothing.
   */
  lemma CallOutcome(w: World, m: Message, d: R.Delivery, o: Outside)
    requires Enabled(w, Fetch(m)) && o.decoded == Some(d)
    ensures var r := Receive(w.config, w.db, m, d, o.answers); var t := Called(w, m, o);
            var acknowledged := if o.ackReached then w.acked + {m.position} else w.acked;
            && t.phase == Idle && t.pending == None
            && (r.Ok? && o.receiveCommit == Commits ==> t.db == r.value && t.acked == acknowledged)
            && (r == Err(Quarantined) ==> t.db == w.db && t.acked == acknowledged)
            && ((r.Ok? && o.receiveCommit != Commits) || r == Err(Unavailable) ==> t.db.dlq == w.db.dlq && t.acked == w.acked)
            && (forall reason | r.Err? && RefusedFor(r.error, reason) ::
                  && t.db == After(w.db, Quarantine(w.config, w.db, m, reason), o.quarantineCommit)
                  && t.acked == if Seen(Quarantine(w.config, w.db, m, reason), o.quarantineCommit).None? then acknowledged else w.acked)
  {
    var held := BrokerRuns.Next(w, Fetch(m));
    HandledExactly(held, d, o.answers, o.receiveCommit);
    if Receive(w.config, w.db, m, d, o.answers).Ok? {
      ReceiveSkipsQuarantine(w.config, w.db, m, d, o.answers);
      ReceiveStores(w.config, w.db, m, d, o.answers);
    }
  }

  class Receiver {
    const config: Config
    const stream: map<int, Published>
    var acked: set<int>
    var outstanding: Option<int>
    var pending: Option<Message>
    var db: Db

    constructor (config: Config, stream: map<int, Published>)
      ensures Value(Idle) == Start(config, stream)
    {
      this.config, this.stream := config, stream;
      acked, outstanding, pending, db := {}, None, None, Db(R.Initial(config.producer), map[], map[]);
    }

    function Value(phase: Phase): World reads this {
      World(config, stream, acked, outstanding, if pending.Some? then Some(pending.value.deliveryId) else None, phase, db)
    }

    /** The slot refuses a second delivery while one is pending. */
    method Next(offered: Option<Message>) returns (m: Option<Message>)
      requires offered.Some? && pending.None? ==> Enabled(Value(Idle), Fetch(offered.value))
      modifies this`pending, this`outstanding
      ensures m == if old(pending).None? then offered else None
      ensures m.None? ==> Value(Idle) == old(Value(Idle))
      ensures m.Some? ==> pending == m
      ensures m.Some? ==> Value(Holding(m.value)) == BrokerRuns.Next(old(Value(Idle)), Fetch(m.value))
    {
      if pending.Some? { return None; }
      if offered.Some? {
        pending := offered;
        outstanding := Some(offered.value.position);
      }
      return offered;
    }

    /** finish: the slot is emptied whether or not the broker confirmed. */
    method FinishDelivery(id: Uuid, ack: bool, reached: bool, reported: bool) returns (failure: Option<Failure>)
      modifies this`pending, this`outstanding, this`acked
      ensures old(pending).None? || old(pending).value.deliveryId != id ==> failure == Some(Denied) && Value(Idle) == old(Value(Idle))
      ensures old(pending).Some? && old(pending).value.deliveryId == id ==>
                && pending == None && failure == (if reported then None else Some(Unavailable))
                && (if ack && reached then acked == old(acked) + {old(pending).value.position} && outstanding == None
                    else acked == old(acked) && outstanding == old(outstanding))
    {
      if pending.None? || pending.value.deliveryId != id { return Some(Denied); }
      if ack && reached {
        acked := acked + {pending.value.position};
        outstanding := None;
      }
      pending := None;
      return if reported then None else Some(Unavailable);
    }

    /** Receive the decoded event; what cannot be applied is judged for quarantine. */
    method StoreEvent(m: Message, o: Outside) returns (stored: Verdict, seen: Option<Failure>)
      requires pending == Some(m)
      modifies this`db
      ensures Value(Continue(m, stored)) == BrokerRuns.Next(old(Value(Holding(m))), Handle(o.decoded, o.answers, o.receiveCommit))
      ensures stored == MustRetry ==> seen.Some?
    {
      if o.decoded.None? { return MustQuarantine(InvalidEvent), Some(Invalid); }
      var r := Receive(config, db, m, o.decoded.value, o.answers);
      db := After(db, r, o.receiveCommit);
      seen := Seen(r, o.receiveCommit);
      stored := AfterReceive(seen);
    }

    method StoreOriginal(m: Message, reason: Reason, o: Outside) returns (stored: Verdict, seen: Option<Failure>)
      requires pending == Some(m)
      modifies this`db
      ensures Value(Continue(m, stored)) == BrokerRuns.Next(old(Value(Refused(m, reason))), Retain(o.quarantineCommit))
      ensures stored == if seen.None? then MayAck else MustRetry
    {
      var q := Quarantine(config, db, m, reason);
      db := After(db, q, o.quarantineCommit);
      seen := Seen(q, o.quarantineCommit);
      stored := if seen.None? then MayAck else MustRetry;
    }

    method Settle(m: Message, stored: Verdict, seen: Option<Failure>, o: Outside) returns (failure: Option<Failure>, ghost step: Step)
      requires pending == Some(m) && !stored.MustQuarantine? && (stored == MustRetry ==> seen.Some?)
      modifies this`pending, this`outstanding, this`acked
      ensures step == if stored == MayAck then Ack(o.ackReached) else Retry
      ensures Enabled(old(Value(Continue(m, stored))), step)
      ensures Value(Idle) == BrokerRuns.Next(old(Value(Continue(m, stored))), step)
      ensures failure.None? ==> stored == MayAck
    {
      if stored == MayAck {
        step := Ack(o.ackReached);
        failure := FinishDelivery(m.deliveryId, true, o.ackReached, o.ackReported);
      } else {
        step := Retry;
        var _ := FinishDelivery(m.deliveryId, false, o.ackReached, o.ackReported);
        failure := seen;
      }
    }

    /** A crash-free call; the ghost steps make it a run of the machine all guarantees speak of. */
    method ReceiveNext(offered: Option<Message>, o: Outside) returns (failure: Option<Failure>, ghost steps: seq<Step>)
      requires pending.None? && (offered.Some? ==> Enabled(Value(Idle), Fetch(offered.value)))
      modifies this
      ensures Reaches(old(Value(Idle)), steps, Value(Idle))
      ensures pending.None?
      ensures acked == old(acked) || (offered.Some? && acked == old(acked) + {offered.value.position})
      ensures failure.None? && o.ackReached ==> offered.Some? && offered.value.position in acked
      ensures offered.Some? ==> Value(Idle) == Called(old(Value(Idle)), offered.value, o)
      ensures offered.None? ==> failure == Some(Unavailable) && Value(Idle) == old(Value(Idle))
      ensures failure.None? ==> offered.Some? && Judged(old(Value(Idle)), offered.value, o).phase.Durable?
    {
      ghost var start := Value(Idle);
      var next := Next(offered);
      steps := [];
      if next.None? { return Some(Unavailable), steps; }
      var m := next.value;
      steps := Extend(start, steps, start, Fetch(m));
      ghost var before := Value(Holding(m));
      var stored, seen := StoreEvent(m, o);
      steps := Extend(start, steps, before, Handle(o.decoded, o.answers, o.receiveCommit));
      if stored.MustQuarantine? {
        before := Value(Continue(m, stored));
        stored, seen := StoreOriginal(m, stored.reason, o);
        steps := Extend(start, steps, before, Retain(o.quarantineCommit));
      }
      before := Value(Continue(m, stored));
      ghost var last;
      failure, last := Settle(m, stored, seen, o);
      steps := Extend(start, steps, before, last);
    }
  }

  lemma {:induction false} ReachesAppend(a: World, steps: seq<Step>, b: World, last: Step)
    requires Reaches(a, steps, b) && Enabled(b, last)
    ensures Reaches(a, steps + [last], BrokerRuns.Next(b, last))
    decreases |steps|
  {
    if steps == [] {
      assert (steps + [last])[1..] == [];
      assert Reaches(BrokerRuns.Next(b, last), [], BrokerRuns.Next(b, last));
    } else {
      ReachesAppend(BrokerRuns.Next(a, steps[0]), steps[1..], b, last);
      assert (steps + [last])[1..] == steps[1..] + [last];
    }
  }

  lemma Extend(a: World, steps: seq<Step>, b: World, last: Step) returns (longer: seq<Step>)
    requires Reaches(a, steps, b) && Enabled(b, last)
    ensures Reaches(a, longer, BrokerRuns.Next(b, last))
  {
    ReachesAppend(a, steps, b, last);
    longer := steps + [last];
  }
}
