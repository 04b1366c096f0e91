/**
 * Exactly-once administration: the tenant ledger of internal/biz/idempotency.go and the platform
 * form of internal/biz/platform_mutations.go, over any business state and any mutations of it.
 */
module MutationLedger {
  import opened Ids

  datatype Key = Key(actor: Uuid, operation: string, key: string)

  /** The digest covers caller and fields; it is injective, so the pair stands for it. */
  datatype Intent = Intent(caller: Uuid, fields: string)
  datatype Identity = Identity(key: Key, intent: Intent)

  datatype Stored<R> = Stored(intent: Intent, result: R, expiresAt: Time)

  datatype Failure = KeyRequired | Conflict | Expired | Denied | Credential | Refused | Unavailable

  datatype Reply<R> = Replied(result: R) | Failed(error: Failure)

  const Retention: Time := 24 * Hour

  /** `precondition` is None where the operation has none; its check may outlive the caller's authority. */
  datatype Authority = Authority(admitted: Option<Failure>, precondition: Option<Option<Failure>>, stillAdmitted: Option<Failure>)

  /**
   * One call: a mutation that yields a new state and a result or refuses, how a stored result is
   * shown again (a created API key without its secret), and whether the commit happens and is seen.
   */
  datatype Request<!S, !R> = Request(
    id: Identity, now: Time, authority: Authority, mutation: S -> Option<(S, R)>, again: R -> R, commits: bool, seen: bool)

  datatype Boundary = TenantForm | PlatformForm

  /** `executed` is history: the requests whose mutation committed, in order. */
  datatype World<!S, !R> = World(boundary: Boundary, state: S, ledger: map<Key, Stored<R>>, executed: seq<Request<S, R>>)

  function TrimLeft(s: string): (t: string)
    ensures |t| <= |s| && (t == "" || !IsSpace(t[0]))
  { if s != "" && IsSpace(s[0]) then TrimLeft(s[1..]) else s }

  function TrimRight(s: string): (t: string)
    ensures |t| <= |s| && (t == "" || (!IsSpace(t[|t| - 1]) && t[0] == s[0]))
  { if s != "" && IsSpace(s[|s| - 1]) then TrimRight(s[..|s| - 1]) else s }

  function Trim(s: string): string { TrimRight(TrimLeft(s)) }

  /** The tenant ledger trims the client's key; the platform insists it comes trimmed. */
  function LedgerKey(b: Boundary, raw: string): Option<string> {
    match b
    case TenantForm => if Trim(raw) == "" || |Trim(raw)| > 256 then None else Some(Trim(raw))
    case PlatformForm => if raw == "" || raw != Trim(raw) || |raw| > 128 then None else Some(raw)
  }

  /** Platform authority is decided before any receipt is looked at, and again after a precondition. */
  function Admission(b: Boundary, a: Authority): Option<Failure> {
    if b == TenantForm then None
    else if a.admitted.Some? then a.admitted
    else if a.precondition.Some? && a.precondition.value.Some? then a.precondition.value
    else if a.precondition.Some? then a.stillAdmitted
    else None
  }

  function Execute<S, R>(w: World<S, R>, q: Request<S, R>): (World<S, R>, Reply<R>) {
    if LedgerKey(w.boundary, q.id.key.key) != Some(q.id.key.key) then (w, Failed(KeyRequired))
    else if Admission(w.boundary, q.authority).Some? then (w, Failed(Admission(w.boundary, q.authority).value))
    else if q.id.key in w.ledger then
      var stored := w.ledger[q.id.key];
      if stored.intent != q.id.intent then (w, Failed(Conflict))
      else if q.now >= stored.expiresAt then (w, Failed(Expired))
      else (w, Replied(q.again(stored.result)))
    else match q.mutation(w.state)
      case None => (w, Failed(Refused))
      case Some(done) =>
        var next := w.(state := done.0, executed := w.executed + [q],
                       ledger := w.ledger[q.id.key := Stored(q.id.intent, done.1, q.now + Retention)]);
        (if q.commits then next else w, if q.commits && q.seen then Replied(done.1) else Failed(Unavailable))
  }

  function Run<S, R>(w: World<S, R>, qs: seq<Request<S, R>>): World<S, R>
    decreases |qs|
  { if qs == [] then w else Run(Execute(w, qs[0]).0, qs[1..]) }

  /** Every executed mutation applied once, in the order of their commits. */
  ghost function Applied<S, R>(start: S, executed: seq<Request<S, R>>): Option<S>
    decreases |executed|
  {
    if executed == [] then Some(start)
    else
      match Applied(start, executed[..|executed| - 1])
      case None => None
      case Some(before) => (match executed[|executed| - 1].mutation(before) case Some(done) => Some(done.0) case None => None)
  }

  /** The ledger has one row per executed request, under its own intent, and no other row. */
  predicate LedgerInv<S, R>(ledger: map<Key, Stored<R>>, executed: seq<Request<S, R>>) {
    && (forall i, j | 0 <= i < j < |executed| :: executed[i].id.key != executed[j].id.key)
    && (forall i | 0 <= i < |executed| :: Kept(ledger, executed[i].id))
    && (forall k | k in ledger :: Executed(executed, k))
  }

  predicate Kept<R>(ledger: map<Key, Stored<R>>, id: Identity) { id.key in ledger && ledger[id.key].intent == id.intent }

  predicate Executed<S, R>(executed: seq<Request<S, R>>, k: Key) { exists i :: 0 <= i < |executed| && executed[i].id.key == k }

  ghost predicate Inv<S(!new), R(!new)>(start: S, w: World<S, R>) {
    Applied(start, w.executed) == Some(w.state) && LedgerInv(w.ledger, w.executed)
  }

  /** A request either leaves everything, or commits its own mutation under a key not used before. */
  lemma ExecuteShape<S(!new), R(!new)>(w: World<S, R>, q: Request<S, R>)
    ensures var t := Execute(w, q).0;
            || t == w
            || (&& q.id.key !in w.ledger && q.mutation(w.state).Some?
                && t == w.(state := q.mutation(w.state).value.0, executed := w.executed + [q],
                           ledger := w.ledger[q.id.key := Stored(q.id.intent, q.mutation(w.state).value.1, q.now + Retention)]))
  {}

  lemma AppendKeepsLedger<S, R>(ledger: map<Key, Stored<R>>, executed: seq<Request<S, R>>, q: Request<S, R>, s: Stored<R>)
    requires LedgerInv(ledger, executed) && q.id.key !in ledger && s.intent == q.id.intent
    ensures LedgerInv(ledger[q.id.key := s], executed + [q])
  {
    var l, e := ledger[q.id.key := s], executed + [q];
    forall i | 0 <= i < |e| ensures Kept(l, e[i].id) { if i < |executed| { assert Kept(ledger, executed[i].id); } }
    forall k | k in l ensures Executed(e, k) {
      if k in ledger {
        assert Executed(executed, k);
        var i :| 0 <= i < |executed| && executed[i].id.key == k;
        assert e[i].id.key == k;
      } else {
        assert e[|executed|].id.key == k;
      }
    }
    forall i, j | 0 <= i < j < |e| ensures e[i].id.key != e[j].id.key { assert Kept(ledger, executed[i].id); }
  }

  lemma ExecuteKeepsInv<S(!new), R(!new)>(start: S, w: World<S, R>, q: Request<S, R>)
    requires Inv(start, w)
    ensures Inv(start, Execute(w, q).0)
    ensures forall k | k in w.ledger :: k in Execute(w, q).0.ledger && Execute(w, q).0.ledger[k] == w.ledger[k]
    ensures Execute(w, q).0.boundary == w.boundary
  {
    ExecuteShape(w, q);
    var t := Execute(w, q).0;
    if t != w {
      AppendKeepsLedger(w.ledger, w.executed, q, t.ledger[q.id.key]);
      assert t.executed[..|t.executed| - 1] == w.executed;
    }
  }

  /**
   * Over every trace of retried, conflicting, failing and unseen requests: each (actor, operation,
   * key) has committed at most one effect, the ledger holds exactly those, and the state is what the
   * executed mutations make of the first one when each is applied once.
   */
  lemma {:induction false} EffectsAreExactlyOnce<S(!new), R(!new)>(start: S, w: World<S, R>, qs: seq<Request<S, R>>)
    requires Inv(start, w)
    ensures Inv(start, Run(w, qs))
    ensures forall k | k in w.ledger :: k in Run(w, qs).ledger && Run(w, qs).ledger[k] == w.ledger[k]
    ensures Run(w, qs).boundary == w.boundary
    decreases |qs|
  {
    if qs != [] {
      ExecuteKeepsInv(start, w, qs[0]);
      EffectsAreExactlyOnce(start, Execute(w, qs[0]).0, qs[1..]);
    }
  }

  function Start<S, R>(b: Boundary, start: S): World<S, R> { World(b, start, map[], []) }

  /** From the first state on: no key commits twice, each committed key is on the ledger, and every effect counts once. */
  lemma EachKeyCommitsOnce<S(!new), R(!new)>(b: Boundary, start: S, qs: seq<Request<S, R>>)
    ensures var w := Run(Start<S, R>(b, start), qs);
            && (forall i, j | 0 <= i < j < |w.executed| :: w.executed[i].id.key != w.executed[j].id.key)
            && (forall k: Key :: k in w.ledger <==> Executed(w.executed, k))
            && Applied(start, w.executed) == Some(w.state)
  {
    EffectsAreExactlyOnce(start, Start<S, R>(b, start), qs);
    var w := Run(Start<S, R>(b, start), qs);
    forall k: Key | Executed(w.executed, k) ensures k in w.ledger {
      var i :| 0 <= i < |w.executed| && w.executed[i].id.key == k;
      assert Kept(w.ledger, w.executed[i].id);
    }
  }

  /**
   * After an effect committed, seen or not, every later request under its key changes nothing, in
   * any continuation: the same intent in time gets the first result, another intent a conflict, and
   * a late one is told so.
   */
  lemma LaterRequestsReplay<S(!new), R(!new)>(start: S, w: World<S, R>, q: Request<S, R>, qs: seq<Request<S, R>>, later: Request<S, R>)
    requires Inv(start, w) && Execute(w, q).0.executed == w.executed + [q] && later.id.key == q.id.key
    requires w.boundary == TenantForm || !Barred(later.authority)
    ensures var t := Run(Execute(w, q).0, qs);
            && Execute(t, later).0 == t
            && q.mutation(w.state).Some?
            && Execute(t, later).1 ==
                 if later.id.intent != q.id.intent then Failed(Conflict)
                 else if later.now >= q.now + 24 * Hour then Failed(Expired)
                 else Replied(later.again(q.mutation(w.state).value.1))
  {
    ExecuteShape(w, q);
    ExecuteKeepsInv(start, w, q);
    EffectsAreExactlyOnce(start, Execute(w, q).0, qs);
    assert |Execute(w, q).0.executed| == |w.executed| + 1;
    KeyWasUsable(w, q);
    assert Admission(w.boundary, later.authority).None?;
    StoredAnswers(Run(Execute(w, q).0, qs), later);
  }

  lemma KeyWasUsable<S(!new), R(!new)>(w: World<S, R>, q: Request<S, R>)
    requires |Execute(w, q).0.executed| != |w.executed|
    ensures LedgerKey(w.boundary, q.id.key.key) == Some(q.id.key.key)
  {}

  /** The answer of a request whose key is in the ledger. */
  lemma StoredAnswers<S, R>(w: World<S, R>, q: Request<S, R>)
    requires LedgerKey(w.boundary, q.id.key.key) == Some(q.id.key.key)
    requires Admission(w.boundary, q.authority).None? && q.id.key in w.ledger
    ensures var stored := w.ledger[q.id.key];
            Execute(w, q) == (w, if stored.intent != q.id.intent then Failed(Conflict)
                                 else if q.now >= stored.expiresAt then Failed(Expired)
                                 else Replied(q.again(stored.result)))
  {}

  /** Not admitted, or the precondition failed, or authority was gone once the precondition had been checked. */
  predicate Barred(a: Authority) {
    a.admitted.Some? || (a.precondition.Some? && (a.precondition.value.Some? || a.stillAdmitted.Some?))
  }

  /** A platform caller without current authority learns nothing a receipt could tell, and changes nothing. */
  lemma UnauthorizedNeverSeesReceipts<S, R>(w: World<S, R>, other: World<S, R>, q: Request<S, R>)
    requires w.boundary == PlatformForm == other.boundary && Barred(q.authority)
    ensures Execute(w, q).1 == Execute(other, q).1 && Execute(w, q).1.Failed? && Execute(w, q).0 == w
  {}

  /** Of a usable length for the boundary, without white space around it. */
  predicate KeyFits(b: Boundary, key: string) {
    key != "" && !IsSpace(key[0]) && !IsSpace(key[|key| - 1]) && |key| <= (if b == TenantForm then 256 else 128)
  }

  /** Exactly such a key is on the ledger under its own text. */
  lemma KeyUsableIff(b: Boundary, key: string)
    ensures LedgerKey(b, key) == Some(key) <==> KeyFits(b, key)
  {
    var _, _ := TrimIsExact(key);
  }

  /**
   * A first request, by an admitted caller, executes its mutation once: state, result and a ledger row kept
   * for a day, all of it or nothing as the commit goes. No other request executes.
   */
  lemma FirstRequestExecutes<S, R>(w: World<S, R>, q: Request<S, R>)
    ensures var (t, reply) := Execute(w, q); var done := q.mutation(w.state);
            if KeyFits(w.boundary, q.id.key.key) && (w.boundary == TenantForm || !Barred(q.authority)) && q.id.key !in w.ledger && done.Some? && q.commits
            then
              && t == World(w.boundary, done.value.0, w.ledger[q.id.key := Stored(q.id.intent, done.value.1, q.now + 24 * Hour)], w.executed + [q])
              && reply == if q.seen then Replied(done.value.1) else Failed(Unavailable)
            else t == w
  {
    KeyUsableIff(w.boundary, q.id.key.key);
  }

  /** What each refusal is told, in the order the checks are made. */
  lemma RefusalsAreTold<S, R>(w: World<S, R>, q: Request<S, R>)
    ensures var reply := Execute(w, q).1; var a := q.authority;
            && (!KeyFits(w.boundary, q.id.key.key) ==> reply == Failed(KeyRequired))
            && (KeyFits(w.boundary, q.id.key.key) && w.boundary == PlatformForm && Barred(a) ==>
                  reply == Failed(if a.admitted.Some? then a.admitted.value
                                  else if a.precondition.value.Some? then a.precondition.value.value else a.stillAdmitted.value))
            && (KeyFits(w.boundary, q.id.key.key) && (w.boundary == TenantForm || !Barred(a)) && q.id.key !in w.ledger ==>
                  && (q.mutation(w.state).None? ==> reply == Failed(Refused))
                  && (q.mutation(w.state).Some? && !q.commits ==> reply == Failed(Unavailable)))
  {
    KeyUsableIff(w.boundary, q.id.key.key);
  }

  /** A trace is its first request, then the rest. */
  lemma {:induction false} RunSplits<S, R>(w: World<S, R>, a: seq<Request<S, R>>, b: seq<Request<S, R>>)
    ensures Run(w, a + b) == Run(Run(w, a), b) && (|a| == 1 ==> Run(w, a) == Execute(w, a[0]).0)
    decreases |a|
  {
    if a == [] { assert a + b == b; }
    else {
      RunSplits(Execute(w, a[0]).0, a[1..], b);
      assert (a + b)[1..] == a[1..] + b;
    }
  }

  lemma {:induction false} TrimLeftIsExact(s: string) returns (n: nat)
    ensures n <= |s| && TrimLeft(s) == s[n..] && forall i | 0 <= i < n :: IsSpace(s[i])
    decreases |s|
  {
    if s != "" && IsSpace(s[0]) {
      n := TrimLeftIsExact(s[1..]);
      assert s[1..][n..] == s[n + 1..] && forall i | 0 < i < n + 1 :: s[i] == s[1..][i - 1];
      n := n + 1;
    } else {
      n := 0;
    }
  }

  lemma {:induction false} TrimRightIsExact(s: string) returns (n: nat)
    ensures n <= |s| && TrimRight(s) == s[..n] && forall i | n <= i < |s| :: IsSpace(s[i])
    decreases |s|
  {
    if s != "" && IsSpace(s[|s| - 1]) {
      n := TrimRightIsExact(s[..|s| - 1]);
      assert s[..|s| - 1][..n] == s[..n];
    } else {
      n := |s|;
    }
  }

  /** Trimming removes white space at both ends and nothing else. */
  lemma TrimIsExact(s: string) returns (from: nat, to: nat)
    ensures from <= to <= |s| && Trim(s) == s[from..to]
    ensures (forall i | 0 <= i < from || to <= i < |s| :: IsSpace(s[i])) && (Trim(s) != "" ==> !IsSpace(Trim(s)[0]) && !IsSpace(Trim(s)[|Trim(s)| - 1]))
    ensures Trim(s) == s <==> s == "" || (!IsSpace(s[0]) && !IsSpace(s[|s| - 1]))
  {
    from := TrimLeftIsExact(s);
    var n := TrimRightIsExact(s[from..]);
    to := from + n;
    forall i | 0 <= i < from || to <= i < |s| ensures IsSpace(s[i]) { if i >= to { assert s[i] == s[from..][i - from]; } }
  }

  /** Trimming is idempotent, so a trimmed key names the same ledger row however it was sent. */
  lemma TrimIdempotent(s: string)
    ensures Trim(Trim(s)) == Trim(s)
    ensures LedgerKey(TenantForm, s).Some? ==> LedgerKey(TenantForm, LedgerKey(TenantForm, s).value) == LedgerKey(TenantForm, s)
  {
    var t := TrimLeft(s);
    assert Trim(s) == "" || Trim(s)[0] == t[0];
  }

  class Ledger<!S(!new), !R(!new)> {
    const boundary: Boundary
    var state: S
    var rows: map<Key, Stored<R>>
    ghost var executed: seq<Request<S, R>>

    constructor (boundary: Boundary, state: S)
      ensures Value() == Start(boundary, state)
    { this.boundary, this.state, rows, executed := boundary, state, map[], []; }

    ghost function Value(): World<S, R> reads this { World(boundary, state, rows, executed) }

    /** executeMutation and mutateWithPrecondition; an uncommitted transaction restores what it wrote. */
    method Mutate(q: Request<S, R>) returns (reply: Reply<R>)
      modifies this
      ensures (Value(), reply) == Execute(old(Value()), q)
    {
      if LedgerKey(boundary, q.id.key.key) != Some(q.id.key.key) { return Failed(KeyRequired); }
      if boundary == PlatformForm {
        if q.authority.admitted.Some? { return Failed(q.authority.admitted.value); }
        if q.authority.precondition.Some? {
          if q.authority.precondition.value.Some? { return Failed(q.authority.precondition.value.value); }
          if q.authority.stillAdmitted.Some? { return Failed(q.authority.stillAdmitted.value); }
        }
      }
      if q.id.key in rows {
        var stored := rows[q.id.key];
        if stored.intent != q.id.intent { return Failed(Conflict); }
        if q.now >= stored.expiresAt { return Failed(Expired); }
        return Replied(q.again(stored.result));
      }
      var done := q.mutation(state);
      if done.None? { return Failed(Refused); }
      if q.commits {
        state := done.value.0;
        rows := rows[q.id.key := Stored(q.id.intent, done.value.1, q.now + Retention)];
        executed := executed + [q];
      }
      return if q.commits && q.seen then Replied(done.value.1) else Failed(Unavailable);
    }
  }
}
