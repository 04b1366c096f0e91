/**
 * One outbox row under any number of dispatchers, lease expiries and crashes: the identity
 * notifications of internal/biz/identity_notification.go and the password-action notifications
 * of internal/biz/password_action_notification.go. Times are nanoseconds.
 */
module Notifications {
  import opened Ids
  import opened Backoff

  type Nanos = int
  const Lease: Nanos := 300 * OneSecond
  const MaxAttempts := 20

  datatype Family = Identity | Password
  datatype Status = Pending | Claimed | Delivered | Cancelled | Attention
  datatype Row = Row(status: Status, attempts: nat, version: nat, availableAt: Nanos, claimedAt: Nanos)

  /** What a dispatcher holding a claim will do next. */
  datatype Stage = Taken | Cleared | Ending(outcome: Status, next: Nanos)
  datatype Held = Held(version: nat, takenAt: Nanos, stage: Stage)

  /** `claims` are the dispatchers at work, by attempt number; `sent` is every submission made. */
  datatype World = World(family: Family, expiresAt: Nanos, row: Row, claims: map<int, Held>, sent: seq<int>)

  /**
   * `open`: the row's source is pending and unexpired on the database clock. `fault` is a payload that
   * does not validate, or an action token that could not be issued; its value says whether for good.
   * Cancel stands for resending, cancelling, accepting or superseding the source.
   */
  datatype Step =
    | Take(now: Nanos, open: bool)
    | Check(attempt: int, now: Nanos, open: bool, validClaim: bool, fault: Option<bool>)
    | Send(attempt: int, accepted: bool, permanent: bool, now: Nanos)
    | Finish(attempt: int)
    | Crash(attempt: int)
    | Cancel

  function Initial(family: Family, createdAt: Nanos, expiresAt: Nanos): World {
    World(family, expiresAt, Row(Pending, 0, 1, createdAt, 0), map[], [])
  }

  predicate Settled(s: Status) { s == Delivered || s == Cancelled || s == Attention }

  /** The claim query; the password form also wants the action active and unexpired. */
  predicate Claimable(w: World, now: Nanos, open: bool) {
    && ((w.row.status == Pending && w.row.availableAt <= now) || (w.row.status == Claimed && w.row.claimedAt <= now - Lease))
    && (w.family == Password ==> open && now < w.expiresAt)
  }

  /** IdentityNotificationDispatcher.failure and PasswordActionNotificationDispatcher.finishFailure. */
  function Failure(family: Family, attempt: int, permanent: bool, now: Nanos, expiresAt: Nanos): (r: Stage)
    requires attempt >= 1
    ensures r.Ending? && (r.outcome == Pending || Settled(r.outcome))
    ensures r.outcome == Pending <==> !permanent && attempt < 20 && now + Doubling(attempt, 300) < expiresAt
    ensures r.outcome == Pending ==> r.next == now + Doubling(attempt, 300)
  {
    match family
    case Identity =>
      if permanent || attempt >= MaxAttempts then Ending(Attention, now)
      else
        IdentityDelayIsDoubling(attempt);
        var next := now + IdentityDelay(attempt);
        if next >= expiresAt then Ending(Cancelled, now) else Ending(Pending, next)
    case Password =>
      var availableAt := now + Doubling(attempt, 300);
      if permanent || attempt >= MaxAttempts || availableAt >= expiresAt then Ending(Attention, now)
      else Ending(Pending, availableAt)
  }

  /** After the claim: identity rechecks the row, its source and the attempt bound; password does not. */
  function Verdict(w: World, attempt: int, now: Nanos, open: bool, validClaim: bool, fault: Option<bool>): Stage
    requires attempt in w.claims && attempt >= 1
  {
    var c := w.claims[attempt];
    match w.family
    case Identity =>
      if !validClaim then Failure(Identity, attempt, true, now, w.expiresAt)
      else if !(w.row.version == c.version && w.row.status == Claimed && open) || c.takenAt >= w.expiresAt then Ending(Cancelled, c.takenAt)
      else if attempt > MaxAttempts || fault.Some? then Failure(Identity, attempt, true, now, w.expiresAt)
      else Cleared
    case Password =>
      if !validClaim || c.takenAt >= w.expiresAt then Failure(Password, attempt, true, now, w.expiresAt)
      else if fault.Some? then Failure(Password, attempt, fault.value, now, w.expiresAt)
      else Cleared
  }

  /** The guarded update: only the exact claimed version is finished. */
  function Finished(r: Row, c: Held): Row requires c.stage.Ending? {
    if r.status == Claimed && r.version == c.version
    then r.(status := c.stage.outcome, version := r.version + 1,
            availableAt := if c.stage.outcome == Pending then c.stage.next else r.availableAt)
    else r
  }

  /** Invitation and verification rows are cancelled even when they ask for attention. */
  predicate Cancellable(family: Family, s: Status) { s == Pending || s == Claimed || (family == Identity && s == Attention) }

  function Withdrawn(family: Family, r: Row): Row {
    if Cancellable(family, r.status) then r.(status := Cancelled, version := r.version + 1) else r
  }

  /** A dispatcher's own clock does not go back between its claim and what follows. */
  predicate Enabled(w: World, step: Step) {
    match step
    case Take(now, open) => Claimable(w, now, open)
    case Check(a, now, _, _, _) => a in w.claims && a >= 1 && w.claims[a].stage == Taken && w.claims[a].takenAt <= now
    case Send(a, _, _, now) => a in w.claims && a >= 1 && w.claims[a].stage == Cleared && w.claims[a].takenAt <= now
    case Finish(a) => a in w.claims && w.claims[a].stage.Ending?
    case Crash(a) => a in w.claims
    case Cancel => true
  }

  function Next(w: World, step: Step): World
    requires Enabled(w, step)
  {
    match step
    case Take(now, _) =>
      var row := w.row.(status := Claimed, attempts := w.row.attempts + 1, version := w.row.version + 1, claimedAt := now);
      w.(row := row, claims := w.claims[row.attempts := Held(row.version, now, Taken)])
    case Check(a, now, open, validClaim, fault) =>
      w.(claims := w.claims[a := w.claims[a].(stage := Verdict(w, a, now, open, validClaim, fault))])
    case Send(a, accepted, permanent, now) =>
      var stage := if accepted then Ending(Delivered, now) else Failure(w.family, a, permanent, now, w.expiresAt);
      w.(sent := w.sent + [a], claims := w.claims[a := w.claims[a].(stage := stage)])
    case Finish(a) => w.(row := Finished(w.row, w.claims[a]), claims := w.claims - {a})
    case Crash(a) => w.(claims := w.claims - {a})
    case Cancel => w.(row := Withdrawn(w.family, w.row))
  }

  ghost predicate Reaches(w: World, steps: seq<Step>, end: World)
    decreases |steps|
  {
    if steps == [] then w == end else Enabled(w, steps[0]) && Reaches(Next(w, steps[0]), steps[1..], end)
  }

  // ---- What each step does, in the stored values ------------------------------------------------

  /** A row is due when it waits and its time has come, or was claimed five minutes ago; a password row only while its action lives. */
  lemma ClaimedExactly(w: World, now: Nanos, open: bool)
    ensures Enabled(w, Take(now, open)) <==>
              && ((w.row.status == Pending && w.row.availableAt <= now) || (w.row.status == Claimed && w.row.claimedAt + 300 * OneSecond <= now))
              && (w.family == Password ==> open && now < w.expiresAt)
    ensures Enabled(w, Take(now, open)) ==>
              Next(w, Take(now, open)) ==
                w.(row := Row(Claimed, w.row.attempts + 1, w.row.version + 1, w.row.availableAt, now),
                   claims := w.claims[w.row.attempts + 1 := Held(w.row.version + 1, now, Taken)])
  {}

  /** A failed attempt: tried again after its delay; otherwise cancelled if an invitation has just run out of time, and else left to an operator. */
  lemma FailedExactly(family: Family, attempt: int, permanent: bool, now: Nanos, expiresAt: Nanos)
    requires attempt >= 1
    ensures Failure(family, attempt, permanent, now, expiresAt) ==
              if permanent || attempt >= 20 then Ending(Attention, now)
              else if now + Doubling(attempt, 300) < expiresAt then Ending(Pending, now + Doubling(attempt, 300))
              else Ending(if family == Identity then Cancelled else Attention, now)
  {
    IdentityDelayIsDoubling(attempt);
  }

  /**
   * What a claim is found to be: malformed; no longer its row's, or past expiry; undeliverable; or cleared to be
   * sent. Only an identity notification is rechecked against its source and its attempt bound.
   */
  lemma CheckedExactly(w: World, attempt: int, now: Nanos, open: bool, validClaim: bool, fault: Option<bool>)
    requires Enabled(w, Check(attempt, now, open, validClaim, fault))
    ensures var c := w.claims[attempt]; var t := Next(w, Check(attempt, now, open, validClaim, fault));
            && t == w.(claims := w.claims[attempt := c.(stage := t.claims[attempt].stage)])
            && t.claims[attempt].stage ==
                 if w.family == Identity then
                   if !validClaim then Ending(Attention, now)
                   else if !open || w.row.status != Claimed || w.row.version != c.version || w.expiresAt <= c.takenAt then Ending(Cancelled, c.takenAt)
                   else if attempt > 20 || fault.Some? then Ending(Attention, now) else Cleared
                 else if !validClaim || w.expiresAt <= c.takenAt then Ending(Attention, now)
                 else if fault.Some? then Failure(Password, attempt, fault.value, now, w.expiresAt) else Cleared
  {}

  /** Only a cleared claim is sent, once; then it ends delivered, or as its failure has it. */
  lemma SentExactly(w: World, attempt: int, accepted: bool, permanent: bool, now: Nanos)
    requires Enabled(w, Send(attempt, accepted, permanent, now))
    ensures w.claims[attempt].stage == Cleared
    ensures var t := Next(w, Send(attempt, accepted, permanent, now)); var c := w.claims[attempt];
            && t == w.(sent := w.sent + [attempt], claims := w.claims[attempt := c.(stage := t.claims[attempt].stage)])
            && t.claims[attempt].stage == if accepted then Ending(Delivered, now) else Failure(w.family, attempt, permanent, now, w.expiresAt)
  {}

  /** A claim is saved over its own row version only, and a save changes status, version and next time. */
  lemma FinishedExactly(w: World, attempt: int)
    requires Enabled(w, Finish(attempt))
    ensures var c := w.claims[attempt]; var t := Next(w, Finish(attempt));
            && t.claims == w.claims - {attempt} && t.sent == w.sent
            && t.row == if w.row.status == Claimed && w.row.version == c.version
                        then Row(c.stage.outcome, w.row.attempts, w.row.version + 1,
                                 if c.stage.outcome == Pending then c.stage.next else w.row.availableAt, w.row.claimedAt)
                        else w.row
  {}

  /** Withdrawing the source cancels a waiting or claimed row, and an identity row that asked for attention. */
  lemma CancelledExactly(w: World)
    ensures Next(w, Cancel) ==
              if w.row.status == Pending || w.row.status == Claimed || (w.row.status == Attention && w.family == Identity)
              then w.(row := Row(Cancelled, w.row.attempts, w.row.version + 1, w.row.availableAt, w.row.claimedAt)) else w
  {}

  // ---- Every run ------------------------------------------------------------------------------

  predicate NoRepeat(s: seq<int>) { forall i, j | 0 <= i < j < |s| :: s[i] != s[j] }

  predicate Inv(w: World) {
    && NoRepeat(w.sent)
    && (forall a | a in w.sent :: 1 <= a <= w.row.attempts && (w.family == Identity ==> a <= MaxAttempts))
    && (forall a | a in w.claims :: ClaimInv(w, a, w.claims[a]))
    && (w.row.status == Pending ==> w.row.attempts < MaxAttempts && (w.row.attempts == 0 || w.row.availableAt < w.expiresAt))
  }

  predicate ClaimInv(w: World, a: int, c: Held) {
    && 1 <= a <= w.row.attempts && c.version <= w.row.version
    && (c.version == w.row.version ==> a == w.row.attempts)
    && (c.stage == Taken || c.stage == Cleared ==> a !in w.sent)
    && (c.stage == Cleared && w.family == Identity ==> a <= MaxAttempts)
    && (c.stage.Ending? ==> c.stage.outcome == Pending || Settled(c.stage.outcome))
    && (c.stage.Ending? && c.stage.outcome == Pending ==> a < MaxAttempts && c.stage.next < w.expiresAt)
  }

  lemma StepKeepsInv(w: World, step: Step)
    requires Inv(w) && Enabled(w, step)
    ensures Inv(Next(w, step))
    ensures Settled(w.row.status) ==> Next(w, step).row == w.row || (w.row.status == Attention && Next(w, step).row.status == Cancelled)
  {
    var t := Next(w, step);
    forall a | a in t.claims ensures ClaimInv(t, a, t.claims[a]) {
      if a in w.claims { assert ClaimInv(w, a, w.claims[a]); }
    }
    if step.Send? { assert ClaimInv(w, step.attempt, w.claims[step.attempt]); }
    if step.Finish? { assert ClaimInv(w, step.attempt, w.claims[step.attempt]); }
  }

  /** Delivered and cancelled are final; attention can only still be cancelled with its source. */
  lemma {:induction false} RunKeepsInv(w: World, steps: seq<Step>, end: World)
    requires Inv(w) && Reaches(w, steps, end)
    ensures Inv(end) && end.family == w.family && end.expiresAt == w.expiresAt
    ensures Settled(w.row.status) ==> end.row == w.row || (w.row.status == Attention && end.row.status == Cancelled)
    decreases |steps|
  {
    if steps != [] {
      StepKeepsInv(w, steps[0]);
      RunKeepsInv(Next(w, steps[0]), steps[1..], end);
    }
  }

  lemma {:induction false} NoRepeatIsShort(s: seq<int>, bound: nat)
    requires NoRepeat(s) && forall a | a in s :: 1 <= a <= bound
    ensures |s| <= bound
    decreases bound
  {
    if s != [] {
      assert s[0] in s;
      if i :| 0 <= i < |s| && s[i] == bound {
        var rest := s[..i] + s[i + 1..];
        forall a | a in rest ensures 1 <= a <= bound - 1 { assert a in s && a != bound; }
        NoRepeatIsShort(rest, bound - 1);
      } else {
        NoRepeatIsShort(s, bound - 1);
      }
    }
  }

  /**
   * Every run of the identity outbox, with crashes and reclaims: at most 20 submissions, no claim
   * submitting twice, never put back to pending at or after expiry, and final once settled.
   */
  lemma IdentityRunsAreBounded(createdAt: Nanos, expiresAt: Nanos, steps: seq<Step>, end: World)
    requires Reaches(Initial(Identity, createdAt, expiresAt), steps, end)
    ensures |end.sent| <= 20 && NoRepeat(end.sent)
    ensures end.row.status == Pending ==> end.row.attempts < 20
    ensures end.row.status == Pending && end.row.attempts > 0 ==> end.row.availableAt < expiresAt
  {
    RunKeepsInv(Initial(Identity, createdAt, expiresAt), steps, end);
    NoRepeatIsShort(end.sent, MaxAttempts);
  }

  // ---- How many attempts fit before expiry ------------------------------------------------------

  /** How long after creation the k-th claim is made at the earliest. */
  function Earliest(k: nat): Nanos { if k <= 1 then 0 else Earliest(k - 1) + Doubling(k - 1, 300) }

  predicate TimingInv(w: World, created: Nanos) {
    && (w.row.status == Claimed ==> w.row.attempts >= 1 && created + Earliest(w.row.attempts) <= w.row.claimedAt)
    && (w.row.status == Pending ==> created + Earliest(w.row.attempts + 1) <= w.row.availableAt)
    && (forall a | a in w.claims :: ClaimTiming(a, w.claims[a], created))
    && (w.family == Password && w.row.attempts >= 1 ==> created + Earliest(w.row.attempts) < w.expiresAt)
  }

  predicate ClaimTiming(a: int, c: Held, created: Nanos) {
    && a >= 1 && created + Earliest(a) <= c.takenAt
    && (c.stage.Ending? && c.stage.outcome == Pending ==> created + Earliest(a + 1) <= c.stage.next)
  }

  lemma DoublingWithinLease(attempt: int)
    requires attempt >= 1
    ensures OneSecond <= Doubling(attempt, 300) <= Lease
  {}

  lemma TakeKeepsTiming(w: World, created: Nanos, now: Nanos, open: bool)
    requires TimingInv(w, created) && Enabled(w, Take(now, open))
    ensures TimingInv(Next(w, Take(now, open)), created)
  {
    if w.row.attempts >= 1 { DoublingWithinLease(w.row.attempts); }
  }

  lemma StepKeepsTiming(w: World, created: Nanos, step: Step)
    requires Inv(w) && TimingInv(w, created) && Enabled(w, step)
    ensures TimingInv(Next(w, step), created)
  {
    match step
    case Take(now, open) => TakeKeepsTiming(w, created, now, open);
    case Finish(a) => assert ClaimInv(w, a, w.claims[a]) && ClaimTiming(a, w.claims[a], created);
    case Check(a, _, _, _, _) => assert ClaimTiming(a, w.claims[a], created);
    case Send(a, _, _, _) => assert ClaimTiming(a, w.claims[a], created);
    case _ =>
  }

  lemma {:induction false} RunKeepsTiming(w: World, created: Nanos, steps: seq<Step>, end: World)
    requires Inv(w) && TimingInv(w, created) && Reaches(w, steps, end)
    ensures Inv(end) && TimingInv(end, created) && end.expiresAt == w.expiresAt && end.family == w.family
    decreases |steps|
  {
    if steps != [] {
      StepKeepsInv(w, steps[0]);
      StepKeepsTiming(w, created, steps[0]);
      RunKeepsTiming(Next(w, steps[0]), created, steps[1..], end);
    }
  }

  lemma {:induction false} EarliestGrows(a: nat, b: nat)
    requires a <= b
    ensures Earliest(a) <= Earliest(b)
    decreases b
  {
    if a < b {
      EarliestGrows(a, b - 1);
      if b >= 2 { DoublingWithinLease(b - 1); }
    }
  }

  lemma FirstTen()
    ensures Earliest(10) == 511 * OneSecond
  {
    Pow2Values();
    assert Earliest(4) == 7 * OneSecond;
    assert Earliest(7) == 63 * OneSecond;
  }

  lemma Pow2Values()
    ensures Pow2(0) == 1 && Pow2(1) == 2 && Pow2(2) == 4 && Pow2(3) == 8 && Pow2(4) == 16
    ensures Pow2(5) == 32 && Pow2(6) == 64 && Pow2(7) == 128 && Pow2(8) == 256 && Pow2(9) == 512
  {
    assert Pow2(3) == 8;
    assert Pow2(6) == 64;
  }

  /** From the tenth claim on, claims are five minutes apart: 511 s for the tenth, 1711 for the 14th, 2011 for the 15th, 3811 for the 21st. */
  lemma {:induction false} EarliestFromTen(k: nat)
    requires k >= 10
    ensures Earliest(k) == (511 + 300 * (k - 10)) * OneSecond
    decreases k
  {
    if k == 10 {
      FirstTen();
    } else {
      EarliestFromTen(k - 1);
      Pow2Values();
      Pow2Monotone(9, k - 2);
    }
  }

  /**
   * Every run of the password outbox, with crashes, reclaims and dispatchers on different clocks: an
   * attempt numbered n was made only if the action lives longer than the n-th claim takes at the
   * earliest, and every submission is an attempt of its own.
   */
  lemma PasswordAttemptsFitLifetime(created: Nanos, lifetime: Nanos, steps: seq<Step>, end: World)
    requires Reaches(Initial(Password, created, created + lifetime), steps, end)
    ensures end.row.attempts == 0 || Earliest(end.row.attempts) < lifetime
    ensures NoRepeat(end.sent) && |end.sent| <= end.row.attempts
  {
    RunKeepsTiming(Initial(Password, created, created + lifetime), created, steps, end);
    NoRepeatIsShort(end.sent, end.row.attempts);
  }

  /** passwordActionLifetime. */
  const ActionLifetime: Nanos := 1800 * OneSecond

  lemma FourteenthIsLast(k: nat)
    requires k == 0 || Earliest(k) < ActionLifetime
    ensures k <= 14
  {
    if k > 14 {
      EarliestGrows(15, k);
      EarliestFromTen(15);
    }
  }

  /** Within the thirty minutes an action lives there are at most 14 attempts, so the bound of 20 always holds. */
  lemma PasswordRunsAreBounded(created: Nanos, steps: seq<Step>, end: World)
    requires Reaches(Initial(Password, created, created + 30 * 60 * OneSecond), steps, end)
    ensures end.row.attempts <= 14 && |end.sent| <= 14 && NoRepeat(end.sent)
    ensures end.row.status == Pending && end.row.attempts > 0 ==> end.row.availableAt < created + 30 * 60 * OneSecond
  {
    PasswordAttemptsFitLifetime(created, ActionLifetime, steps, end);
    RunKeepsInv(Initial(Password, created, created + ActionLifetime), steps, end);
    FourteenthIsLast(end.row.attempts);
  }

  // ---- and that all of them can be used ---------------------------------------------------------

  lemma {:induction false} ReachesAppend(w: World, a: seq<Step>, mid: World, b: seq<Step>, end: World)
    requires Reaches(w, a, mid) && Reaches(mid, b, end)
    ensures Reaches(w, a + b, end)
    decreases |a|
  {
    if a == [] { assert a + b == b; }
    else {
      ReachesAppend(Next(w, a[0]), a[1..], mid, b, end);
      assert (a + b)[1..] == a[1..] + b;
    }
  }

  lemma Extend(w: World, steps: seq<Step>, mid: World, step: Step) returns (longer: seq<Step>)
    requires Reaches(w, steps, mid) && Enabled(mid, step)
    ensures Reaches(w, longer, Next(mid, step))
  {
    assert [step][1..] == [];
    assert Reaches(Next(mid, step), [], Next(mid, step));
    ReachesAppend(w, steps, mid, [step], Next(mid, step));
    longer := steps + [step];
  }

  /** n submissions were made, none is under way, and the row can be claimed again at the earliest time or not before expiry. */
  predicate Climbed(w: World, created: Nanos, lifetime: Nanos, n: nat) {
    && w.family == Password && w.expiresAt == created + lifetime && w.claims == map[] && |w.sent| == n && w.row.attempts == n
    && (Earliest(n + 1) < lifetime ==> Claimable(w, created + Earliest(n + 1), true))
  }

  /** Claim at the earliest time, submit, fail retryably, and save that where it leads to another try, or crash. */
  lemma Climb(created: Nanos, lifetime: Nanos, steps: seq<Step>, w: World, n: nat) returns (longer: seq<Step>, end: World)
    requires Reaches(Initial(Password, created, created + lifetime), steps, w) && Climbed(w, created, lifetime, n)
    requires Earliest(n + 1) < lifetime
    ensures Reaches(Initial(Password, created, created + lifetime), longer, end) && Climbed(end, created, lifetime, n + 1)
  {
    var start, at, a := Initial(Password, created, created + lifetime), created + Earliest(n + 1), n + 1;
    longer := Extend(start, steps, w, Take(at, true));
    end := Next(w, Take(at, true));
    longer := Extend(start, longer, end, Check(a, at, true, true, None));
    end := Next(end, Check(a, at, true, true, None));
    longer := Extend(start, longer, end, Send(a, false, false, at));
    end := Next(end, Send(a, false, false, at));
    var last := if a < MaxAttempts && Earliest(a + 1) < lifetime then Finish(a) else Crash(a);
    longer := Extend(start, longer, end, last);
    end := Next(end, last);
    assert end.claims == map[];
    if a >= MaxAttempts { Pow2Monotone(9, a - 1); Pow2Values(); }
  }

  lemma {:induction false} ClimbTo(created: Nanos, lifetime: Nanos, n: nat) returns (steps: seq<Step>, end: World)
    requires n == 0 || Earliest(n) < lifetime
    ensures Reaches(Initial(Password, created, created + lifetime), steps, end) && Climbed(end, created, lifetime, n)
    decreases n
  {
    if n == 0 {
      steps, end := [], Initial(Password, created, created + lifetime);
    } else {
      EarliestGrows(n - 1, n);
      steps, end := ClimbTo(created, lifetime, n - 1);
      steps, end := Climb(created, lifetime, steps, end, n - 1);
    }
  }

  ghost predicate SubmitsIn(created: Nanos, lifetime: Nanos, n: nat, steps: seq<Step>, end: World) {
    Reaches(Initial(Password, created, created + lifetime), steps, end) && |end.sent| == n
  }

  ghost predicate CanSubmit(created: Nanos, lifetime: Nanos, n: nat) {
    exists steps, end :: SubmitsIn(created, lifetime, n, steps, end)
  }

  /**
   * For every lifetime exactly n submissions are possible if and only if the n-th earliest claim
   * precedes expiry: 14 in thirty minutes, and more than 20 only for an action living past 3811 seconds.
   */
  lemma SubmissionsPossibleIff(created: Nanos, lifetime: Nanos, n: nat)
    ensures CanSubmit(created, lifetime, n) <==> n == 0 || Earliest(n) < lifetime
  {
    if n == 0 || Earliest(n) < lifetime {
      var steps, end := ClimbTo(created, lifetime, n);
      assert SubmitsIn(created, lifetime, n, steps, end);
    }
    if CanSubmit(created, lifetime, n) {
      var steps, end :| SubmitsIn(created, lifetime, n, steps, end);
      PasswordAttemptsFitLifetime(created, lifetime, steps, end);
      EarliestGrows(n, end.row.attempts);
    }
  }

  /** Fourteen submissions are reached, a fifteenth is not, and passing 20 takes a longer life than actions have. */
  lemma FourteenIsExact(created: Nanos, lifetime: Nanos)
    ensures CanSubmit(created, 30 * 60 * OneSecond, 14) && !CanSubmit(created, 30 * 60 * OneSecond, 15)
    ensures CanSubmit(created, lifetime, 21) <==> lifetime > 3811 * OneSecond
  {
    EarliestFromTen(14);
    EarliestFromTen(15);
    EarliestFromTen(21);
    SubmissionsPossibleIff(created, ActionLifetime, 14);
    SubmissionsPossibleIff(created, ActionLifetime, 15);
    SubmissionsPossibleIff(created, lifetime, 21);
  }

  // ---- Settling -------------------------------------------------------------------------------

  /** One dispatcher that does not crash: claim, check, submit if cleared, save. */
  function Dispatch(w: World, now: Nanos, open: bool, validClaim: bool, fault: Option<bool>, accepted: bool, permanent: bool): World {
    if !Claimable(w, now, open) then w
    else
      var a := w.row.attempts + 1;
      var checked := Next(Next(w, Take(now, open)), Check(a, now, open, validClaim, fault));
      var ended := if checked.claims[a].stage == Cleared then Next(checked, Send(a, accepted, permanent, now)) else checked;
      Next(ended, Finish(a))
  }

  /** No further try: the failure is for good, the attempts are used up, or the next try would not precede expiry. */
  predicate Final(w: World, attempt: nat, now: Nanos, permanent: bool) {
    permanent || attempt >= 20 || now + Doubling(attempt, 300) >= w.expiresAt
  }

  /** When one dispatch brings a due row to rest, for either family. */
  lemma DispatchSettlesIff(w: World, now: Nanos, open: bool, validClaim: bool, fault: Option<bool>, accepted: bool, permanent: bool)
    requires Inv(w) && !Settled(w.row.status) && Claimable(w, now, open)
    ensures var t := Dispatch(w, now, open, validClaim, fault, accepted, permanent);
            var a := w.row.attempts + 1;
            Settled(t.row.status) <==>
              || !validClaim
              || (w.family == Identity && (!open || fault.Some?))
              || (if fault.Some? then Final(w, a, now, fault.value) else accepted || Final(w, a, now, permanent))
  {
    DoublingWithinLease(w.row.attempts + 1);
  }

  /** The step that brings the row to rest: a cancellation, or the save of the current claim with a final outcome. */
  predicate Settles(w: World, step: Step)
    requires Enabled(w, step)
  {
    || step.Cancel?
    || (step.Finish? && Settled(w.claims[step.attempt].stage.outcome) && w.row.status == Claimed && w.claims[step.attempt].version == w.row.version)
  }

  ghost predicate SettlesDuring(w: World, steps: seq<Step>)
    decreases |steps|
  {
    steps != [] && Enabled(w, steps[0]) && (Settles(w, steps[0]) || SettlesDuring(Next(w, steps[0]), steps[1..]))
  }

  /** Over every run of either family an unsettled row is settled exactly by such a step. */
  lemma {:induction false} SettlesOnlySo(w: World, steps: seq<Step>, end: World)
    requires Inv(w) && !Settled(w.row.status) && Reaches(w, steps, end)
    ensures Settled(end.row.status) <==> SettlesDuring(w, steps)
    decreases |steps|
  {
    if steps != [] {
      var next := Next(w, steps[0]);
      StepKeepsInv(w, steps[0]);
      if Settled(next.row.status) {
        RunKeepsInv(next, steps[1..], end);
      } else {
        SettlesOnlySo(next, steps[1..], end);
      }
    }
  }

  /** Every claim attempted from here on reads a clock at or past expiry. */
  predicate PastExpiry(steps: seq<Step>, expiresAt: Nanos) { forall i | 0 <= i < |steps| && steps[i].Take? :: steps[i].now >= expiresAt }

  /**
   * Past expiry no dispatcher picks a password row up: in every run no claim is added, so the row comes
   * to rest only by cancellation with its action or by the save of a claim already in flight.
   */
  lemma {:induction false} PasswordPastExpiry(w: World, steps: seq<Step>, end: World)
    requires Inv(w) && w.family == Password && Reaches(w, steps, end) && PastExpiry(steps, w.expiresAt)
    ensures end.row.attempts == w.row.attempts && end.claims.Keys <= w.claims.Keys
    ensures forall a | a in end.claims :: end.claims[a].version == w.claims[a].version
    ensures !Settled(w.row.status) && w.claims == map[] ==>
              (Settled(end.row.status) <==> exists i :: 0 <= i < |steps| && steps[i].Cancel?)
    decreases |steps|
  {
    if steps != [] {
      var next := Next(w, steps[0]);
      StepKeepsInv(w, steps[0]);
      assert PastExpiry(steps[1..], w.expiresAt) by { assert forall i | 0 <= i < |steps[1..]| :: steps[1..][i] == steps[i + 1]; }
      PasswordPastExpiry(next, steps[1..], end);
      if w.claims == map[] && !Settled(w.row.status) { PastExpiryTail(w, steps, end); }
    }
  }

  lemma PastExpiryTail(w: World, steps: seq<Step>, end: World)
    requires Inv(w) && w.family == Password && steps != [] && Reaches(w, steps, end) && PastExpiry(steps, w.expiresAt)
    requires !Settled(w.row.status) && w.claims == map[]
    requires var next := Next(w, steps[0]);
             !Settled(next.row.status) && next.claims == map[] ==>
               (Settled(end.row.status) <==> exists i :: 0 <= i < |steps[1..]| && steps[1..][i].Cancel?)
    ensures Settled(end.row.status) <==> exists i :: 0 <= i < |steps| && steps[i].Cancel?
  {
    assert forall i | 0 <= i < |steps[1..]| :: steps[1..][i] == steps[i + 1];
    assert steps[0].Cancel?;
    RunKeepsInv(Next(w, steps[0]), steps[1..], end);
  }

  /** An identity row whose claim is made at or past expiry is brought to rest by it, cancelled unless the claim itself is malformed. */
  lemma IdentityPastExpiry(w: World, now: Nanos, open: bool, validClaim: bool, fault: Option<bool>, accepted: bool, permanent: bool)
    requires Inv(w) && w.family == Identity && Claimable(w, now, open) && now >= w.expiresAt
    ensures Dispatch(w, now, open, validClaim, fault, accepted, permanent).row.status == if validClaim then Cancelled else Attention
    ensures Dispatch(w, now, open, validClaim, fault, accepted, permanent).sent == w.sent
  {}

  // ---- The dispatchers themselves -------------------------------------------------------------

  /** The stored row and the transport, as one dispatcher drives them. */
  class Outbox {
    const family: Family
    const expiresAt: Nanos
    var row: Row
    var sent: seq<int>

    constructor (family: Family, createdAt: Nanos, expiresAt: Nanos)
      ensures Value() == Initial(family, createdAt, expiresAt)
    {
      this.family, this.expiresAt := family, expiresAt;
      row, sent := Row(Pending, 0, 1, createdAt, 0), [];
    }

    /** The row at rest: this dispatcher holds no claim between calls. */
    function Value(): World reads this { World(family, expiresAt, row, map[], sent) }

    method Claim(now: Nanos, open: bool) returns (found: bool, c: Held)
      modifies this`row
      ensures found == old(Claimable(Value(), now, open))
      ensures !found ==> row == old(row)
      ensures found ==> Value().(claims := map[row.attempts := c]) == Next(old(Value()), Take(now, open))
    {
      found := ((row.status == Pending && row.availableAt <= now) || (row.status == Claimed && row.claimedAt <= now - Lease))
        && (family == Identity || (open && now < expiresAt));
      if found { row := Row(Claimed, row.attempts + 1, row.version + 1, row.availableAt, now); }
      c := Held(row.version, now, Taken);
    }

    /** The row is withdrawn with its source. */
    method CancelRow()
      modifies this`row
      ensures Value() == Next(old(Value()), Cancel)
    {
      if row.status == Pending || row.status == Claimed || (family == Identity && row.status == Attention) {
        row := row.(status := Cancelled, version := row.version + 1);
      }
    }

    method Finish(c: Held)
      requires c.stage.Ending?
      modifies this`row
      ensures row == Finished(old(row), c)
    {
      if row.status == Claimed && row.version == c.version {
        var availableAt := row.availableAt;
        if c.stage.outcome == Pending { availableAt := c.stage.next; }
        row := Row(c.stage.outcome, row.attempts, row.version + 1, availableAt, row.claimedAt);
      }
    }

    /** The failure rule of either family, deciding outcome and next try. */
    method Fail(attempt: nat, permanent: bool, now: Nanos) returns (stage: Stage)
      requires attempt >= 1
      ensures stage == Failure(family, attempt, permanent, now, expiresAt)
    {
      var outcome, next := Pending, now;
      if family == Identity {
        if permanent || attempt >= MaxAttempts {
          outcome := Attention;
        } else {
          IdentityDelayIsDoubling(attempt);
          next := now + IdentityDelay(attempt);
          if next >= expiresAt { outcome, next := Cancelled, now; }
        }
      } else {
        var delay := PasswordBackoff(attempt);
        next := now + delay;
        if permanent || attempt >= MaxAttempts || next >= expiresAt { outcome, next := Attention, now; }
      }
      stage := Ending(outcome, next);
    }

    method DispatchNext(now: Nanos, open: bool, validClaim: bool, fault: Option<bool>, accepted: bool, permanent: bool) returns (worked: bool)
      modifies this
      ensures worked == old(Claimable(Value(), now, open))
      ensures Value() == Dispatch(old(Value()), now, open, validClaim, fault, accepted, permanent)
    {
      var c: Held;
      worked, c := Claim(now, open);
      if !worked { return; }
      var attempt := row.attempts;
      var stage := Cleared;
      if !validClaim {
        stage := Fail(attempt, true, now);
      } else if now >= expiresAt || (family == Identity && !open) {
        stage := if family == Identity then Ending(Cancelled, now) else Ending(Attention, now);
      } else if family == Identity && (attempt > MaxAttempts || fault.Some?) {
        stage := Fail(attempt, true, now);
      } else if fault.Some? {
        stage := Fail(attempt, fault.value, now);
      }
      if stage == Cleared {
        sent := sent + [attempt];
        if accepted { stage := Ending(Delivered, now); } else { stage := Fail(attempt, permanent, now); }
      }
      Finish(Held(c.version, now, stage));
    }
  }
}
