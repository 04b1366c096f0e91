/**
 * Rotation of refresh tokens with reuse detection (section 4.14.2 of RFC 9700) on one token family,
 * for the platform console (`Boss`) and the tenant console (`Console`). A token is looked up by the
 * digest of its secret, so the secret itself is the key here.
 */
module RefreshTokens {
  import opened Ids

  datatype Audience = Boss | Console
  datatype Status = Active | Consumed | Revoked
  datatype Secret = Secret(text: string)

  datatype Token = Token(id: Uuid, status: Status, replacedBy: Option<Uuid>, issuedAt: Time, expiresAt: Time)

  datatype State = State(
    audience: Audience,
    sessionActive: bool, sessionVersion: int, idle: Time, absolute: Time,
    grantActive: bool, grantVersion: int,
    familyActive: bool, familyVersion: int,
    tokens: map<Secret, Token>,
    reuseAudits: nat)

  /** What the principal, membership, tenant and lifecycle rows say during one call. */
  datatype Standing = Standing(principal: bool, membership: bool, access: bool, fresh_: bool, lifecycle: bool)

  datatype Replacement = Replacement(id: Uuid, accessId: Uuid, secret: Secret)

  datatype Denial = InvalidCredential | PrincipalInactive | MembershipInactive | AccessInactive
                  | LifecycleStale | LifecycleBlocked | Dependency

  datatype Reply = Refreshed(secret: Secret, accessExpiry: Time, idle: Time) | Denied(why: Denial)

  function Lifetimes(a: Audience): (Time, Time, Time) {
    match a case Boss => (10 * Minute, 30 * Minute, 8 * Hour) case Console => (15 * Minute, 7 * 24 * Hour, 30 * 24 * Hour)
  }

  function IdleDeadline(a: Audience, now: Time, absolute: Time): Time { Min(now + Lifetimes(a).1, absolute) }

  function AccessDeadline(a: Audience, now: Time, idle: Time, absolute: Time): Time {
    Min(now + Lifetimes(a).0, Min(idle, absolute))
  }

  /** Login opens the family: one active token, the three deadlines of the audience. */
  function Login(a: Audience, now: Time, id: Uuid, secret: Secret): State {
    var (access, idle, absolute) := Lifetimes(a);
    State(a, true, 1, now + idle, now + absolute, true, 1, true, 1,
          map[secret := Token(id, Active, None, now, now + absolute)], 0)
  }

  function RevokeTokens(tokens: map<Secret, Token>): (r: map<Secret, Token>)
    ensures r.Keys == tokens.Keys
  { map k | k in tokens :: if tokens[k].status == Active then tokens[k].(status := Revoked) else tokens[k] }

  /** RevokeFamily and its audit: the family, its live token and every access token of the grant version. */
  function RevokeFamily(s: State): State {
    s.(familyActive := false, familyVersion := s.familyVersion + 1, tokens := RevokeTokens(s.tokens),
       grantVersion := s.grantVersion + 1, reuseAudits := s.reuseAudits + 1)
  }

  /** validatePlatformRefresh and validateActiveRefreshState. */
  function Check(s: State, t: Token, now: Time, st: Standing): Option<Denial> {
    if t.status != Active || !s.familyActive || !s.grantActive || !s.sessionActive
      || now >= t.expiresAt || now >= s.idle || now >= s.absolute then Some(InvalidCredential)
    else if !st.principal then Some(PrincipalInactive)
    else if !st.membership then Some(MembershipInactive)
    else if s.audience == Console && !st.access then Some(AccessInactive)
    else if s.audience == Console && !st.fresh_ then Some(LifecycleStale)
    else if s.audience == Console && !st.lifecycle then Some(LifecycleBlocked)
    else None
  }

  /** The generated ids and secret are usable and collide with no stored row. */
  predicate Usable(s: State, r: Replacement) {
    && IsV7(r.id) && IsV7(r.accessId) && r.id != r.accessId && |r.secret.text| >= 32
    && r.secret !in s.tokens && forall k | k in s.tokens :: s.tokens[k].id != r.id
  }

  function Rotate(s: State, presented: Secret, now: Time, r: Replacement): State
    requires presented in s.tokens
  {
    s.(tokens := s.tokens[presented := s.tokens[presented].(status := Consumed, replacedBy := Some(r.id))]
                         [r.secret := Token(r.id, Active, None, now, s.absolute)],
       idle := IdleDeadline(s.audience, now, s.absolute), sessionVersion := s.sessionVersion + 1)
  }

  function Accepted(s: State, now: Time, r: Replacement): Reply {
    var idle := IdleDeadline(s.audience, now, s.absolute);
    Refreshed(r.secret, AccessDeadline(s.audience, now, idle, s.absolute), idle)
  }

  /** PlatformSessionUsecase.RefreshSession, committed. */
  function RefreshBoss(s: State, presented: Secret, now: Time, r: Replacement, st: Standing): (State, Reply) {
    if presented !in s.tokens then (s, Denied(InvalidCredential))
    else if s.tokens[presented].status == Consumed then
      (if s.familyActive then RevokeFamily(s) else s, Denied(InvalidCredential))
    else if Check(s, s.tokens[presented], now, st).Some? then (s, Denied(Check(s, s.tokens[presented], now, st).value))
    else if !Usable(s, r) then (s, Denied(Dependency))
    else (Rotate(s, presented, now, r), Accepted(s, now, r))
  }

  /** applyRefreshReuse: the tenant form leaves a family alone whose grant is already revoked. */
  function ConsoleReuse(s: State): State { if s.familyActive && s.grantActive then RevokeFamily(s) else s }

  predicate SameAggregate(a: State, b: State, presented: Secret) {
    && presented in a.tokens && presented in b.tokens
    && a.tokens[presented].id == b.tokens[presented].id && a.tokens[presented].status == b.tokens[presented].status
    && a.grantVersion == b.grantVersion && a.familyVersion == b.familyVersion
  }

  /**
   * AuthenticationUsecase.RefreshSession: decided on `seen`, a state read earlier without a lock,
   * and decided again on the locked state `s`.
   */
  function RefreshConsole(s: State, seen: State, presented: Secret, now: Time, r: Replacement, st: Standing, locked: Standing): (State, Reply) {
    if presented !in seen.tokens then (s, Denied(InvalidCredential))
    else if presented !in s.tokens || s.tokens[presented].id != seen.tokens[presented].id then (s, Denied(InvalidCredential))
    else if seen.tokens[presented].status == Consumed then
      if s.tokens[presented].status != Consumed then (s, Denied(Dependency))
      else (ConsoleReuse(s), Denied(InvalidCredential))
    else if Check(seen, seen.tokens[presented], now, st).Some? then (s, Denied(Check(seen, seen.tokens[presented], now, st).value))
    else if s.tokens[presented].status == Consumed then (ConsoleReuse(s), Denied(InvalidCredential))
    else if !SameAggregate(s, seen, presented) then (s, Denied(InvalidCredential))
    else if Check(s, s.tokens[presented], now, locked).Some? then (s, Denied(Check(s, s.tokens[presented], now, locked).value))
    else if !Usable(s, r) || IdleDeadline(seen.audience, now, seen.absolute) != IdleDeadline(s.audience, now, s.absolute)
      then (s, Denied(Dependency))
    else (Rotate(s, presented, now, r), Accepted(s, now, r))
  }

  function RevokeSession(s: State): State {
    s.(sessionActive := false, sessionVersion := s.sessionVersion + 1,
       grantVersion := if s.grantActive then s.grantVersion + 1 else s.grantVersion, grantActive := false,
       familyVersion := if s.familyActive then s.familyVersion + 1 else s.familyVersion, familyActive := false,
       tokens := RevokeTokens(s.tokens))
  }

  function Logout(s: State, presented: Secret): State {
    if presented in s.tokens && s.sessionActive then RevokeSession(s) else s
  }

  datatype Step =
    | Refresh(presented: Secret, seen: State, now: Time, replacement: Replacement, standing: Standing, locked: Standing)
    | LogoutWith(presented: Secret)
    | RevokePrincipalSessions

  function Outcome(s: State, step: Step): (State, Reply)
    requires step.Refresh?
  {
    match s.audience
    case Boss => RefreshBoss(s, step.presented, step.now, step.replacement, step.standing)
    case Console => RefreshConsole(s, step.seen, step.presented, step.now, step.replacement, step.standing, step.locked)
  }

  function Next(s: State, step: Step): State {
    match step
    case Refresh(_, _, _, _, _, _) => Outcome(s, step).0
    case LogoutWith(presented) => Logout(s, presented)
    case RevokePrincipalSessions => if s.sessionActive then RevokeSession(s) else s
  }

  function Run(s: State, steps: seq<Step>): State
    decreases |steps|
  {
    if steps == [] then s else Run(Next(s, steps[0]), steps[1..])
  }

  /** A run is its first step, then the rest. */
  lemma {:induction false} RunSplits(s: State, a: seq<Step>, b: seq<Step>)
    ensures Run(s, a + b) == Run(Run(s, a), b) && (|a| == 1 ==> Run(s, a) == Next(s, a[0]))
    decreases |a|
  {
    if a == [] { assert a + b == b; }
    else {
      RunSplits(Next(s, a[0]), a[1..], b);
      assert (a + b)[1..] == a[1..] + b;
    }
  }

  // ---- The chain ------------------------------------------------------------------------------

  /** All tokens in order of issue: each consumed one names its successor, only the last can be live. */
  ghost predicate IsChain(s: State, chain: seq<Secret>) {
    && |chain| >= 1
    && (forall i | 0 <= i < |chain| :: chain[i] in s.tokens)
    && (forall k | k in s.tokens :: k in chain)
    && Distinct(s.tokens, chain)
    && (forall i | 0 <= i < |chain| - 1 :: Succeeded(s, chain, i))
    && Newest(s, chain[|chain| - 1])
  }

  predicate Distinct(tokens: map<Secret, Token>, chain: seq<Secret>)
    requires forall i | 0 <= i < |chain| :: chain[i] in tokens
  {
    forall i, j | 0 <= i < j < |chain| :: chain[i] != chain[j] && tokens[chain[i]].id != tokens[chain[j]].id
  }

  predicate Succeeded(s: State, chain: seq<Secret>, i: nat)
    requires i < |chain| - 1 && chain[i] in s.tokens && chain[i + 1] in s.tokens
  {
    s.tokens[chain[i]].status == Consumed && s.tokens[chain[i]].replacedBy == Some(s.tokens[chain[i + 1]].id)
  }

  predicate Newest(s: State, k: Secret) requires k in s.tokens {
    s.tokens[k].status == (if s.familyActive then Active else Revoked) && s.tokens[k].replacedBy == None
  }

  predicate Deadlines(s: State) {
    s.idle <= s.absolute && forall k | k in s.tokens :: s.tokens[k].expiresAt == s.absolute
  }

  predicate Audited(s: State) { s.reuseAudits <= 1 && (s.reuseAudits == 1 ==> !s.familyActive) }

  /** Session and grant are only ever revoked together, and the family with them. */
  predicate Nested(s: State) { (s.familyActive ==> s.grantActive) && (s.grantActive <==> s.sessionActive) }

  ghost predicate Inv(s: State) { (exists chain :: IsChain(s, chain)) && Deadlines(s) && Audited(s) && Nested(s) }

  lemma OnlyNewestIsLive(s: State, chain: seq<Secret>, k: Secret)
    requires IsChain(s, chain) && k in s.tokens
    ensures s.tokens[k].status == Active <==> s.familyActive && k == chain[|chain| - 1]
  {
    var i :| 0 <= i < |chain| && chain[i] == k;
    if i < |chain| - 1 { assert Succeeded(s, chain, i); }
  }

  lemma ExtendsDistinct(a: map<Secret, Token>, b: map<Secret, Token>, chain: seq<Secret>, fresh_: Secret)
    requires (forall i | 0 <= i < |chain| :: chain[i] in a) && Distinct(a, chain)
    requires forall k | k in a :: k in b && b[k].id == a[k].id && k != fresh_
    requires fresh_ in b && forall k | k in a :: a[k].id != b[fresh_].id
    ensures Distinct(b, chain + [fresh_])
  {}

  lemma SameIdsDistinct(a: map<Secret, Token>, b: map<Secret, Token>, chain: seq<Secret>)
    requires (forall i | 0 <= i < |chain| :: chain[i] in a) && Distinct(a, chain)
    requires forall k | k in a :: k in b && b[k].id == a[k].id
    ensures Distinct(b, chain)
  {}

  lemma RotateExtendsChain(s: State, chain: seq<Secret>, now: Time, r: Replacement)
    requires IsChain(s, chain) && s.familyActive && Usable(s, r)
    ensures IsChain(Rotate(s, chain[|chain| - 1], now, r), chain + [r.secret])
  {
    var t := Rotate(s, chain[|chain| - 1], now, r);
    var longer := chain + [r.secret];
    ExtendsDistinct(s.tokens, t.tokens, chain, r.secret);
    RotateKeepsMembers(s, chain, now, r);
    forall i | 0 <= i < |longer| - 1 ensures Succeeded(t, longer, i) { RotateLinks(s, chain, now, r, i); }
  }

  lemma RotateKeepsMembers(s: State, chain: seq<Secret>, now: Time, r: Replacement)
    requires IsChain(s, chain)
    ensures var t, longer := Rotate(s, chain[|chain| - 1], now, r), chain + [r.secret];
            (forall i | 0 <= i < |longer| :: longer[i] in t.tokens) && (forall k | k in t.tokens :: k in longer)
  {
    var t, longer := Rotate(s, chain[|chain| - 1], now, r), chain + [r.secret];
    forall k | k in t.tokens ensures k in longer { assert k == r.secret || k in s.tokens; }
  }

  lemma RotateLinks(s: State, chain: seq<Secret>, now: Time, r: Replacement, i: nat)
    requires IsChain(s, chain) && Usable(s, r) && i < |chain|
    ensures var t, longer := Rotate(s, chain[|chain| - 1], now, r), chain + [r.secret];
            longer[i] in t.tokens && longer[i + 1] in t.tokens && Succeeded(t, longer, i)
  {
    if i < |chain| - 1 { RotateKeepsLink(s, chain, now, r, i); }
  }

  lemma RotateKeepsLink(s: State, chain: seq<Secret>, now: Time, r: Replacement, i: nat)
    requires IsChain(s, chain) && Usable(s, r) && i < |chain| - 1
    ensures var t := Rotate(s, chain[|chain| - 1], now, r);
            chain[i] in t.tokens && chain[i + 1] in t.tokens && Succeeded(t, chain, i) && t.tokens[chain[i + 1]].id == s.tokens[chain[i + 1]].id
  {
    assert Succeeded(s, chain, i) && chain[i] != chain[|chain| - 1];
  }

  lemma RevokeKeepsChain(s: State, t: State, chain: seq<Secret>)
    requires IsChain(s, chain) && t.tokens == RevokeTokens(s.tokens) && !t.familyActive
    ensures IsChain(t, chain)
  {
    SameIdsDistinct(s.tokens, t.tokens, chain);
    forall i | 0 <= i < |chain| - 1 ensures Succeeded(t, chain, i) { assert Succeeded(s, chain, i); }
  }

  /** A refresh rotates, kills the family, or changes nothing; only the first answers with tokens. */
  lemma RefreshShape(s: State, step: Step)
    requires step.Refresh?
    ensures var (t, reply) := Outcome(s, step);
            && (reply.Refreshed? ==>
                  && step.presented in s.tokens && Usable(s, step.replacement)
                  && s.tokens[step.presented].status == Active && s.familyActive && s.grantActive && s.sessionActive
                  && step.now < s.tokens[step.presented].expiresAt && step.now < s.idle && step.now < s.absolute
                  && t == Rotate(s, step.presented, step.now, step.replacement) && reply == Accepted(s, step.now, step.replacement))
            && (reply.Denied? ==> t == s || (s.familyActive && t == RevokeFamily(s)))
  {}

  lemma StepKeepsChain(s: State, step: Step, chain: seq<Secret>)
    requires IsChain(s, chain)
    ensures IsChain(Next(s, step), chain) || (step.Refresh? && IsChain(Next(s, step), chain + [step.replacement.secret]))
  {
    var t := Next(s, step);
    if step.Refresh? {
      RefreshShape(s, step);
      if Outcome(s, step).1.Refreshed? {
        OnlyNewestIsLive(s, chain, step.presented);
        RotateExtendsChain(s, chain, step.now, step.replacement);
      } else if t != s {
        RevokeKeepsChain(s, t, chain);
      }
    } else if t.familyActive == s.familyActive && t.tokens == s.tokens {
      SameTokensSameChain(s, t, chain);
    } else {
      RevokeKeepsChain(s, t, chain);
    }
  }

  lemma SameTokensSameChain(s: State, t: State, chain: seq<Secret>)
    requires IsChain(s, chain) && t.familyActive == s.familyActive && t.tokens == s.tokens
    ensures IsChain(t, chain)
  {
    forall i | 0 <= i < |chain| - 1 ensures Succeeded(t, chain, i) { assert Succeeded(s, chain, i); }
  }

  lemma StepKeepsInv(s: State, step: Step)
    requires Inv(s)
    ensures Inv(Next(s, step)) && Next(s, step).absolute == s.absolute && Next(s, step).audience == s.audience
  {
    var chain :| IsChain(s, chain);
    StepKeepsChain(s, step, chain);
    StepKeepsDeadlines(s, step);
  }

  lemma StepKeepsDeadlines(s: State, step: Step)
    requires Deadlines(s) && Audited(s) && Nested(s)
    ensures Deadlines(Next(s, step)) && Audited(Next(s, step)) && Nested(Next(s, step))
    ensures Next(s, step).absolute == s.absolute && Next(s, step).audience == s.audience
  {
    if step.Refresh? { RefreshShape(s, step); }
  }

  /** Nothing lifts a revocation. */
  lemma RevocationIsFinal(s: State, step: Step)
    ensures !s.familyActive ==> !Next(s, step).familyActive
    ensures !s.grantActive ==> !Next(s, step).grantActive
    ensures !s.sessionActive ==> !Next(s, step).sessionActive
    ensures s.reuseAudits <= Next(s, step).reuseAudits
    ensures forall k | k in s.tokens && s.tokens[k].status == Consumed :: k in Next(s, step).tokens && Next(s, step).tokens[k].status == Consumed
  {}

  lemma {:induction false} RunKeepsInv(s: State, steps: seq<Step>)
    requires Inv(s)
    ensures var t := Run(s, steps);
            && Inv(t) && t.absolute == s.absolute && t.audience == s.audience
            && (!s.familyActive ==> !t.familyActive) && (!s.grantActive ==> !t.grantActive) && s.reuseAudits <= t.reuseAudits
    ensures forall k | k in s.tokens && s.tokens[k].status == Consumed :: k in Run(s, steps).tokens && Run(s, steps).tokens[k].status == Consumed
    decreases |steps|
  {
    if steps != [] {
      StepKeepsInv(s, steps[0]);
      RevocationIsFinal(s, steps[0]);
      RunKeepsInv(Next(s, steps[0]), steps[1..]);
    }
  }

  lemma LoginStarts(a: Audience, now: Time, id: Uuid, secret: Secret)
    ensures Inv(Login(a, now, id, secret))
  {
    assert IsChain(Login(a, now, id, secret), [secret]);
  }

  // ---- Guarantees -----------------------------------------------------------------------------

  /**
   * In every run an active family has exactly one active token and a revoked family none; the other
   * tokens form one chain of replacements from the login token to it; deadlines stay nested under
   * the absolute one fixed at login; reuse was audited at most once; and an active family has an
   * active grant and session.
   */
  lemma EveryRunKeepsOneChain(a: Audience, now: Time, id: Uuid, secret: Secret, steps: seq<Step>) returns (chain: seq<Secret>)
    ensures var s := Run(Login(a, now, id, secret), steps);
            && IsChain(s, chain)
            && (forall k | k in s.tokens :: s.tokens[k].status == Active <==> s.familyActive && k == chain[|chain| - 1])
            && s.idle <= s.absolute == now + (if a == Boss then 8 * Hour else 30 * 24 * Hour) && s.reuseAudits <= 1
            && (s.familyActive ==> s.grantActive && s.sessionActive)
  {
    LoginStarts(a, now, id, secret);
    RunKeepsInv(Login(a, now, id, secret), steps);
    var s := Run(Login(a, now, id, secret), steps);
    chain :| IsChain(s, chain);
    forall k | k in s.tokens ensures s.tokens[k].status == Active <==> s.familyActive && k == chain[|chain| - 1] {
      OnlyNewestIsLive(s, chain, k);
    }
  }

  /** Why a token is refused although it is known, and how far the reasons go at each console. */
  predicate Alive(s: State, presented: Secret, now: Time) {
    && presented in s.tokens && s.tokens[presented].status == Active && s.familyActive && s.grantActive && s.sessionActive
    && now < s.tokens[presented].expiresAt && now < s.idle && now < s.absolute
  }

  function Objection(a: Audience, st: Standing): Option<Denial> {
    if !st.principal then Some(PrincipalInactive)
    else if !st.membership then Some(MembershipInactive)
    else if a == Boss then None
    else if !st.access then Some(AccessInactive)
    else if !st.fresh_ then Some(LifecycleStale)
    else if !st.lifecycle then Some(LifecycleBlocked) else None
  }

  /** Two version 7 identifiers and a long secret, none of them on record. */
  predicate Unused(s: State, r: Replacement) {
    && IsV7(r.id) && IsV7(r.accessId) && r.id != r.accessId && |r.secret.text| >= 32 && r.secret !in s.tokens
    && forall k | k in s.tokens :: s.tokens[k].id != r.id
  }

  /** For the platform console: exactly the one active token, inside every deadline and in good standing, refreshes. */
  lemma BossRefreshSucceedsIff(s: State, presented: Secret, now: Time, r: Replacement, st: Standing)
    requires Inv(s) && s.audience == Boss
    ensures RefreshBoss(s, presented, now, r, st).1.Refreshed? <==>
              && presented in s.tokens && s.tokens[presented].status == Active && s.familyActive && s.grantActive && s.sessionActive
              && now < s.idle && st.principal && st.membership && Unused(s, r)
    ensures RefreshBoss(s, presented, now, r, st).1.Denied? ==>
              RefreshBoss(s, presented, now, r, st).1.why ==
                if !Alive(s, presented, now) then InvalidCredential
                else if Objection(Boss, st).Some? then Objection(Boss, st).value else Dependency
  {}

  /** For the tenant console the same holds of the locked state, whatever was read before the lock. */
  lemma ConsoleRefreshNeedsLockedState(s: State, seen: State, presented: Secret, now: Time, r: Replacement, st: Standing, locked: Standing)
    requires Inv(s) && s.audience == Console && RefreshConsole(s, seen, presented, now, r, st, locked).1.Refreshed?
    ensures presented in s.tokens && s.tokens[presented].status == Active && s.familyActive && s.grantActive && s.sessionActive
    ensures now < s.idle && locked == Standing(true, true, true, true, true) && Usable(s, r)
  {}

  /** What was read and what is locked are the same token under the same versions and deadline. */
  predicate Unchanged(seen: State, s: State, presented: Secret, now: Time)
    requires presented in seen.tokens && presented in s.tokens
  {
    && s.tokens[presented].id == seen.tokens[presented].id
    && s.grantVersion == seen.grantVersion && s.familyVersion == seen.familyVersion
    && Min(now + 7 * 24 * Hour, s.absolute) == Min(now + 7 * 24 * Hour, seen.absolute)
  }

  /** When the tenant console refreshes: alive and unobjectionable both when read and when locked, and unchanged in between. */
  lemma ConsoleRefreshSucceedsIff(s: State, seen: State, presented: Secret, now: Time, r: Replacement, st: Standing, locked: Standing)
    requires s.audience == Console && seen.audience == Console
    ensures RefreshConsole(s, seen, presented, now, r, st, locked).1.Refreshed? <==>
              && Alive(seen, presented, now) && Objection(Console, st).None? && Alive(s, presented, now) && Objection(Console, locked).None?
              && Unchanged(seen, s, presented, now) && Unused(s, r)
  {}

  /** What each refusal of the tenant console is told: about what was read, about what changed, and about what is locked. */
  lemma ConsoleRefusalsAreTold(s: State, seen: State, presented: Secret, now: Time, r: Replacement, st: Standing, locked: Standing)
    requires s.audience == Console && seen.audience == Console && RefreshConsole(s, seen, presented, now, r, st, locked).1.Denied?
    ensures var why := RefreshConsole(s, seen, presented, now, r, st, locked).1.why;
            if presented !in seen.tokens || presented !in s.tokens || s.tokens[presented].id != seen.tokens[presented].id then why == InvalidCredential
            else if seen.tokens[presented].status == Consumed then
              why == if s.tokens[presented].status == Consumed then InvalidCredential else Dependency
            else if !Alive(seen, presented, now) then why == InvalidCredential
            else if Objection(Console, st).Some? then why == Objection(Console, st).value
            else if s.grantVersion != seen.grantVersion || s.familyVersion != seen.familyVersion || !Alive(s, presented, now) then why == InvalidCredential
            else if Objection(Console, locked).Some? then why == Objection(Console, locked).value else why == Dependency
  {}

  /** What a successful refresh hands out: access expiry <= idle expiry <= the absolute expiry, all still ahead. */
  lemma RefreshNestsDeadlines(s: State, step: Step)
    requires Inv(s) && step.Refresh? && Outcome(s, step).1.Refreshed?
    ensures var (t, reply) := Outcome(s, step);
            && step.now < reply.accessExpiry <= reply.idle == t.idle <= t.absolute == s.absolute
            && reply.accessExpiry == Min(step.now + (if s.audience == Boss then 10 * Minute else 15 * Minute), reply.idle)
            && reply.idle == Min(step.now + (if s.audience == Boss then 30 * Minute else 7 * 24 * Hour), s.absolute)
            && t.tokens[step.presented].status == Consumed && t.tokens[reply.secret].status == Active
            && t.tokens[step.presented].replacedBy == Some(t.tokens[reply.secret].id)
            && t.sessionVersion == s.sessionVersion + 1 && t.grantVersion == s.grantVersion && t.familyVersion == s.familyVersion
  {
    RefreshShape(s, step);
  }

  /** The tenant console first decides on what it read unlocked: the same token, consumed or fit to be refreshed. */
  predicate ReachesLock(s: State, step: Step)
    requires step.Refresh?
  {
    s.audience == Console && step.presented in s.tokens ==>
      && step.presented in step.seen.tokens && step.seen.tokens[step.presented].id == s.tokens[step.presented].id
      && (step.seen.tokens[step.presented].status == Consumed || Check(step.seen, step.seen.tokens[step.presented], step.now, step.standing).None?)
  }

  /** At either console, presenting a consumed token is refused and leaves the family revoked without a live token, audited if it was not. */
  lemma ReuseRevokes(s: State, step: Step)
    requires Inv(s) && step.Refresh? && step.presented in s.tokens && s.tokens[step.presented].status == Consumed && ReachesLock(s, step)
    ensures Outcome(s, step).1 == Denied(InvalidCredential)
    ensures var t := Next(s, step);
            && !t.familyActive && (forall k | k in t.tokens :: t.tokens[k].status != Active)
            && t.reuseAudits == (if s.familyActive then s.reuseAudits + 1 else s.reuseAudits)
            && t.grantVersion == (if s.familyActive then s.grantVersion + 1 else s.grantVersion)
            && t.familyVersion == (if s.familyActive then s.familyVersion + 1 else s.familyVersion)
            && t.sessionVersion == s.sessionVersion
  {
    var chain :| IsChain(s, chain);
    forall k | k in s.tokens ensures s.tokens[k].status == Active ==> s.familyActive { OnlyNewestIsLive(s, chain, k); }
  }

  /** Once the family or its grant is dead, no refresh of this family ever succeeds again, with any token. */
  lemma {:induction false} DeadFamilyNeverRefreshes(s: State, steps: seq<Step>, last: Step)
    requires Inv(s) && (!s.familyActive || !s.grantActive) && last.Refresh?
    ensures Outcome(Run(s, steps), last).1.Denied?
    decreases |steps|
  {
    if steps != [] {
      StepKeepsInv(s, steps[0]);
      RevocationIsFinal(s, steps[0]);
      DeadFamilyNeverRefreshes(Next(s, steps[0]), steps[1..], last);
    }
  }

  /** Everything of the session is over, and each version rose once if its row was still active. */
  predicate SignedOut(s: State, t: State) {
    && !t.sessionActive && !t.grantActive && !t.familyActive
    && t.sessionVersion == (if s.sessionActive then s.sessionVersion + 1 else s.sessionVersion)
    && t.grantVersion == (if s.grantActive then s.grantVersion + 1 else s.grantVersion)
    && t.familyVersion == (if s.familyActive then s.familyVersion + 1 else s.familyVersion)
    && t.tokens.Keys == s.tokens.Keys
    && (forall k | k in s.tokens :: t.tokens[k] == if s.tokens[k].status == Active then s.tokens[k].(status := Revoked) else s.tokens[k])
    && t.reuseAudits == s.reuseAudits
  }

  lemma ClosedHasNoLiveToken(s: State)
    requires Inv(s) && !s.familyActive
    ensures forall k | k in s.tokens :: s.tokens[k].status != Active
  {
    var chain :| IsChain(s, chain);
    forall k | k in s.tokens ensures s.tokens[k].status != Active { OnlyNewestIsLive(s, chain, k); }
  }

  /** Logging out with any token of the session, used up or not, ends it; an unknown token changes nothing. */
  lemma LogoutSignsOut(s: State, presented: Secret)
    requires Inv(s)
    ensures if presented in s.tokens then SignedOut(s, Next(s, LogoutWith(presented))) else Next(s, LogoutWith(presented)) == s
  {
    if !s.familyActive { ClosedHasNoLiveToken(s); }
  }

  lemma RevocationSignsOut(s: State)
    requires Inv(s)
    ensures SignedOut(s, Next(s, RevokePrincipalSessions))
  {
    if !s.familyActive { ClosedHasNoLiveToken(s); }
  }

  /** After either, no refresh succeeds in any continuation. */
  lemma SigningOutIsFinal(s: State, signOut: Step, after: seq<Step>, last: Step)
    requires Inv(s) && last.Refresh? && (signOut.RevokePrincipalSessions? || (signOut.LogoutWith? && signOut.presented in s.tokens))
    ensures SignedOut(s, Next(s, signOut)) && Outcome(Run(Next(s, signOut), after), last).1.Denied?
  {
    if signOut.LogoutWith? { LogoutSignsOut(s, signOut.presented); } else { RevocationSignsOut(s); }
    StepKeepsInv(s, signOut);
    DeadFamilyNeverRefreshes(Next(s, signOut), after, last);
  }

  /** A stolen token, at either console: after its holder and the thief have both presented it, neither ever refreshes again. */
  lemma ReplayEndsTheFamily(s: State, first: Step, between: seq<Step>, second: Step, after: seq<Step>, last: Step)
    requires Inv(s) && first.Refresh? && second.Refresh? && last.Refresh?
    requires Outcome(s, first).1.Refreshed? && second.presented == first.presented
    requires ReachesLock(Run(Next(s, first), between), second)
    ensures var used := Run(Next(s, first), between);
            && Outcome(used, second).1 == Denied(InvalidCredential)
            && Outcome(Run(Next(used, second), after), last).1.Denied?
  {
    var rotated := Next(s, first);
    StepKeepsInv(s, first);
    RefreshShape(s, first);
    RunKeepsInv(rotated, between);
    var used := Run(rotated, between);
    assert rotated.tokens[first.presented].status == Consumed;
    ReuseRevokes(used, second);
    StepKeepsInv(used, second);
    DeadFamilyNeverRefreshes(Next(used, second), after, last);
  }

  // ---- The platform service -------------------------------------------------------------------

  class PlatformSession {
    const absolute: Time
    var sessionActive: bool
    var sessionVersion: int
    var idle: Time
    var grantActive: bool
    var grantVersion: int
    var familyActive: bool
    var familyVersion: int
    var tokens: map<Secret, Token>
    var reuseAudits: nat

    constructor (now: Time, id: Uuid, secret: Secret)
      ensures Value() == Login(Boss, now, id, secret)
    {
      absolute, idle := now + 8 * Hour, now + 30 * Minute;
      sessionActive, grantActive, familyActive := true, true, true;
      sessionVersion, grantVersion, familyVersion, reuseAudits := 1, 1, 1, 0;
      tokens := map[secret := Token(id, Active, None, now, now + 8 * Hour)];
    }

    function Value(): State reads this {
      State(Boss, sessionActive, sessionVersion, idle, absolute, grantActive, grantVersion, familyActive, familyVersion, tokens, reuseAudits)
    }

    /** Consume the presented token, store its replacement, slide the session. */
    method RotateTo(presented: Secret, r: Replacement, now: Time, deadline: Time)
      requires presented in tokens && deadline == IdleDeadline(Boss, now, absolute)
      modifies this`tokens, this`idle, this`sessionVersion
      ensures Value() == Rotate(old(Value()), presented, now, r)
    {
      tokens := tokens[presented := tokens[presented].(status := Consumed, replacedBy := Some(r.id))];
      tokens := tokens[r.secret := Token(r.id, Active, None, now, absolute)];
      idle := deadline;
      sessionVersion := sessionVersion + 1;
    }

    method RevokeReused()
      modifies this`familyActive, this`familyVersion, this`tokens, this`grantVersion, this`reuseAudits
      ensures Value() == RevokeFamily(old(Value()))
    {
      familyActive := false;
      familyVersion := familyVersion + 1;
      tokens := RevokeTokens(tokens);
      grantVersion := grantVersion + 1;
      reuseAudits := reuseAudits + 1;
    }

    method RefreshSession(presented: Secret, now: Time, r: Replacement, st: Standing) returns (reply: Reply)
      modifies this
      ensures (Value(), reply) == RefreshBoss(old(Value()), presented, now, r, st)
    {
      if presented !in tokens { return Denied(InvalidCredential); }
      var token := tokens[presented];
      if token.status == Consumed {
        if familyActive { RevokeReused(); }
        return Denied(InvalidCredential);
      }
      if token.status != Active || !familyActive || !grantActive || !sessionActive
        || now >= token.expiresAt || now >= idle || now >= absolute { return Denied(InvalidCredential); }
      if !st.principal { return Denied(PrincipalInactive); }
      if !st.membership { return Denied(MembershipInactive); }
      if !Usable(Value(), r) { return Denied(Dependency); }
      var deadline := IdleDeadline(Boss, now, absolute);
      var access := AccessDeadline(Boss, now, deadline, absolute);
      RotateTo(presented, r, now, deadline);
      return Refreshed(r.secret, access, deadline);
    }

    method LogoutSession(presented: Secret)
      modifies this
      ensures Value() == Logout(old(Value()), presented)
    {
      if presented !in tokens || !sessionActive { return; }
      sessionActive, sessionVersion := false, sessionVersion + 1;
      if grantActive { grantActive, grantVersion := false, grantVersion + 1; }
      if familyActive { familyActive, familyVersion := false, familyVersion + 1; }
      tokens := RevokeTokens(tokens);
    }
  }
}
