/** Every run of the credential chain: where a verified invocation comes from, when it ends, what kills it. */
module WorkloadChain {
  import opened Ids
  import A = AuthorityRevision
  import R = WorkloadRegistry
  import opened WorkloadCredentials

  datatype Step =
    | Tick(elapsed: nat)
    | BumpPrincipal(id: Uuid)
    | BumpBinding(id: Uuid)
    | BumpGrant(key: GrantKey)
    | BumpSessionGrant(id: Uuid)
    | BumpKey(id: Uuid, active: bool)
    | Rebind(bindings: map<A.Peer, (Uuid, Uuid)>)
    | Regrant(granted: set<GrantKey>)
    | Repermit(permits: set<(Uuid, string)>)
    | OpenSession(id: Uuid, grant: SessionGrant)
    | CreateKey(id: Uuid, row: ApiKey)
    | LogIn(credential: Credential)
    | Mint(ingress: A.Caller, audience: string, operation: string, expected: R.Revision, id: Uuid, recorded: bool)
    | Delegate(ingress: A.Caller, token: Token, credential: Credential, binding: Binding, id: Uuid, recorded: bool)
    | Check(receiver: A.Caller, token: Token, delegation: Delegation, binding: Binding, observed: A.Peer, id: Uuid)

  function Version<K(==)>(m: map<K, int>, k: K): int { if k in m then m[k] else 0 }

  /** What the workload middleware establishes before a handler runs: peer, identity and grant for this very method. */
  predicate Authenticated(w: World, c: A.Caller) { CurrentCaller(w, c, c.identity.peer).Ok? }

  /** The middleware let the ingress caller through in this request; rows are created once. */
  predicate Enabled(w: World, step: Step) {
    match step
    case OpenSession(id, _) => id !in w.sessionGrants
    case CreateKey(id, _) => id !in w.keys
    case Mint(ingress, _, _, _, _, _) => Resolve(w, ingress.identity.peer) == Ok(ingress.identity)
    case Check(receiver, _, _, _, _, _) => Authenticated(w, receiver)
    case _ => true
  }

  predicate Issues(step: Step) { step.Mint? || step.Delegate? || step.Check? }

  /** What administration, logins and time do; no credential of this service is involved. */
  function Around(w: World, step: Step): World
    requires !Issues(step)
  {
    match step
    case Tick(elapsed) => w.(clock := w.clock + elapsed)
    case BumpPrincipal(id) => w.(principalVersions := w.principalVersions[id := Version(w.principalVersions, id) + 1])
    case BumpBinding(id) => w.(bindingVersions := w.bindingVersions[id := Version(w.bindingVersions, id) + 1])
    case BumpGrant(key) => w.(grantVersions := w.grantVersions[key := Version(w.grantVersions, key) + 1])
    case BumpSessionGrant(id) =>
      if id in w.sessionGrants then w.(sessionGrants := w.sessionGrants[id := w.sessionGrants[id].(version := w.sessionGrants[id].version + 1)]) else w
    case BumpKey(id, active) =>
      if id in w.keys then w.(keys := w.keys[id := w.keys[id].(version := w.keys[id].version + 1, active := active)]) else w
    case Rebind(bindings) => w.(bindings := bindings)
    case Regrant(granted) => w.(activeGrants := granted)
    case Repermit(permits) => w.(permits := permits)
    case OpenSession(id, grant) => w.(sessionGrants := w.sessionGrants[id := grant])
    case CreateKey(id, row) => w.(keys := w.keys[id := row])
    case LogIn(credential) => w.(accessTokens := w.accessTokens + {credential})
  }

  /** A successful issue adds its one credential to those outstanding. */
  function Issue(w: World, step: Step): World
    requires Issues(step)
  {
    match step
    case Mint(ingress, a, o, expected, id, recorded) => (
      match IssueToken(w, ingress, a, o, expected, id, recorded)
      case Ok(t) => w.(tokens := w.tokens + {t}) case Err(_) => w)
    case Delegate(ingress, t, c, b, id, recorded) => (
      match IssueDelegation(w, ingress, t, c, b, id, recorded)
      case Ok(d) => w.(delegations := w.delegations + {d}) case Err(_) => w)
    case Check(receiver, t, d, b, observed, id) => (
      match Verify(w, receiver, t, d, b, observed, id)
      case Ok(v) => if v.continuation.Some? then w.(continuations := w.continuations + {v.continuation.value}) else w
      case Err(_) => w)
  }

  function Next(w: World, step: Step): World
    requires Enabled(w, step)
  { if Issues(step) then Issue(w, step) else Around(w, step) }

  ghost predicate Reaches(w: World, steps: seq<Step>, end: World)
    decreases |steps|
  {
    if steps == [] then w == end else Enabled(w, steps[0]) && Reaches(Next(w, steps[0]), steps[1..], end)
  }

  // ---- What a successful call established -------------------------------------------------------

  lemma CurrentCallerFacts(w: World, c: A.Caller, p: A.Peer)
    requires CurrentCaller(w, c, p).Ok?
    ensures CurrentCaller(w, c, p).value == c && Resolve(w, p) == Ok(c.identity)
    ensures Version(w.principalVersions, c.identity.principalId) == c.identity.principalVersion
    ensures Version(w.bindingVersions, c.identity.bindingId) == c.identity.bindingVersion
    ensures Version(w.grantVersions, KeyOf(c.identity, c.audience, c.operation)) == c.grantVersion
  {}

  /** A delegation is issued for the token's caller to the subject the permission check named. */
  lemma DelegationFacts(w: World, ingress: A.Caller, t: Token, c: Credential, b: Binding, id: Uuid, recorded: bool)
    requires IssueDelegation(w, ingress, t, c, b, id, recorded).Ok?
    ensures var d := IssueDelegation(w, ingress, t, c, b, id, recorded).value;
            && t in w.tokens && Live(w, t.issuedAt, t.expiresAt) && CurrentCaller(w, t.caller, ingress.identity.peer).Ok?
            && CheckPermission(w, c, b.sourceOperation, b.policyRevision) == Ok(d.subject)
            && d.subject.principal.id == b.subjectId && d.subject.principal.tenantId == b.tenantId
            && d.caller == t.caller && d.tokenId == t.id && d.binding == b && d.issuedAt == Truncate(w.clock)
            && d.expiresAt == DelegationExpiry(d.issuedAt, t.expiresAt, d.subject.credentialExpiresAt) && d.issuedAt < d.expiresAt
  {}

  lemma VerifyFacts(w: World, receiver: A.Caller, t: Token, d: Delegation, b: Binding, observed: A.Peer, id: Uuid)
    requires Verify(w, receiver, t, d, b, observed, id).Ok?
    ensures var v := Verify(w, receiver, t, d, b, observed, id).value;
            && t in w.tokens && d in w.delegations && Live(w, t.issuedAt, t.expiresAt) && Live(w, d.issuedAt, d.expiresAt)
            && CurrentCaller(w, t.caller, observed).Ok? && CurrentSubject(w, d.subject, b).None?
            && d.tokenId == t.id && d.caller == t.caller == v.caller && d.binding == b == v.binding
            && v.subject == d.subject.principal && v.expiresAt == d.expiresAt <= t.expiresAt
            && (v.continuation.Some? ==>
                  var p := v.continuation.value;
                  && p.caller == d.caller && p.subject == d.subject && p.binding == b && p.receiver == receiver
                  && p.issuedAt == Truncate(w.clock) && p.expiresAt == ContinuationExpiry(p.issuedAt, d.subject.credentialExpiresAt)
                  && p.issuedAt < p.expiresAt)
  {}

  /** A continuation carries the receiver's two grants as they were when it was issued. */
  lemma ReceiverFacts(w: World, receiver: A.Caller, t: Token, d: Delegation, b: Binding, observed: A.Peer, id: Uuid)
    requires Verify(w, receiver, t, d, b, observed, id).Ok? && Verify(w, receiver, t, d, b, observed, id).value.continuation.Some?
    ensures var p := Verify(w, receiver, t, d, b, observed, id).value.continuation.value;
            && p.receiver == receiver
            && Authorize(w, receiver.identity, p.authority.audience, p.authority.operation) == Ok(p.authority)
  {}

  lemma ContinuationFacts(w: World, receiver: A.Caller, p: Continuation, b: Binding)
    requires VerifyContinuation(w, receiver, p, b).Ok?
    ensures var v := VerifyContinuation(w, receiver, p, b).value;
            && p in w.continuations && Live(w, p.issuedAt, p.expiresAt) && p.receiver.identity == receiver.identity
            && CurrentCaller(w, p.caller, p.caller.identity.peer).Ok? && CurrentSubject(w, p.subject, b).None?
            && v == Verified(p.caller, p.subject.principal, b, p.expiresAt, None) && p.binding == b
  {}

  lemma SubjectFacts(w: World, s: Subject, b: Binding)
    requires CurrentSubject(w, s, b).None?
    ensures StandingHolds(w, s, b.sourceOperation) && s.principal.id == b.subjectId && s.principal.tenantId == b.tenantId
  {}

  /** A token is minted for the current grant of the ingress identity on an enabled caller target at its reviewed revision. */
  lemma TokenNeedsAuthority(w: World, ingress: A.Caller, a: string, o: string, expected: R.Revision, id: Uuid, recorded: bool)
    requires IssueToken(w, ingress, a, o, expected, id, recorded).Ok?
    ensures var t := IssueToken(w, ingress, a, o, expected, id, recorded).value; var target := R.Lookup(w.registry, a, o);
            && Ingress(ingress, IssueTokenRpc) && Authorize(w, ingress.identity, a, o) == Ok(t.caller) && recorded
            && target.Some? && target.value.enabled && (target.value.mechanism == R.Delegated || target.value.mechanism == R.WorkloadOnly)
            && t.caller.targetRevision == expected == R.RevisionFor(w.registry, a, o) && t.issuedAt == Truncate(w.clock) && t.id == id
  {}

  /** A delegation is issued only for a registered invocation of the token's own target, to a kind of subject its source allows. */
  lemma DelegationNeedsAuthority(w: World, ingress: A.Caller, t: Token, c: Credential, b: Binding, id: Uuid, recorded: bool)
    requires IssueDelegation(w, ingress, t, c, b, id, recorded).Ok?
    ensures Ingress(ingress, IssueDelegationRpc) && recorded && Registered(w, b).Ok? && b.policyRevision == w.policyRevision
    ensures t.caller.audience == b.audience && t.caller.operation == b.operation
    ensures SubjectAllowed(Registered(w, b).value.1, IssueDelegation(w, ingress, t, c, b, id, recorded).value.subject.principal)
  {}

  /** A verification needs the target's receiver grant, one environment and trust domain, and the subject's standing now. */
  lemma VerifyNeedsAuthority(w: World, receiver: A.Caller, t: Token, d: Delegation, b: Binding, observed: A.Peer, id: Uuid)
    requires Verify(w, receiver, t, d, b, observed, id).Ok?
    ensures Ingress(receiver, VerifyRpc) && Registered(w, b).Ok?
    ensures Authorize(w, receiver.identity, b.audience, Registered(w, b).value.0.receiverOperation).Ok?
    ensures observed.environment == receiver.identity.peer.environment && observed.trustDomain == receiver.identity.peer.trustDomain
    ensures Resolve(w, observed) == Ok(t.caller.identity)
    ensures StandingHolds(w, d.subject, b.sourceOperation) && SubjectAllowed(Registered(w, b).value.1, d.subject.principal)
    ensures b.sourceOperation in w.policies && SourceMatchesPolicy(Registered(w, b).value.1, w.policies[b.sourceOperation])
    ensures Verify(w, receiver, t, d, b, observed, id).value.continuation.Some? <==> Registered(w, b).value.0.continuation
  {
    VerifyFacts(w, receiver, t, d, b, observed, id);
    CurrentCallerFacts(w, t.caller, observed);
    SubjectFacts(w, d.subject, b);
  }

  /** A continuation is rechecked by its own receiver, under the same receiver grants and the subject's standing now. */
  lemma ContinuationNeedsAuthority(w: World, receiver: A.Caller, p: Continuation, b: Binding)
    requires VerifyContinuation(w, receiver, p, b).Ok?
    ensures Ingress(receiver, VerifyContinuationRpc) && Registered(w, b).Ok? && Registered(w, b).value.0.continuation
    ensures Authorize(w, receiver.identity, b.audience, Registered(w, b).value.0.receiverOperation) == Ok(p.authority)
    ensures Authorize(w, receiver.identity, p.receiver.audience, p.receiver.operation) == Ok(p.receiver)
    ensures StandingHolds(w, p.subject, b.sourceOperation) && w.clock < p.expiresAt
  {
    ContinuationFacts(w, receiver, p, b);
    SubjectFacts(w, p.subject, b);
  }

  // ---- Standing, in the rows themselves ---------------------------------------------------------

  /** An API key on record, active and unexpired, at this version, for this subject and operation. */
  predicate KeyStands(w: World, id: Uuid, version: int, subject: Uuid, tenant: Uuid, operation: string) {
    && id in w.keys && w.keys[id].active && (w.keys[id].neverExpires || w.clock < w.keys[id].expiresAt)
    && w.keys[id].version == version && w.keys[id].principalId == subject && w.keys[id].tenantId == tenant && (id, operation) in w.permits
  }

  /** A session grant on record, at this version, for this subject in this tenant and session. */
  predicate SessionStands(w: World, p: Principal, version: int, operation: string) {
    && p.grantId in w.sessionGrants && w.sessionGrants[p.grantId].version == version
    && w.sessionGrants[p.grantId].principalId == p.id && w.sessionGrants[p.grantId].tenantId == p.tenantId
    && w.sessionGrants[p.grantId].sessionId == p.sessionId && (p.grantId, operation) in w.permits
  }

  /** Whom the permission check passes: both kinds of credential, in either direction. */
  lemma PermittedIff(w: World, c: Credential, operation: string, policyRevision: string)
    ensures CheckPermission(w, c, operation, policyRevision).Ok? <==>
              && policyRevision == w.policyRevision && operation in w.policies
              && (match c
                  case Access(p, version, expiresAt) =>
                    && "human" in w.policies[operation].principalKinds && "access_token" in w.policies[operation].credentialKinds
                    && c in w.accessTokens && w.clock < expiresAt && p.kind == Human && SessionStands(w, p, version, operation)
                  case Key(id) =>
                    && "workload" in w.policies[operation].principalKinds && "api_key" in w.policies[operation].credentialKinds
                    && id in w.keys && KeyStands(w, id, w.keys[id].version, w.keys[id].principalId, w.keys[id].tenantId, operation))
    ensures CheckPermission(w, c, operation, policyRevision).Ok? ==>
              CheckPermission(w, c, operation, policyRevision).value ==
                (match c
                 case Access(p, version, expiresAt) => Subject(p, version, NilId, 0, expiresAt)
                 case Key(id) => Subject(Principal(Workload, w.keys[id].principalId, w.keys[id].tenantId, NilId, NilId), 0, id, w.keys[id].version,
                                         if w.keys[id].neverExpires then NoTime else w.keys[id].expiresAt))
  {}

  /** A delegation is issued on a usable key or session only, the credential's own expiry included. */
  lemma DelegationNeedsStanding(w: World, ingress: A.Caller, t: Token, c: Credential, b: Binding, id: Uuid, recorded: bool)
    requires IssueDelegation(w, ingress, t, c, b, id, recorded).Ok?
    ensures match c
            case Access(p, version, expiresAt) =>
              && c in w.accessTokens && w.clock < expiresAt && p.kind == Human && p.id == b.subjectId && p.tenantId == b.tenantId
              && SessionStands(w, p, version, b.sourceOperation)
            case Key(key) => key in w.keys && KeyStands(w, key, w.keys[key].version, b.subjectId, b.tenantId, b.sourceOperation)
  {
    DelegationFacts(w, ingress, t, c, b, id, recorded);
    PermittedIff(w, c, b.sourceOperation, b.policyRevision);
  }

  lemma StandingInRows(w: World, s: Subject, b: Binding)
    requires CurrentSubject(w, s, b).None?
    ensures match s.principal.kind
            case Human => SessionStands(w, s.principal, s.grantVersion, b.sourceOperation)
            case Workload => KeyStands(w, s.keyId, s.keyVersion, b.subjectId, b.tenantId, b.sourceOperation)
  {
    SubjectFacts(w, s, b);
  }

  /** Whenever a delegation or a continuation verifies, its subject's key or session still stands at the version it was issued for. */
  lemma VerifiedSubjectStands(w: World, receiver: A.Caller, t: Token, d: Delegation, p: Continuation, b: Binding, observed: A.Peer, id: Uuid)
    ensures Verify(w, receiver, t, d, b, observed, id).Ok? ==>
              match d.subject.principal.kind
              case Human => SessionStands(w, d.subject.principal, d.subject.grantVersion, b.sourceOperation)
              case Workload => KeyStands(w, d.subject.keyId, d.subject.keyVersion, b.subjectId, b.tenantId, b.sourceOperation)
    ensures VerifyContinuation(w, receiver, p, b).Ok? ==>
              match p.subject.principal.kind
              case Human => SessionStands(w, p.subject.principal, p.subject.grantVersion, b.sourceOperation)
              case Workload => KeyStands(w, p.subject.keyId, p.subject.keyVersion, b.subjectId, b.tenantId, b.sourceOperation)
  {
    if Verify(w, receiver, t, d, b, observed, id).Ok? {
      VerifyFacts(w, receiver, t, d, b, observed, id);
      StandingInRows(w, d.subject, b);
    }
    if VerifyContinuation(w, receiver, p, b).Ok? {
      ContinuationFacts(w, receiver, p, b);
      StandingInRows(w, p.subject, b);
    }
  }

  // ---- Provenance -------------------------------------------------------------------------------

  lemma ReachesCons(w: World, step: Step, rest: seq<Step>, end: World)
    requires Enabled(w, step) && Reaches(Next(w, step), rest, end)
    ensures Reaches(w, [step] + rest, end)
  {
    assert ([step] + rest)[1..] == rest;
  }

  /** What holds at the end and not at the start came about in one step of the run. */
  lemma {:induction false} FirstStep(w: World, steps: seq<Step>, end: World, holds: World -> bool) returns (k: nat, mid: World)
    requires Reaches(w, steps, end) && !holds(w) && holds(end)
    ensures k < |steps| && Reaches(w, steps[..k], mid) && Enabled(mid, steps[k])
    ensures !holds(mid) && holds(Next(mid, steps[k]))
    decreases |steps|
  {
    var step, next := steps[0], Next(w, steps[0]);
    if holds(next) {
      k, mid := 0, w;
      assert steps[..0] == [];
    } else {
      k, mid := FirstStep(next, steps[1..], end, holds);
      ReachesCons(w, step, steps[1..][..k], mid);
      assert [step] + steps[1..][..k] == steps[..k + 1];
      k := k + 1;
    }
  }

  lemma OnlyDelegateIssues(w: World, step: Step, d: Delegation)
    requires Enabled(w, step) && d !in w.delegations && d in Next(w, step).delegations
    ensures step.Delegate? && IssueDelegation(w, step.ingress, step.token, step.credential, step.binding, step.id, step.recorded) == Ok(d)
  {}

  lemma OnlyCheckContinues(w: World, step: Step, p: Continuation)
    requires Enabled(w, step) && p !in w.continuations && p in Next(w, step).continuations
    ensures step.Check?
    ensures var v := Verify(w, step.receiver, step.token, step.delegation, step.binding, step.observed, step.id);
            v.Ok? && v.value.continuation == Some(p)
  {}

  /** Nothing issued yet. */
  predicate Fresh(w: World) { w.tokens == {} && w.delegations == {} && w.continuations == {} }

  /**
   * Every verified invocation traces back to one delegation step of the run, for the same caller,
   * subject and binding, at which the permission check passed for that subject.
   */
  lemma VerifiedTracesToDelegation(w: World, steps: seq<Step>, end: World,
                                   receiver: A.Caller, t: Token, d: Delegation, b: Binding, observed: A.Peer, id: Uuid)
    returns (k: nat, mid: World)
    requires Fresh(w) && Reaches(w, steps, end) && Verify(end, receiver, t, d, b, observed, id).Ok?
    ensures k < |steps| && Reaches(w, steps[..k], mid) && steps[k].Delegate?
    ensures var v := Verify(end, receiver, t, d, b, observed, id).value; var s := steps[k];
            && IssueDelegation(mid, s.ingress, s.token, s.credential, s.binding, s.id, s.recorded) == Ok(d)
            && s.binding == b == v.binding && s.token.caller == v.caller && d.subject.principal == v.subject
            && CheckPermission(mid, s.credential, b.sourceOperation, b.policyRevision) == Ok(d.subject)
            && v.subject.id == b.subjectId && v.subject.tenantId == b.tenantId
  {
    VerifyFacts(end, receiver, t, d, b, observed, id);
    k, mid := FirstStep(w, steps, end, (x: World) => d in x.delegations);
    OnlyDelegateIssues(mid, steps[k], d);
    var s := steps[k];
    DelegationFacts(mid, s.ingress, s.token, s.credential, s.binding, s.id, s.recorded);
  }

  /** A continuation comes from one successful verification of the same request. */
  lemma ContinuationIssued(w: World, steps: seq<Step>, end: World, p: Continuation) returns (j: nat, at: World)
    requires Fresh(w) && Reaches(w, steps, end) && p in end.continuations
    ensures j < |steps| && Reaches(w, steps[..j], at) && steps[j].Check?
    ensures var c := steps[j];
            && Verify(at, c.receiver, c.token, c.delegation, c.binding, c.observed, c.id).Ok?
            && p.receiver == c.receiver && p.binding == c.binding && p.caller == c.token.caller && p.subject == c.delegation.subject
  {
    j, at := FirstStep(w, steps, end, (x: World) => p in x.continuations);
    OnlyCheckContinues(at, steps[j], p);
    var c := steps[j];
    VerifyFacts(at, c.receiver, c.token, c.delegation, c.binding, c.observed, c.id);
  }

  /** The tracing lemma above, without the verified value. */
  lemma DelegatedBefore(w: World, steps: seq<Step>, end: World,
                        receiver: A.Caller, t: Token, d: Delegation, b: Binding, observed: A.Peer, id: Uuid)
    returns (k: nat, mid: World)
    requires Fresh(w) && Reaches(w, steps, end) && Verify(end, receiver, t, d, b, observed, id).Ok?
    ensures k < |steps| && Reaches(w, steps[..k], mid) && steps[k].Delegate? && steps[k].binding == b && steps[k].token.caller == t.caller
    ensures CheckPermission(mid, steps[k].credential, b.sourceOperation, b.policyRevision) == Ok(d.subject)
    ensures var s := steps[k]; IssueDelegation(mid, s.ingress, s.token, s.credential, s.binding, s.id, s.recorded) == Ok(d)
  {
    VerifyFacts(end, receiver, t, d, b, observed, id);
    k, mid := VerifiedTracesToDelegation(w, steps, end, receiver, t, d, b, observed, id);
  }

  lemma PrefixOfPrefix(steps: seq<Step>, j: nat, k: nat)
    requires k < j <= |steps|
    ensures steps[..j][..k] == steps[..k] && steps[..j][k] == steps[k]
  {}

  /** A verified continuation traces to one verification by the same receiver, and through it to its delegation. */
  lemma ContinuationTracesToDelegation(w: World, steps: seq<Step>, end: World, receiver: A.Caller, p: Continuation, b: Binding)
    returns (j: nat, k: nat, mid: World)
    requires Fresh(w) && Reaches(w, steps, end) && VerifyContinuation(end, receiver, p, b).Ok?
    ensures k < j < |steps| && steps[j].Check? && steps[j].receiver.identity == receiver.identity && steps[j].binding == b
    ensures Reaches(w, steps[..k], mid) && steps[k].Delegate? && steps[k].binding == b && steps[k].token.caller == p.caller
    ensures CheckPermission(mid, steps[k].credential, b.sourceOperation, b.policyRevision) == Ok(p.subject)
    ensures var s := steps[k]; IssueDelegation(mid, s.ingress, s.token, s.credential, s.binding, s.id, s.recorded) == Ok(steps[j].delegation)
    ensures VerifyContinuation(end, receiver, p, b).value == Verified(p.caller, p.subject.principal, b, p.expiresAt, None)
  {
    ContinuationFacts(end, receiver, p, b);
    var at;
    j, at := ContinuationIssued(w, steps, end, p);
    var c := steps[j];
    k, mid := DelegatedBefore(w, steps[..j], at, c.receiver, c.token, c.delegation, c.binding, c.observed, c.id);
    PrefixOfPrefix(steps, j, k);
  }

  // ---- Expiry nests -----------------------------------------------------------------------------

  predicate TokenInv(t: Token) { t.expiresAt == t.issuedAt + TokenTTL }

  /** Within a minute, within the token it was issued on, and within the subject's own credential. */
  predicate DelegationInv(tokens: set<Token>, d: Delegation) {
    && d.issuedAt < d.expiresAt <= d.issuedAt + DelegationTTL
    && (d.subject.credentialExpiresAt != NoTime ==> d.expiresAt <= d.subject.credentialExpiresAt)
    && exists t :: t in tokens && t.id == d.tokenId && t.caller == d.caller && d.expiresAt <= t.expiresAt
  }

  /** Started under a live delegation for the same request; within 16 minutes and the subject's credential. */
  predicate ContinuationInv(delegations: set<Delegation>, p: Continuation) {
    && p.issuedAt < p.expiresAt <= p.issuedAt + ContinuationTTL
    && (p.subject.credentialExpiresAt != NoTime ==> p.expiresAt <= p.subject.credentialExpiresAt)
    && exists d :: d in delegations && d.caller == p.caller && d.subject == p.subject && d.binding == p.binding && p.issuedAt < d.expiresAt
  }

  predicate Nested(w: World) {
    && (forall t | t in w.tokens :: TokenInv(t))
    && (forall d | d in w.delegations :: DelegationInv(w.tokens, d))
    && (forall p | p in w.continuations :: ContinuationInv(w.delegations, p))
  }

  lemma IssuedGrow(w: World, step: Step)
    requires Enabled(w, step)
    ensures w.tokens <= Next(w, step).tokens && w.delegations <= Next(w, step).delegations && w.continuations <= Next(w, step).continuations
  {
    if Issues(step) { IssueOnlyAdds(w, step); }
  }

  lemma IssueOnlyAdds(w: World, step: Step)
    requires Issues(step)
    ensures var n := Issue(w, step);
            && w.tokens <= n.tokens && w.delegations <= n.delegations && w.continuations <= n.continuations
            && n == w.(tokens := n.tokens, delegations := n.delegations, continuations := n.continuations)
  {
    match step
    case Mint(_, _, _, _, _, _) =>
    case Delegate(_, _, _, _, _, _) =>
    case Check(_, _, _, _, _, _) =>
  }

  lemma OnlyMintIssues(w: World, step: Step, t: Token)
    requires Enabled(w, step) && t !in w.tokens && t in Next(w, step).tokens
    ensures step.Mint? && IssueToken(w, step.ingress, step.audience, step.operation, step.expected, step.id, step.recorded) == Ok(t)
  {}

  lemma NewDelegationNests(w: World, step: Step, d: Delegation)
    requires Enabled(w, step) && d !in w.delegations && d in Next(w, step).delegations
    ensures DelegationInv(w.tokens, d)
  {
    OnlyDelegateIssues(w, step, d);
    DelegationFacts(w, step.ingress, step.token, step.credential, step.binding, step.id, step.recorded);
  }

  lemma NewContinuationNests(w: World, step: Step, p: Continuation)
    requires Enabled(w, step) && p !in w.continuations && p in Next(w, step).continuations
    ensures ContinuationInv(w.delegations, p)
  {
    OnlyCheckContinues(w, step, p);
    VerifyFacts(w, step.receiver, step.token, step.delegation, step.binding, step.observed, step.id);
  }

  lemma StepKeepsNested(w: World, step: Step)
    requires Nested(w) && Enabled(w, step)
    ensures Nested(Next(w, step))
  {
    var n := Next(w, step);
    IssuedGrow(w, step);
    forall t | t in n.tokens ensures TokenInv(t) {
      if t !in w.tokens { OnlyMintIssues(w, step, t); }
    }
    forall d | d in n.delegations ensures DelegationInv(n.tokens, d) {
      if d !in w.delegations { NewDelegationNests(w, step, d); }
    }
    forall p | p in n.continuations ensures ContinuationInv(n.delegations, p) {
      if p !in w.continuations { NewContinuationNests(w, step, p); }
    }
  }

  lemma {:induction false} RunKeepsNested(w: World, steps: seq<Step>, end: World)
    requires Nested(w) && Reaches(w, steps, end)
    ensures Nested(end)
    decreases |steps|
  {
    if steps != [] {
      StepKeepsNested(w, steps[0]);
      RunKeepsNested(Next(w, steps[0]), steps[1..], end);
    }
  }

  /** In every run issued expiries nest, and an invocation verifies only before all of them. */
  lemma ExpiriesNest(w: World, steps: seq<Step>, end: World, receiver: A.Caller, t: Token, d: Delegation, b: Binding, observed: A.Peer, id: Uuid)
    requires Fresh(w) && Reaches(w, steps, end)
    ensures Nested(end)
    ensures var r := Verify(end, receiver, t, d, b, observed, id);
            r.Ok? ==>
              && end.clock < r.value.expiresAt <= t.expiresAt == t.issuedAt + 5 * Minute && r.value.expiresAt <= d.issuedAt + Minute
              && (d.subject.credentialExpiresAt != NoTime ==> r.value.expiresAt <= d.subject.credentialExpiresAt)
  {
    RunKeepsNested(w, steps, end);
    if Verify(end, receiver, t, d, b, observed, id).Ok? {
      VerifyFacts(end, receiver, t, d, b, observed, id);
      assert TokenInv(t) && DelegationInv(end.tokens, d);
    }
  }

  lemma ContinuationExpiryIff(now: Time, credential: Time, limit: Time)
    requires limit < now + ContinuationTTL && now % Second == 0
    ensures ContinuationExpiry(now, credential) <= limit <==> credential != NoTime && Truncate(credential) <= limit
  {}

  lemma LiveEndsSoon(w: World, issuedAt: Time, expiresAt: Time)
    requires Live(w, issuedAt, expiresAt) && expiresAt <= issuedAt + TokenTTL
    ensures Truncate(w.clock) % Second == 0 && expiresAt < Truncate(w.clock) + ContinuationTTL
  {}

  /**
   * In every run a continuation ends no later than the delegation it continues, or the workload token,
   * exactly when the subject's credential itself ends by then; a key without expiry never makes it so.
   */
  lemma ContinuationNestsIff(w: World, steps: seq<Step>, end: World, receiver: A.Caller, t: Token, d: Delegation, b: Binding, observed: A.Peer, id: Uuid)
    requires Fresh(w) && Reaches(w, steps, end)
    requires Verify(end, receiver, t, d, b, observed, id).Ok? && Verify(end, receiver, t, d, b, observed, id).value.continuation.Some?
    ensures var p := Verify(end, receiver, t, d, b, observed, id).value.continuation.value; var credential := d.subject.credentialExpiresAt;
            && (p.expiresAt <= d.expiresAt <==> credential != NoTime && Truncate(credential) <= d.expiresAt)
            && (p.expiresAt <= t.expiresAt <==> credential != NoTime && Truncate(credential) <= t.expiresAt)
  {
    ExpiriesNest(w, steps, end, receiver, t, d, b, observed, id);
    VerifyFacts(end, receiver, t, d, b, observed, id);
    LiveEndsSoon(end, t.issuedAt, t.expiresAt);
    ContinuationExpiryIff(Truncate(end.clock), d.subject.credentialExpiresAt, d.expiresAt);
    ContinuationExpiryIff(Truncate(end.clock), d.subject.credentialExpiresAt, t.expiresAt);
  }
}
