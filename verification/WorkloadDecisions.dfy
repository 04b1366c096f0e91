/** When each call of the credential chain succeeds, in the rows and claims themselves, and what each refusal is told. */
module WorkloadDecisions {
  import opened Ids
  import A = AuthorityRevision
  import R = WorkloadRegistry
  import opened WorkloadCredentials
  import opened WorkloadChain

  // ---- Peers, identities and grants -------------------------------------------------------------

  /** A transport peer: an environment, a trust domain and a trimmed lower-case DNS name without blanks, wildcards or paths. */
  predicate DnsPeer(p: A.Peer) {
    && p.environment != "" && p.trustDomain != "" && p.identityKind == "x509_dns" && p.identityValue != ""
    && !IsSpace(p.identityValue[0]) && !IsSpace(p.identityValue[|p.identityValue| - 1])
    && forall c | c in p.identityValue :: !('A' <= c && c <= 'Z') && c != ' ' && c != '*' && c != '/' && c != '\t' && c != '\r' && c != '\n'
  }

  /** A bound peer resolves to exactly its principal and binding, at the versions on record. */
  lemma ResolvedIff(w: World, p: A.Peer, i: A.Identity)
    ensures Resolve(w, p) == Ok(i) <==>
              && DnsPeer(p) && p in w.bindings && w.bindings[p] == (i.principalId, i.bindingId) && i.peer == p
              && i.principalId in w.principalVersions && w.principalVersions[i.principalId] == i.principalVersion
              && i.bindingId in w.bindingVersions && w.bindingVersions[i.bindingId] == i.bindingVersion
    ensures Resolve(w, p).Err? ==> Resolve(w, p).error == IdentityInvalid
  {
    assert forall k | 0 <= k < |p.identityValue| :: p.identityValue[k] in p.identityValue;
  }

  predicate OnRecord(i: A.Identity) { i.principalId != NilId && i.bindingId != NilId && i.principalVersion > 0 && i.bindingVersion > 0 }

  predicate Serves(r: R.Registry, audience: string, operation: string) {
    R.Lookup(r, audience, operation).Some? && R.Lookup(r, audience, operation).value.enabled
  }

  /** A grant of the operation to the principal that is active, at this version. */
  predicate HoldsGrant(w: World, principal: Uuid, audience: string, operation: string, version: int) {
    var k := GrantKey(principal, audience, operation);
    k in w.activeGrants && k in w.grantVersions && w.grantVersions[k] == version && version > 0
  }

  /** Authority is a sound identity, an enabled target and an active grant, and says which revision of the target. */
  lemma AuthorizedIff(w: World, i: A.Identity, audience: string, operation: string, c: A.Caller)
    ensures Authorize(w, i, audience, operation) == Ok(c) <==>
              && OnRecord(i) && Serves(w.registry, audience, operation) && HoldsGrant(w, i.principalId, audience, operation, c.grantVersion)
              && c == A.Caller(i, audience, operation, c.grantVersion, R.RevisionFor(w.registry, audience, operation))
    ensures Authorize(w, i, audience, operation).Err? ==>
              Authorize(w, i, audience, operation).error == if OnRecord(i) then Denied else IdentityInvalid
  {}

  /** Everything a caller was issued under, unchanged: the peer, both versions, the grant and the target's revision. */
  predicate StillCurrent(w: World, c: A.Caller, p: A.Peer) {
    && Resolve(w, p) == Ok(c.identity) && OnRecord(c.identity) && Serves(w.registry, c.audience, c.operation)
    && HoldsGrant(w, c.identity.principalId, c.audience, c.operation, c.grantVersion)
    && c.targetRevision == R.RevisionFor(w.registry, c.audience, c.operation)
  }

  lemma CurrentCallerIff(w: World, c: A.Caller, p: A.Peer)
    ensures CurrentCaller(w, c, p) == Ok(c) <==> StillCurrent(w, c, p)
    ensures CurrentCaller(w, c, p).Ok? ==> CurrentCaller(w, c, p) == Ok(c)
    ensures CurrentCaller(w, c, p).Err? ==>
              CurrentCaller(w, c, p).error == if Resolve(w, p) == Ok(c.identity) && OnRecord(c.identity) then Denied else IdentityInvalid
  {
    AuthorizedIff(w, c.identity, c.audience, c.operation, c);
  }

  // ---- Bindings and subjects --------------------------------------------------------------------

  predicate CompleteBinding(b: Binding) {
    && b.tenantId != NilId && b.subjectId != NilId && b.requestDigest != NilId && b.policyRevision != ""
    && 1 <= |b.resourceId| <= 256 && !IsSpace(b.resourceId[0]) && !IsSpace(b.resourceId[|b.resourceId| - 1])
    && "" !in [b.audience, b.operation, b.rpc, b.sourceOperation, b.mode]
  }

  /** The first source of a target for an operation and mode is the one that counts. */
  lemma {:induction false} FindSourceIsFirst(sources: seq<R.Source>, operation: string, mode: string)
    ensures match FindSource(sources, operation, mode)
            case None => forall s | s in sources :: s.operation != operation || s.mode != mode
            case Some(s) => s in sources && s.operation == operation && s.mode == mode
    decreases |sources|
  {
    if sources != [] { FindSourceIsFirst(sources[1..], operation, mode); }
  }

  /** The request names a delegated target by its own method and revision, and one of its sources. */
  predicate Names(w: World, b: Binding, t: R.Target, s: R.Source) {
    && CompleteBinding(b) && R.Lookup(w.registry, b.audience, b.operation) == Some(t) && t.mechanism == R.Delegated && t.rpc == b.rpc
    && t.enabled && b.targetRevision == R.RevisionFor(w.registry, b.audience, b.operation)
    && FindSource(t.sources, b.sourceOperation, b.mode) == Some(s)
  }

  lemma RegisteredIff(w: World, b: Binding, t: R.Target, s: R.Source)
    ensures Registered(w, b) == Ok((t, s)) <==> Names(w, b, t, s)
    ensures Registered(w, b).Err? ==>
              var found := R.Lookup(w.registry, b.audience, b.operation);
              Registered(w, b).error ==
                if !CompleteBinding(b) || found.None? || found.value.mechanism != R.Delegated || found.value.rpc != b.rpc then InvocationInvalid
                else if !found.value.enabled || b.targetRevision != R.RevisionFor(w.registry, b.audience, b.operation) then Denied
                else InvocationInvalid
  {
    assert ValidBinding(b) == CompleteBinding(b);
  }

  /** The policy of the source operation says the same as the registered source. */
  predicate PolicyAgrees(w: World, operation: string, s: R.Source) {
    && operation in w.policies
    && var p := w.policies[operation];
       && p.resource == s.resource && p.action == s.action && p.handler == s.ownerHandler
       && |p.principalKinds| == |s.principalKinds| && |p.credentialKinds| == |s.credentialKinds|
       && (forall k | k in p.principalKinds :: k in s.principalKinds) && (forall k | k in p.credentialKinds :: k in s.credentialKinds)
  }

  /** The source admits people with access tokens, workloads with API keys, each only if it lists both kinds. */
  predicate Admitted(s: R.Source, kind: PrincipalType) {
    match kind
    case Human => "human" in s.principalKinds && "access_token" in s.credentialKinds
    case Workload => "workload" in s.principalKinds && "api_key" in s.credentialKinds
  }

  /** A person is known by session and grant, a workload by its key, and neither by the other's. */
  predicate OneKindOnly(s: Subject) {
    match s.principal.kind
    case Human => s.principal.sessionId != NilId && s.principal.grantId != NilId && s.grantVersion > 0 && s.keyId == NilId && s.keyVersion == 0
    case Workload => s.keyId != NilId && s.keyVersion > 0 && s.principal.sessionId == NilId && s.principal.grantId == NilId && s.grantVersion == 0
  }

  predicate Stands(w: World, s: Subject, operation: string) {
    match s.principal.kind
    case Human => SessionStands(w, s.principal, s.grantVersion, operation)
    case Workload => KeyStands(w, s.keyId, s.keyVersion, s.principal.id, s.principal.tenantId, operation)
  }

  lemma CurrentSubjectIff(w: World, s: Subject, b: Binding, t: R.Target, source: R.Source)
    requires Registered(w, b) == Ok((t, source))
    ensures CurrentSubject(w, s, b).None? <==>
              && s.principal.id == b.subjectId && s.principal.tenantId == b.tenantId && b.policyRevision == w.policyRevision
              && PolicyAgrees(w, b.sourceOperation, source) && Admitted(source, s.principal.kind) && OneKindOnly(s) && Stands(w, s, b.sourceOperation)
    ensures CurrentSubject(w, s, b).Some? ==>
              CurrentSubject(w, s, b).value ==
                if s.principal.id != b.subjectId || s.principal.tenantId != b.tenantId then Denied
                else if b.policyRevision != w.policyRevision then PolicyMismatch
                else if !PolicyAgrees(w, b.sourceOperation, source) then Unregistered
                else if !Admitted(source, s.principal.kind) then Denied
                else if !OneKindOnly(s) then CredentialInvalid else Denied
  {}

  // ---- The four calls ---------------------------------------------------------------------------

  /** The whole second a credential is dated. */
  predicate Dated(clock: Time, issuedAt: Time) { issuedAt % Second == 0 && issuedAt <= clock < issuedAt + Second && issuedAt != NoTime }

  predicate Calls(c: A.Caller, rpc: string) { c.audience == "ani-iam" && c.operation == rpc }

  /** Genuine, and within its own times. */
  predicate TokenLives(w: World, t: Token) { t in w.tokens && t.issuedAt <= w.clock && w.clock < t.expiresAt }
  predicate DelegationLives(w: World, d: Delegation) { d in w.delegations && d.issuedAt <= w.clock && w.clock < d.expiresAt }
  predicate ContinuationLives(w: World, p: Continuation) { p in w.continuations && p.issuedAt <= w.clock && w.clock < p.expiresAt }

  /** A target that callers invoke, as opposed to this service's own methods and receivers. */
  predicate Invocable(w: World, audience: string, operation: string, expected: R.Revision) {
    && Serves(w.registry, audience, operation) && expected == R.RevisionFor(w.registry, audience, operation)
    && R.Lookup(w.registry, audience, operation).value.mechanism in {R.Delegated, R.WorkloadOnly}
  }

  /** When a workload token is issued, and the one it then is. */
  lemma TokenIssuedIff(w: World, ingress: A.Caller, a: string, o: string, expected: R.Revision, id: Uuid, recorded: bool, t: Token)
    ensures IssueToken(w, ingress, a, o, expected, id, recorded) == Ok(t) <==>
              && Calls(ingress, "/iam.v1.AuthenticationService/IssueWorkloadToken") && Invocable(w, a, o, expected) && recorded
              && Authorize(w, ingress.identity, a, o) == Ok(t.caller) && DnsPeer(ingress.identity.peer)
              && t.id == id && Dated(w.clock, t.issuedAt) && t.expiresAt == t.issuedAt + 5 * Minute
    ensures IssueToken(w, ingress, a, o, expected, id, recorded).Err? ==>
              IssueToken(w, ingress, a, o, expected, id, recorded).error ==
                if !Calls(ingress, "/iam.v1.AuthenticationService/IssueWorkloadToken") || !Invocable(w, a, o, expected) then Denied
                else if Authorize(w, ingress.identity, a, o).Err? then Authorize(w, ingress.identity, a, o).error
                else if !Dated(w.clock, Truncate(w.clock)) || !DnsPeer(ingress.identity.peer) then CredentialInvalid else Unavailable
  {
    assert PeerShape(ingress.identity.peer) == DnsPeer(ingress.identity.peer) by { PeerShapeIff(ingress.identity.peer); }
    DatedIff(w.clock, t.issuedAt);
    DatedIff(w.clock, Truncate(w.clock));
  }

  lemma PeerShapeIff(p: A.Peer)
    ensures PeerShape(p) == DnsPeer(p)
  {
    assert forall k | 0 <= k < |p.identityValue| :: p.identityValue[k] in p.identityValue;
  }

  lemma DatedIff(clock: Time, issuedAt: Time)
    ensures Dated(clock, issuedAt) <==> issuedAt == Truncate(clock) && issuedAt != NoTime
  {}

  /** The latest whole second within a minute, the token and the credential, if it has an end. */
  predicate Narrowed(expiresAt: Time, issuedAt: Time, tokenExpiresAt: Time, credential: Time) {
    && expiresAt % Second == 0 && expiresAt <= issuedAt + Minute && expiresAt <= tokenExpiresAt && (credential != NoTime ==> expiresAt <= credential)
    && (issuedAt + Minute < expiresAt + Second || tokenExpiresAt < expiresAt + Second || (credential != NoTime && credential < expiresAt + Second))
  }

  lemma NarrowedIff(expiresAt: Time, issuedAt: Time, tokenExpiresAt: Time, credential: Time)
    ensures Narrowed(expiresAt, issuedAt, tokenExpiresAt, credential) <==> expiresAt == DelegationExpiry(issuedAt, tokenExpiresAt, credential)
  {}

  /** Token, caller and request belong together, and the subject is the request's own. */
  predicate Delegable(w: World, ingress: A.Caller, t: Token, b: Binding, source: R.Source, subject: Subject) {
    && TokenLives(w, t) && StillCurrent(w, t.caller, ingress.identity.peer) && t.caller.audience == b.audience && t.caller.operation == b.operation
    && subject.principal.id == b.subjectId && subject.principal.tenantId == b.tenantId && Admitted(source, subject.principal.kind)
  }

  /** When a delegation is issued, and the one it then is. */
  lemma DelegationIssuedIff(w: World, ingress: A.Caller, t: Token, c: Credential, b: Binding, id: Uuid, recorded: bool,
                            target: R.Target, source: R.Source, d: Delegation)
    requires Registered(w, b) == Ok((target, source))
    ensures IssueDelegation(w, ingress, t, c, b, id, recorded) == Ok(d) <==>
              && Calls(ingress, "/iam.v1.AuthenticationService/IssueDelegation") && recorded
              && CheckPermission(w, c, b.sourceOperation, b.policyRevision) == Ok(d.subject)
              && Delegable(w, ingress, t, b, source, d.subject) && OneKindOnly(d.subject)
              && d.id == id && d.tokenId == t.id && d.caller == t.caller && d.binding == b
              && Dated(w.clock, d.issuedAt) && Narrowed(d.expiresAt, d.issuedAt, t.expiresAt, d.subject.credentialExpiresAt) && d.issuedAt < d.expiresAt
  {
    CurrentCallerIff(w, t.caller, ingress.identity.peer);
    DatedIff(w.clock, d.issuedAt);
    NarrowedIff(d.expiresAt, d.issuedAt, t.expiresAt, d.subject.credentialExpiresAt);
  }

  lemma DelegationRefusalsAreTold(w: World, ingress: A.Caller, t: Token, c: Credential, b: Binding, id: Uuid, recorded: bool)
    requires IssueDelegation(w, ingress, t, c, b, id, recorded).Err?
    ensures var permitted := CheckPermission(w, c, b.sourceOperation, b.policyRevision);
            var e := IssueDelegation(w, ingress, t, c, b, id, recorded).error;
            if !Calls(ingress, "/iam.v1.AuthenticationService/IssueDelegation") then e == Denied
            else if Registered(w, b).Err? then e == Registered(w, b).error
            else if !TokenLives(w, t) then e == CredentialInvalid
            else if CurrentCaller(w, t.caller, ingress.identity.peer).Err? then e == CurrentCaller(w, t.caller, ingress.identity.peer).error
            else if t.caller.audience != b.audience || t.caller.operation != b.operation then e == Denied
            else if permitted.Err? then e == permitted.error
            else if !Delegable(w, ingress, t, b, Registered(w, b).value.1, permitted.value) then e == Denied
            else e == CredentialInvalid || (e == Unavailable && !recorded)
  {
    CurrentCallerIff(w, t.caller, ingress.identity.peer);
  }

  /** The delegation is this token's, for this caller and request, and does not outlast it. */
  predicate Belongs(t: Token, d: Delegation, b: Binding) {
    && d.tokenId == t.id && d.caller == t.caller && d.binding == b && t.caller.audience == b.audience && t.caller.operation == b.operation
    && d.expiresAt <= t.expiresAt
  }

  predicate ReceiverMay(w: World, receiver: A.Caller, b: Binding, target: R.Target) {
    Authorize(w, receiver.identity, b.audience, target.receiverOperation).Ok?
  }

  /** Sixteen minutes, or the credential's last whole second if that comes first. */
  function ContinuesUntil(issuedAt: Time, credential: Time): Time {
    if credential == NoTime || credential >= issuedAt + 16 * Minute then issuedAt + 16 * Minute else credential - credential % Second
  }

  /** When an invocation verifies; a continuation target then hands out its continuation. */
  lemma VerifiedIff(w: World, receiver: A.Caller, t: Token, d: Delegation, b: Binding, observed: A.Peer, id: Uuid, target: R.Target, source: R.Source)
    requires Registered(w, b) == Ok((target, source))
    ensures var r := Verify(w, receiver, t, d, b, observed, id);
            var now := Truncate(w.clock); var until := ContinuesUntil(now, d.subject.credentialExpiresAt);
            && (r.Ok? <==>
                  && Calls(receiver, "/iam.v1.AuthorizationService/VerifyWorkloadInvocation") && ReceiverMay(w, receiver, b, target)
                  && observed.environment == receiver.identity.peer.environment && observed.trustDomain == receiver.identity.peer.trustDomain
                  && TokenLives(w, t) && StillCurrent(w, t.caller, observed) && DelegationLives(w, d) && Belongs(t, d, b)
                  && CurrentSubject(w, d.subject, b).None? && (target.continuation ==> now < until))
            && (r.Ok? ==>
                  r.value == Verified(t.caller, d.subject.principal, b, d.expiresAt,
                    if target.continuation
                    then Some(Continuation(id, t.caller, receiver, Authorize(w, receiver.identity, b.audience, target.receiverOperation).value, d.subject, b, now, until))
                    else None))
  {
    CurrentCallerIff(w, t.caller, observed);
  }

  lemma VerifyRefusalsAreTold(w: World, receiver: A.Caller, t: Token, d: Delegation, b: Binding, observed: A.Peer, id: Uuid)
    requires Verify(w, receiver, t, d, b, observed, id).Err?
    ensures var e := Verify(w, receiver, t, d, b, observed, id).error;
            if !Calls(receiver, "/iam.v1.AuthorizationService/VerifyWorkloadInvocation") then e == Denied
            else if Registered(w, b).Err? then e == Registered(w, b).error
            else if !ReceiverMay(w, receiver, b, Registered(w, b).value.0) then
              e == Authorize(w, receiver.identity, b.audience, Registered(w, b).value.0.receiverOperation).error
            else if observed.environment != receiver.identity.peer.environment || observed.trustDomain != receiver.identity.peer.trustDomain then e == IdentityInvalid
            else if !TokenLives(w, t) then e == CredentialInvalid
            else if CurrentCaller(w, t.caller, observed).Err? then e == CurrentCaller(w, t.caller, observed).error
            else if !DelegationLives(w, d) then e == CredentialInvalid
            else if !Belongs(t, d, b) then e == Denied
            else if CurrentSubject(w, d.subject, b).Some? then e == CurrentSubject(w, d.subject, b).value else e == CredentialInvalid
  {
    CurrentCallerIff(w, t.caller, observed);
  }

  /** When a continuation verifies again: by its receiver, under both grants it was issued with, for a caller and subject that still stand. */
  lemma ContinuationVerifiedIff(w: World, receiver: A.Caller, p: Continuation, b: Binding, target: R.Target, source: R.Source)
    requires Registered(w, b) == Ok((target, source))
    ensures VerifyContinuation(w, receiver, p, b).Ok? <==>
              && Calls(receiver, "/iam.v1.AuthorizationService/VerifySessionContinuation") && target.continuation
              && ContinuationLives(w, p) && p.binding == b && p.receiver.identity == receiver.identity
              && Authorize(w, receiver.identity, b.audience, target.receiverOperation) == Ok(p.authority)
              && Authorize(w, receiver.identity, p.receiver.audience, p.receiver.operation) == Ok(p.receiver)
              && StillCurrent(w, p.caller, p.caller.identity.peer) && CurrentSubject(w, p.subject, b).None?
  {
    CurrentCallerIff(w, p.caller, p.caller.identity.peer);
  }

  lemma RecheckRefusalsAreTold(w: World, receiver: A.Caller, p: Continuation, b: Binding)
    requires VerifyContinuation(w, receiver, p, b).Err?
    ensures var e := VerifyContinuation(w, receiver, p, b).error;
            if !Calls(receiver, "/iam.v1.AuthorizationService/VerifySessionContinuation") then e == Denied
            else if Registered(w, b).Err? then e == Registered(w, b).error
            else
              var authority := Authorize(w, receiver.identity, b.audience, Registered(w, b).value.0.receiverOperation);
              var original := Authorize(w, receiver.identity, p.receiver.audience, p.receiver.operation);
              if !Registered(w, b).value.0.continuation then e == Denied
              else if authority.Err? then e == authority.error
              else if !ContinuationLives(w, p) then e == CredentialInvalid
              else if p.binding != b || p.receiver.identity != receiver.identity || authority != Ok(p.authority) then e == Denied
              else if original.Err? then e == original.error
              else if original != Ok(p.receiver) then e == Denied
              else if CurrentCaller(w, p.caller, p.caller.identity.peer).Err? then e == CurrentCaller(w, p.caller, p.caller.identity.peer).error
              else CurrentSubject(w, p.subject, b) == Some(e)
  {}

  /** The credential is unknown, or known and over: an access token past its expiry, a key revoked or expired. */
  predicate Over(w: World, c: Credential) {
    match c
    case Access(p, _, expiresAt) => c !in w.accessTokens || w.clock >= expiresAt || p.kind != Human
    case Key(id) => id !in w.keys || !w.keys[id].active || (!w.keys[id].neverExpires && w.clock >= w.keys[id].expiresAt)
  }

  /** Which kinds a policy admits the credential under. */
  predicate OpenTo(p: Policy, c: Credential) {
    if c.Access? then "human" in p.principalKinds && "access_token" in p.credentialKinds
    else "workload" in p.principalKinds && "api_key" in p.credentialKinds
  }

  /** What an unpermitted credential is told: an outdated policy, an unknown operation, a kind not admitted, a credential that is over, or no standing. */
  lemma PermissionRefusalsAreTold(w: World, c: Credential, operation: string, policyRevision: string)
    requires CheckPermission(w, c, operation, policyRevision).Err?
    ensures CheckPermission(w, c, operation, policyRevision).error ==
              if policyRevision != w.policyRevision then PolicyMismatch
              else if operation !in w.policies then Unregistered
              else if !OpenTo(w.policies[operation], c) then Denied
              else if Over(w, c) then CredentialInvalid else Denied
  {}
}
