/**
 * The credential chain of internal/biz/workload_invocation.go: workload token, delegation, verified
 * invocation and continuation. A signed credential is its claims; it is genuine when this service
 * issued them. Times are microseconds.
 */
module WorkloadCredentials {
  import opened Ids
  import A = AuthorityRevision
  import R = WorkloadRegistry

  const TokenTTL: Time := 5 * Minute
  const DelegationTTL: Time := Minute
  const ContinuationTTL: Time := 16 * Minute

  const Service: string := "ani-iam"
  const IssueTokenRpc: string := "/iam.v1.AuthenticationService/IssueWorkloadToken"
  const IssueDelegationRpc: string := "/iam.v1.AuthenticationService/IssueDelegation"
  const VerifyRpc: string := "/iam.v1.AuthorizationService/VerifyWorkloadInvocation"
  const VerifyContinuationRpc: string := "/iam.v1.AuthorizationService/VerifySessionContinuation"

  datatype Binding = Binding(
    audience: string, operation: string, rpc: string, sourceOperation: string, tenantId: Uuid, subjectId: Uuid,
    resourceId: string, mode: string, requestDigest: Uuid, policyRevision: string, targetRevision: R.Revision)

  datatype PrincipalType = Human | Workload
  datatype Principal = Principal(kind: PrincipalType, id: Uuid, tenantId: Uuid, sessionId: Uuid, grantId: Uuid)

  /** `credentialExpiresAt` is NoTime for a key that never expires. */
  datatype Subject = Subject(principal: Principal, grantVersion: int, keyId: Uuid, keyVersion: int, credentialExpiresAt: Time)

  datatype Token = Token(id: Uuid, caller: A.Caller, issuedAt: Time, expiresAt: Time)
  datatype Delegation = Delegation(id: Uuid, tokenId: Uuid, caller: A.Caller, subject: Subject, binding: Binding, issuedAt: Time, expiresAt: Time)
  datatype Continuation = Continuation(
    id: Uuid, caller: A.Caller, receiver: A.Caller, authority: A.Caller, subject: Subject, binding: Binding, issuedAt: Time, expiresAt: Time)

  datatype SessionGrant = SessionGrant(principalId: Uuid, tenantId: Uuid, sessionId: Uuid, version: int)
  datatype ApiKey = ApiKey(principalId: Uuid, tenantId: Uuid, version: int, active: bool, neverExpires: bool, expiresAt: Time)
  datatype Policy = Policy(resource: string, action: string, handler: string, principalKinds: seq<string>, credentialKinds: seq<string>)

  datatype GrantKey = GrantKey(principalId: Uuid, audience: string, operation: string)

  /** What a subject presents: an access token's claims, or an API key. */
  datatype Credential = Access(principal: Principal, grantVersion: int, expiresAt: Time) | Key(keyId: Uuid)

  /** `permits` pairs a session grant or key with each operation its standing currently allows. */
  datatype World = World(
    registry: R.Registry, policies: map<string, Policy>, policyRevision: string, clock: Time,
    bindings: map<A.Peer, (Uuid, Uuid)>, principalVersions: map<Uuid, int>, bindingVersions: map<Uuid, int>,
    grantVersions: map<GrantKey, int>, activeGrants: set<GrantKey>,
    sessionGrants: map<Uuid, SessionGrant>, keys: map<Uuid, ApiKey>, permits: set<(Uuid, string)>, accessTokens: set<Credential>,
    tokens: set<Token>, delegations: set<Delegation>, continuations: set<Continuation>)

  datatype Failure = Denied | IdentityInvalid | InvocationInvalid | CredentialInvalid | PolicyMismatch | Unregistered | Unavailable
  datatype Result<+T> = Ok(value: T) | Err(error: Failure)

  function Truncate(t: Time): Time { t - t % Second }

  // ---- Current authority ------------------------------------------------------------------------

  predicate PeerShape(p: A.Peer) {
    && p.environment != "" && p.trustDomain != "" && p.identityKind == "x509_dns" && p.identityValue != ""
    && !IsSpace(p.identityValue[0]) && !IsSpace(p.identityValue[|p.identityValue| - 1])
    && forall i | 0 <= i < |p.identityValue| :: !('A' <= p.identityValue[i] <= 'Z') && p.identityValue[i] !in {' ', '*', '/', '\t', '\r', '\n'}
  }

  function Resolve(w: World, p: A.Peer): Result<A.Identity> {
    if !PeerShape(p) || p !in w.bindings || w.bindings[p].0 !in w.principalVersions || w.bindings[p].1 !in w.bindingVersions then Err(IdentityInvalid)
    else Ok(A.Identity(w.bindings[p].0, w.bindings[p].1, w.principalVersions[w.bindings[p].0], w.bindingVersions[w.bindings[p].1], p))
  }

  function KeyOf(i: A.Identity, audience: string, operation: string): GrantKey { GrantKey(i.principalId, audience, operation) }

  function Authorize(w: World, i: A.Identity, audience: string, operation: string): Result<A.Caller> {
    var t := R.Lookup(w.registry, audience, operation);
    var k := KeyOf(i, audience, operation);
    if i.principalId == NilId || i.bindingId == NilId || i.bindingVersion <= 0 || i.principalVersion <= 0 then Err(IdentityInvalid)
    else if t.None? || !t.value.enabled then Err(Denied)
    else if k !in w.activeGrants || k !in w.grantVersions || w.grantVersions[k] <= 0 then Err(Denied)
    else Ok(A.Caller(i, audience, operation, w.grantVersions[k], R.RevisionFor(w.registry, audience, operation)))
  }

  /** currentCaller: the peer still resolves to this identity and the grant is still this one. */
  function CurrentCaller(w: World, c: A.Caller, p: A.Peer): Result<A.Caller> {
    match Resolve(w, p)
    case Err(e) => Err(e)
    case Ok(i) =>
      if i != c.identity then Err(IdentityInvalid)
      else match Authorize(w, i, c.audience, c.operation)
        case Err(e) => Err(e)
        case Ok(current) => if current != c then Err(Denied) else Ok(current)
  }

  predicate ValidBinding(b: Binding) {
    && b.tenantId != NilId && b.subjectId != NilId && b.requestDigest != NilId && b.policyRevision != ""
    && b.resourceId != "" && |b.resourceId| <= 256 && !IsSpace(b.resourceId[0]) && !IsSpace(b.resourceId[|b.resourceId| - 1])
    && b.audience != "" && b.operation != "" && b.rpc != "" && b.sourceOperation != "" && b.mode != ""
  }

  /** Target.Source: the first source of this operation and mode. */
  function FindSource(sources: seq<R.Source>, operation: string, mode: string): Option<R.Source> {
    if sources == [] then None
    else if sources[0].operation == operation && sources[0].mode == mode then Some(sources[0])
    else FindSource(sources[1..], operation, mode)
  }

  /** ValidateRegisteredInvocation. */
  function Registered(w: World, b: Binding): Result<(R.Target, R.Source)> {
    var t := R.Lookup(w.registry, b.audience, b.operation);
    if !ValidBinding(b) || t.None? || t.value.mechanism != R.Delegated || t.value.rpc != b.rpc then Err(InvocationInvalid)
    else if !t.value.enabled || b.targetRevision != R.RevisionFor(w.registry, b.audience, b.operation) then Err(Denied)
    else match FindSource(t.value.sources, b.sourceOperation, b.mode)
      case None => Err(InvocationInvalid)
      case Some(s) => Ok((t.value, s))
  }

  predicate SourceMatchesPolicy(s: R.Source, p: Policy) {
    && p.resource == s.resource && p.action == s.action && p.handler == s.ownerHandler
    && |p.principalKinds| == |s.principalKinds| && |p.credentialKinds| == |s.credentialKinds|
    && (forall k | k in p.principalKinds :: k in s.principalKinds) && (forall k | k in p.credentialKinds :: k in s.credentialKinds)
  }

  predicate SubjectAllowed(s: R.Source, p: Principal) {
    match p.kind
    case Human => R.AllowsSubject(s, "human", "access_token")
    case Workload => R.AllowsSubject(s, "workload", "api_key")
  }

  predicate SubjectShape(s: Subject) {
    match s.principal.kind
    case Human => s.principal.sessionId != NilId && s.principal.grantId != NilId && s.grantVersion > 0 && s.keyId == NilId && s.keyVersion == 0
    case Workload => s.principal.sessionId == NilId && s.principal.grantId == NilId && s.grantVersion == 0 && s.keyId != NilId && s.keyVersion > 0
  }

  predicate KeyUsable(w: World, k: ApiKey) { k.active && (k.neverExpires || w.clock < k.expiresAt) }

  /** The subject's own standing for an operation: a session grant or key at exactly this version, with the permission. */
  predicate StandingHolds(w: World, s: Subject, operation: string) {
    match s.principal.kind
    case Human =>
      && s.principal.grantId in w.sessionGrants && (s.principal.grantId, operation) in w.permits
      && w.sessionGrants[s.principal.grantId] == SessionGrant(s.principal.id, s.principal.tenantId, s.principal.sessionId, s.grantVersion)
    case Workload =>
      && s.keyId in w.keys && (s.keyId, operation) in w.permits && w.keys[s.keyId].principalId == s.principal.id
      && w.keys[s.keyId].tenantId == s.principal.tenantId && w.keys[s.keyId].version == s.keyVersion && KeyUsable(w, w.keys[s.keyId])
  }

  /** CheckPermission together with subjectReference: whom the credential stands for, if it is allowed. */
  function CheckPermission(w: World, c: Credential, operation: string, policyRevision: string): Result<Subject> {
    if policyRevision != w.policyRevision then Err(PolicyMismatch)
    else if operation !in w.policies then Err(Unregistered)
    else if !PolicyAllows(w.policies[operation], c) then Err(Denied)
    else match c
      case Access(p, version, expiresAt) =>
        var s := Subject(p, version, NilId, 0, expiresAt);
        if c !in w.accessTokens || w.clock >= expiresAt || p.kind != Human then Err(CredentialInvalid)
        else if !StandingHolds(w, s, operation) then Err(Denied) else Ok(s)
      case Key(id) =>
        if id !in w.keys || !KeyUsable(w, w.keys[id]) then Err(CredentialInvalid)
        else
          var k := w.keys[id];
          var s := Subject(Principal(Workload, k.principalId, k.tenantId, NilId, NilId), 0, id, k.version, if k.neverExpires then NoTime else k.expiresAt);
          if !StandingHolds(w, s, operation) then Err(Denied) else Ok(s)
  }

  /** The policy of an operation names the kinds of principal and credential it is open to. */
  predicate PolicyAllows(p: Policy, c: Credential) {
    match c
    case Access(_, _, _) => "human" in p.principalKinds && "access_token" in p.credentialKinds
    case Key(_) => "workload" in p.principalKinds && "api_key" in p.credentialKinds
  }

  /** currentSubject. */
  function CurrentSubject(w: World, s: Subject, b: Binding): Option<Failure> {
    if s.principal.id != b.subjectId || s.principal.tenantId != b.tenantId then Some(Denied)
    else if b.policyRevision != w.policyRevision then Some(PolicyMismatch)
    else match Registered(w, b)
      case Err(e) => Some(e)
      case Ok(reg) =>
        if b.sourceOperation !in w.policies || !SourceMatchesPolicy(reg.1, w.policies[b.sourceOperation]) then Some(Unregistered)
        else if !SubjectAllowed(reg.1, s.principal) then Some(Denied)
        else if !SubjectShape(s) then Some(CredentialInvalid)
        else if !StandingHolds(w, s, b.sourceOperation) then Some(Denied)
        else None
  }

  // ---- The codec --------------------------------------------------------------------------------

  predicate Live(w: World, issuedAt: Time, expiresAt: Time) { issuedAt <= w.clock < expiresAt }

  function VerifyToken(w: World, t: Token): Option<Token> { if t in w.tokens && Live(w, t.issuedAt, t.expiresAt) then Some(t) else None }
  function VerifyDelegation(w: World, d: Delegation): Option<Delegation> { if d in w.delegations && Live(w, d.issuedAt, d.expiresAt) then Some(d) else None }
  function VerifyProof(w: World, c: Continuation): Option<Continuation> { if c in w.continuations && Live(w, c.issuedAt, c.expiresAt) then Some(c) else None }

  // ---- The four operations ----------------------------------------------------------------------

  predicate Ingress(c: A.Caller, rpc: string) { c.audience == Service && c.operation == rpc }

  function IssueToken(w: World, ingress: A.Caller, audience: string, operation: string, expected: R.Revision, id: Uuid, recorded: bool): Result<Token> {
    var t := R.Lookup(w.registry, audience, operation);
    if !Ingress(ingress, IssueTokenRpc) then Err(Denied)
    else if t.None? || !t.value.enabled || expected != R.RevisionFor(w.registry, audience, operation)
      || (t.value.mechanism != R.Delegated && t.value.mechanism != R.WorkloadOnly) then Err(Denied)
    else match Authorize(w, ingress.identity, audience, operation)
      case Err(e) => Err(e)
      case Ok(caller) =>
        var now := Truncate(w.clock);
        if now == NoTime || !PeerShape(caller.identity.peer) then Err(CredentialInvalid)
        else if !recorded then Err(Unavailable)
        else Ok(Token(id, caller, now, now + TokenTTL))
  }

  /** One minute, narrowed by the token and by the subject's own credential. */
  function DelegationExpiry(now: Time, tokenExpiresAt: Time, subjectExpiresAt: Time): Time {
    var a := Min(now + DelegationTTL, tokenExpiresAt);
    Truncate(if subjectExpiresAt != NoTime then Min(a, subjectExpiresAt) else a)
  }

  /** The narrowing loop: unset limits are skipped, and the earliest is cut to whole seconds. */
  method NarrowExpiry(now: Time, tokenExpiresAt: Time, subjectExpiresAt: Time) returns (expires: Time)
    requires tokenExpiresAt != NoTime
    ensures expires == DelegationExpiry(now, tokenExpiresAt, subjectExpiresAt)
    ensures expires <= now + DelegationTTL && expires <= tokenExpiresAt && (subjectExpiresAt != NoTime ==> expires <= subjectExpiresAt)
  {
    var limits := [tokenExpiresAt, subjectExpiresAt];
    expires := now + DelegationTTL;
    for i := 0 to |limits|
      invariant expires == if i == 0 then now + DelegationTTL
                           else if i == 1 || subjectExpiresAt == NoTime then Min(now + DelegationTTL, tokenExpiresAt)
                           else Min(Min(now + DelegationTTL, tokenExpiresAt), subjectExpiresAt)
    {
      if limits[i] != NoTime && limits[i] < expires { expires := limits[i]; }
    }
    expires := Truncate(expires);
  }

  function IssueDelegation(w: World, ingress: A.Caller, t: Token, c: Credential, b: Binding, id: Uuid, recorded: bool): Result<Delegation> {
    if !Ingress(ingress, IssueDelegationRpc) then Err(Denied)
    else match Registered(w, b)
      case Err(e) => Err(e)
      case Ok(reg) =>
        if VerifyToken(w, t).None? then Err(CredentialInvalid)
        else match CurrentCaller(w, t.caller, ingress.identity.peer)
          case Err(e) => Err(e)
          case Ok(_) =>
            if t.caller.audience != b.audience || t.caller.operation != b.operation then Err(Denied)
            else match CheckPermission(w, c, b.sourceOperation, b.policyRevision)
              case Err(e) => Err(e)
              case Ok(s) =>
                if s.principal.id != b.subjectId || s.principal.tenantId != b.tenantId || !SubjectAllowed(reg.1, s.principal) then Err(Denied)
                else
                  var now := Truncate(w.clock);
                  var expires := DelegationExpiry(now, t.expiresAt, s.credentialExpiresAt);
                  if expires <= now || now == NoTime || !SubjectShape(s) then Err(CredentialInvalid)
                  else if !recorded then Err(Unavailable)
                  else Ok(Delegation(id, t.id, t.caller, s, b, now, expires))
  }

  datatype Verified = Verified(caller: A.Caller, subject: Principal, binding: Binding, expiresAt: Time, continuation: Option<Continuation>)

  function ContinuationExpiry(now: Time, subjectExpiresAt: Time): Time {
    if subjectExpiresAt != NoTime && subjectExpiresAt < now + ContinuationTTL then Truncate(subjectExpiresAt) else now + ContinuationTTL
  }

  function Verify(w: World, receiver: A.Caller, t: Token, d: Delegation, b: Binding, observed: A.Peer, id: Uuid): Result<Verified> {
    if !Ingress(receiver, VerifyRpc) then Err(Denied)
    else match Registered(w, b)
      case Err(e) => Err(e)
      case Ok(reg) => (
        match Authorize(w, receiver.identity, b.audience, reg.0.receiverOperation)
        case Err(e) => Err(e)
        case Ok(authority) =>
          if observed.environment != receiver.identity.peer.environment || observed.trustDomain != receiver.identity.peer.trustDomain then Err(IdentityInvalid)
          else if VerifyToken(w, t).None? then Err(CredentialInvalid)
          else match CurrentCaller(w, t.caller, observed)
            case Err(e) => Err(e)
            case Ok(caller) =>
              if VerifyDelegation(w, d).None? then Err(CredentialInvalid)
              else if d.tokenId != t.id || d.caller != caller || d.binding != b || caller.audience != b.audience
                || caller.operation != b.operation || d.expiresAt > t.expiresAt then Err(Denied)
              else if CurrentSubject(w, d.subject, b).Some? then Err(CurrentSubject(w, d.subject, b).value)
              else if !reg.0.continuation then Ok(Verified(caller, d.subject.principal, b, d.expiresAt, None))
              else
                var now := Truncate(w.clock);
                var expires := ContinuationExpiry(now, d.subject.credentialExpiresAt);
                if expires <= now then Err(CredentialInvalid)
                else Ok(Verified(caller, d.subject.principal, b, d.expiresAt,
                                 Some(Continuation(id, caller, receiver, authority, d.subject, b, now, expires)))))
  }

  function VerifyContinuation(w: World, receiver: A.Caller, p: Continuation, b: Binding): Result<Verified> {
    if !Ingress(receiver, VerifyContinuationRpc) then Err(Denied)
    else match Registered(w, b)
      case Err(e) => Err(e)
      case Ok(reg) => (
        if !reg.0.continuation then Err(Denied)
        else match Authorize(w, receiver.identity, b.audience, reg.0.receiverOperation)
          case Err(e) => Err(e)
          case Ok(authority) =>
            if VerifyProof(w, p).None? then Err(CredentialInvalid)
            else if p.binding != b || p.receiver.identity != receiver.identity || p.authority != authority then Err(Denied)
            else match Authorize(w, receiver.identity, p.receiver.audience, p.receiver.operation)
              case Err(e) => Err(e)
              case Ok(original) =>
                if original != p.receiver then Err(Denied)
                else match CurrentCaller(w, p.caller, p.caller.identity.peer)
                  case Err(e) => Err(e)
                  case Ok(caller) =>
                    if CurrentSubject(w, p.subject, b).Some? then Err(CurrentSubject(w, p.subject, b).value)
                    else Ok(Verified(caller, p.subject.principal, b, p.expiresAt, None)))
  }
}
