/** A session that goes on after its delegation and its workload token have ended: one run, step by step. */
module WorkloadOutlives {
  import opened Ids
  import A = AuthorityRevision
  import R = WorkloadRegistry
  import opened WorkloadCredentials
  import opened WorkloadChain
  import D = WorkloadDecisions

  /** A gateway calls a continuation target, for a workload whose key has no expiry or for a person signed in for 15 more minutes. */
  datatype Case = Case(
    registry: R.Registry, target: R.Target, source: R.Source, holder: PrincipalType, gateway: A.Identity, sessions: A.Identity,
    key: Uuid, subject: Uuid, tenant: Uuid, digest: Uuid, id: Uuid)

  predicate Serves(r: R.Registry, audience: string, operation: string) {
    R.Lookup(r, audience, operation).Some? && R.Lookup(r, audience, operation).value.enabled
  }

  predicate SoundIdentity(i: A.Identity) {
    PeerShape(i.peer) && i.principalVersion == 1 && i.bindingVersion == 1 && i.principalId != NilId && i.bindingId != NilId
  }

  predicate SoundTarget(c: Case) {
    && R.Lookup(c.registry, c.target.audience, c.target.operation) == Some(c.target)
    && c.target.enabled && c.target.mechanism == R.Delegated && c.target.continuation
    && c.target.audience != "" && c.target.operation != "" && c.target.rpc != "" && c.source.operation != "" && c.source.mode != ""
    && FindSource(c.target.sources, c.source.operation, c.source.mode) == Some(c.source) && (match c.holder case Human => R.AllowsSubject(c.source, "human", "access_token") case Workload => R.AllowsSubject(c.source, "workload", "api_key"))
    && Serves(c.registry, c.target.audience, c.target.receiverOperation)
    && Serves(c.registry, Service, VerifyRpc) && Serves(c.registry, Service, VerifyContinuationRpc)
  }

  predicate Sound(c: Case) {
    && SoundTarget(c) && SoundIdentity(c.gateway) && SoundIdentity(c.sessions)
    && c.gateway.peer != c.sessions.peer && c.gateway.principalId != c.sessions.principalId && c.gateway.bindingId != c.sessions.bindingId
    && c.gateway.peer.environment == c.sessions.peer.environment && c.gateway.peer.trustDomain == c.sessions.peer.trustDomain
    && c.key != NilId && c.subject != NilId && c.tenant != NilId && c.digest != NilId && c.id != NilId
  }

  function Grants(c: Case): set<GrantKey> {
    {KeyOf(c.gateway, c.target.audience, c.target.operation), KeyOf(c.sessions, c.target.audience, c.target.receiverOperation),
     KeyOf(c.sessions, Service, VerifyRpc), KeyOf(c.sessions, Service, VerifyContinuationRpc)}
  }

  const T0: Time := 1000 * Second

  function Start(c: Case): World {
    World(c.registry,
          map[c.source.operation := Policy(c.source.resource, c.source.action, c.source.ownerHandler, c.source.principalKinds, c.source.credentialKinds)],
          "1", T0,
          map[c.gateway.peer := (c.gateway.principalId, c.gateway.bindingId), c.sessions.peer := (c.sessions.principalId, c.sessions.bindingId)],
          map[c.gateway.principalId := 1, c.sessions.principalId := 1], map[c.gateway.bindingId := 1, c.sessions.bindingId := 1],
          map k | k in Grants(c) :: 1, Grants(c), map[c.key := SessionGrant(c.subject, c.tenant, c.key, 1)],
          map[c.key := ApiKey(c.subject, c.tenant, 1, true, true, NoTime)],
          {(c.key, c.source.operation)}, {SignedIn(c)}, {}, {}, {})
  }

  /** The start with only time passed and credentials issued. */
  function With(c: Case, clock: Time, tokens: set<Token>, delegations: set<Delegation>, continuations: set<Continuation>): World {
    Start(c).(clock := clock, tokens := tokens, delegations := delegations, continuations := continuations)
  }

  function CallerOf(c: Case, i: A.Identity, audience: string, operation: string): A.Caller {
    A.Caller(i, audience, operation, 1, R.RevisionFor(c.registry, audience, operation))
  }

  function Gateway(c: Case): A.Caller { CallerOf(c, c.gateway, c.target.audience, c.target.operation) }
  function Verifier(c: Case): A.Caller { CallerOf(c, c.sessions, Service, VerifyRpc) }
  function Receiver(c: Case): A.Caller { CallerOf(c, c.sessions, c.target.audience, c.target.receiverOperation) }
  function Rechecker(c: Case): A.Caller { CallerOf(c, c.sessions, Service, VerifyContinuationRpc) }

  function Request(c: Case): Binding {
    Binding(c.target.audience, c.target.operation, c.target.rpc, c.source.operation, c.tenant, c.subject, "instance", c.source.mode,
            c.digest, "1", R.RevisionFor(c.registry, c.target.audience, c.target.operation))
  }

  function Person(c: Case): Principal { Principal(Human, c.subject, c.tenant, c.key, c.key) }

  function SignedIn(c: Case): Credential { Access(Person(c), 1, T0 + 15 * Minute) }

  function CredentialOf(c: Case): Credential { match c.holder case Human => SignedIn(c) case Workload => Key(c.key) }

  function SubjectOf(c: Case): Subject {
    match c.holder
    case Human => Subject(Person(c), 1, NilId, 0, T0 + 15 * Minute)
    case Workload => Subject(Principal(Workload, c.subject, c.tenant, NilId, NilId), 0, c.key, 1, NoTime)
  }

  function LastsFor(c: Case): Time { match c.holder case Human => 15 * Minute case Workload => 16 * Minute }

  function TokenOf(c: Case): Token { Token(c.id, Gateway(c), T0, T0 + TokenTTL) }
  function DelegationOf(c: Case): Delegation { Delegation(c.id, c.id, Gateway(c), SubjectOf(c), Request(c), T0, T0 + DelegationTTL) }
  function ContinuationOf(c: Case): Continuation {
    Continuation(c.id, Gateway(c), Verifier(c), Receiver(c), SubjectOf(c), Request(c), T0, T0 + LastsFor(c))
  }

  predicate Around(c: Case, w: World) { w == With(c, w.clock, w.tokens, w.delegations, w.continuations) }

  lemma Resolves(c: Case, w: World)
    requires Sound(c) && Around(c, w)
    ensures Resolve(w, c.gateway.peer) == Ok(c.gateway) && Resolve(w, c.sessions.peer) == Ok(c.sessions)
  {}

  lemma Authorizes(c: Case, w: World, i: A.Identity, audience: string, operation: string)
    requires Sound(c) && Around(c, w) && SoundIdentity(i) && KeyOf(i, audience, operation) in Grants(c) && Serves(c.registry, audience, operation)
    ensures Authorize(w, i, audience, operation) == Ok(CallerOf(c, i, audience, operation))
  {}

  lemma GatewayIsCurrent(c: Case, w: World)
    requires Sound(c) && Around(c, w)
    ensures CurrentCaller(w, Gateway(c), c.gateway.peer) == Ok(Gateway(c))
  {
    Resolves(c, w);
    Authorizes(c, w, c.gateway, c.target.audience, c.target.operation);
  }

  lemma SessionsIsLetThrough(c: Case, w: World)
    requires Sound(c) && Around(c, w)
    ensures Authenticated(w, Verifier(c)) && Authenticated(w, Rechecker(c))
  {
    Resolves(c, w);
    Authorizes(c, w, c.sessions, Service, VerifyRpc);
    Authorizes(c, w, c.sessions, Service, VerifyContinuationRpc);
  }

  lemma RequestIsRegistered(c: Case, w: World)
    requires Sound(c) && Around(c, w)
    ensures Registered(w, Request(c)) == Ok((c.target, c.source))
  {}

  lemma HolderIsPermitted(c: Case, w: World)
    requires Sound(c) && Around(c, w) && w.clock < T0 + 15 * Minute
    ensures CheckPermission(w, CredentialOf(c), c.source.operation, "1") == Ok(SubjectOf(c))
  {
    match c.holder
    case Human =>
    case Workload =>
  }

  lemma SubjectStands(c: Case, w: World)
    requires Sound(c) && Around(c, w)
    ensures CurrentSubject(w, SubjectOf(c), Request(c)).None?
  {
    RequestIsRegistered(c, w);
    match c.holder
    case Human =>
    case Workload =>
  }

  lemma Mints(c: Case)
    requires Sound(c)
    ensures IssueToken(Start(c), CallerOf(c, c.gateway, Service, IssueTokenRpc), c.target.audience, c.target.operation,
                       R.RevisionFor(c.registry, c.target.audience, c.target.operation), c.id, true) == Ok(TokenOf(c))
  {
    assert Around(c, Start(c));
    Authorizes(c, Start(c), c.gateway, c.target.audience, c.target.operation);
  }

  lemma DelegatesIn(w: World, c: Case)
    requires w.clock == T0 && TokenOf(c) in w.tokens && Registered(w, Request(c)) == Ok((c.target, c.source))
    requires CurrentCaller(w, Gateway(c), c.gateway.peer) == Ok(Gateway(c)) && CheckPermission(w, CredentialOf(c), c.source.operation, "1") == Ok(SubjectOf(c))
    requires SubjectAllowed(c.source, SubjectOf(c).principal) && c.key != NilId
    ensures IssueDelegation(w, CallerOf(c, c.gateway, Service, IssueDelegationRpc), TokenOf(c), CredentialOf(c), Request(c), c.id, true) == Ok(DelegationOf(c))
  {}

  lemma Delegates(c: Case)
    requires Sound(c)
    ensures IssueDelegation(With(c, T0, {TokenOf(c)}, {}, {}), CallerOf(c, c.gateway, Service, IssueDelegationRpc), TokenOf(c), CredentialOf(c),
                            Request(c), c.id, true) == Ok(DelegationOf(c))
  {
    var w := With(c, T0, {TokenOf(c)}, {}, {});
    GatewayIsCurrent(c, w);
    RequestIsRegistered(c, w);
    HolderIsPermitted(c, w);
    DelegatesIn(w, c);
  }

  lemma ContinuesForHolder(c: Case)
    ensures ContinuationExpiry(T0, SubjectOf(c).credentialExpiresAt) == T0 + LastsFor(c)
  {
    match c.holder
    case Human =>
    case Workload =>
  }

  lemma VerifiesIn(w: World, c: Case)
    requires w.clock == T0 && TokenOf(c) in w.tokens && DelegationOf(c) in w.delegations && Registered(w, Request(c)) == Ok((c.target, c.source))
    requires CurrentCaller(w, Gateway(c), c.gateway.peer) == Ok(Gateway(c)) && CurrentSubject(w, SubjectOf(c), Request(c)).None?
    requires Authorize(w, c.sessions, c.target.audience, c.target.receiverOperation) == Ok(Receiver(c)) && c.target.continuation
    requires c.gateway.peer.environment == c.sessions.peer.environment && c.gateway.peer.trustDomain == c.sessions.peer.trustDomain
    ensures Verify(w, Verifier(c), TokenOf(c), DelegationOf(c), Request(c), c.gateway.peer, c.id)
            == Ok(Verified(Gateway(c), SubjectOf(c).principal, Request(c), T0 + DelegationTTL, Some(ContinuationOf(c))))
  {
    ContinuesForHolder(c);
    D.CurrentCallerIff(w, Gateway(c), c.gateway.peer);
    D.VerifiedIff(w, Verifier(c), TokenOf(c), DelegationOf(c), Request(c), c.gateway.peer, c.id, c.target, c.source);
  }

  lemma Verifies(c: Case)
    requires Sound(c)
    ensures var w := With(c, T0, {TokenOf(c)}, {DelegationOf(c)}, {});
            && Authenticated(w, Verifier(c))
            && Verify(w, Verifier(c), TokenOf(c), DelegationOf(c), Request(c), c.gateway.peer, c.id)
               == Ok(Verified(Gateway(c), SubjectOf(c).principal, Request(c), T0 + DelegationTTL, Some(ContinuationOf(c))))
  {
    var w := With(c, T0, {TokenOf(c)}, {DelegationOf(c)}, {});
    GatewayIsCurrent(c, w);
    Authorizes(c, w, c.sessions, c.target.audience, c.target.receiverOperation);
    SessionsIsLetThrough(c, w);
    RequestIsRegistered(c, w);
    SubjectStands(c, w);
    VerifiesIn(w, c);
  }

  lemma Rechecks(c: Case, clock: Time)
    requires Sound(c) && T0 <= clock < T0 + LastsFor(c)
    ensures var w := With(c, clock, {TokenOf(c)}, {DelegationOf(c)}, {ContinuationOf(c)});
            Authenticated(w, Rechecker(c)) && VerifyContinuation(w, Rechecker(c), ContinuationOf(c), Request(c)).Ok?
  {
    var w := With(c, clock, {TokenOf(c)}, {DelegationOf(c)}, {ContinuationOf(c)});
    GatewayIsCurrent(c, w);
    Authorizes(c, w, c.sessions, c.target.audience, c.target.receiverOperation);
    Authorizes(c, w, c.sessions, Service, VerifyRpc);
    SessionsIsLetThrough(c, w);
    RequestIsRegistered(c, w);
    SubjectStands(c, w);
    D.CurrentCallerIff(w, Gateway(c), c.gateway.peer);
    D.ContinuationVerifiedIff(w, Rechecker(c), ContinuationOf(c), Request(c), c.target, c.source);
  }

  function MintStep(c: Case): Step {
    Mint(CallerOf(c, c.gateway, Service, IssueTokenRpc), c.target.audience, c.target.operation,
         R.RevisionFor(c.registry, c.target.audience, c.target.operation), c.id, true)
  }

  function DelegateStep(c: Case): Step {
    Delegate(CallerOf(c, c.gateway, Service, IssueDelegationRpc), TokenOf(c), CredentialOf(c), Request(c), c.id, true)
  }

  function CheckStep(c: Case): Step { Check(Verifier(c), TokenOf(c), DelegationOf(c), Request(c), c.gateway.peer, c.id) }

  function Steps(c: Case): seq<Step> { [MintStep(c), DelegateStep(c), CheckStep(c), Tick(10 * Minute)] }

  function End(c: Case): World { With(c, T0 + 10 * Minute, {TokenOf(c)}, {DelegationOf(c)}, {ContinuationOf(c)}) }

  lemma MintNext(c: Case)
    requires Sound(c)
    ensures Enabled(Start(c), MintStep(c)) && Next(Start(c), MintStep(c)) == With(c, T0, {TokenOf(c)}, {}, {})
  {
    assert Around(c, Start(c));
    Resolves(c, Start(c));
    Mints(c);
    assert {} + {TokenOf(c)} == {TokenOf(c)};
  }

  lemma DelegateNext(c: Case)
    requires Sound(c)
    ensures var w := With(c, T0, {TokenOf(c)}, {}, {});
            Enabled(w, DelegateStep(c)) && Next(w, DelegateStep(c)) == With(c, T0, {TokenOf(c)}, {DelegationOf(c)}, {})
  {
    Delegates(c);
    assert {} + {DelegationOf(c)} == {DelegationOf(c)};
  }

  lemma CheckNext(c: Case)
    requires Sound(c)
    ensures var w := With(c, T0, {TokenOf(c)}, {DelegationOf(c)}, {});
            Enabled(w, CheckStep(c)) && Next(w, CheckStep(c)) == With(c, T0, {TokenOf(c)}, {DelegationOf(c)}, {ContinuationOf(c)})
  {
    Verifies(c);
    assert {} + {ContinuationOf(c)} == {ContinuationOf(c)};
  }

  lemma StepsReachEnd(c: Case)
    requires Sound(c)
    ensures Fresh(Start(c)) && Reaches(Start(c), Steps(c), End(c))
  {
    MintNext(c);
    DelegateNext(c);
    CheckNext(c);
    FourSteps(Start(c), MintStep(c), With(c, T0, {TokenOf(c)}, {}, {}), DelegateStep(c), With(c, T0, {TokenOf(c)}, {DelegationOf(c)}, {}),
              CheckStep(c), With(c, T0, {TokenOf(c)}, {DelegationOf(c)}, {ContinuationOf(c)}), Tick(10 * Minute), End(c));
  }

  lemma FourSteps(w0: World, a: Step, w1: World, b: Step, w2: World, c: Step, w3: World, d: Step, w4: World)
    requires Enabled(w0, a) && Next(w0, a) == w1 && Enabled(w1, b) && Next(w1, b) == w2
    requires Enabled(w2, c) && Next(w2, c) == w3 && Enabled(w3, d) && Next(w3, d) == w4
    ensures Reaches(w0, [a, b, c, d], w4)
  {
    assert Reaches(w4, [], w4);
    ReachesCons(w3, d, [], w4);
    ReachesCons(w2, c, [d], w4);
    ReachesCons(w1, b, [c, d], w4);
    ReachesCons(w0, a, [b, c, d], w4);
    assert [a] + ([b] + ([c] + ([d] + []))) == [a, b, c, d] && [b] + ([c] + [d]) == [b, c, d] && [c] + [d] == [c, d] && [d] + [] == [d];
  }

  /**
   * For every registered continuation target, for people and for API keys it is open to: the invocation is
   * delegated and verifies, and ten minutes on token and delegation are dead while the continuation that the
   * verification handed out still verifies for its receiver.
   */
  lemma ContinuationOutlives(c: Case, receiver: A.Caller, observed: A.Peer, id: Uuid)
    requires Sound(c)
    ensures Fresh(Start(c)) && Reaches(Start(c), Steps(c), End(c))
    ensures Verify(End(c), receiver, TokenOf(c), DelegationOf(c), Request(c), observed, id).Err?
    ensures Authenticated(End(c), Rechecker(c)) && VerifyContinuation(End(c), Rechecker(c), ContinuationOf(c), Request(c)).Ok?
    ensures ContinuationOf(c).expiresAt > TokenOf(c).expiresAt > DelegationOf(c).expiresAt
  {
    StepsReachEnd(c);
    Rechecks(c, T0 + 10 * Minute);
    if Verify(End(c), receiver, TokenOf(c), DelegationOf(c), Request(c), observed, id).Ok? {
      VerifyFacts(End(c), receiver, TokenOf(c), DelegationOf(c), Request(c), observed, id);
    }
  }

  // ---- The session target as it is registered ---------------------------------------------------

  const Exec := R.Source("createInstanceExecSession", "exec", "instances", "create",
                         ["human", "workload"], ["access_token", "api_key", "workload_token"], "core.resource_tenant", "caller")
  const Console := Exec.(operation := "createInstanceConsoleSession", mode := "vm_console")
  const Create := R.Target("ani-session-gateway", "session.create", "/ani.session.v1.SessionService/CreateSession", "", "",
                           R.Delegated, "delegated_session", true, "session.receive", true, [Console, Exec], [])
  const Receive := R.Target("ani-session-gateway", "session.receive", "", "", "", R.Receiver, "delegated_session", true, "", false, [], [])

  function Id(n: byte): Uuid { Uuid([n, 0, 0, 0, 0, 0, 0, 0, 0, 0, 0, 0, 0, 0, 0, 0]) }

  lemma IdsDiffer(a: byte, b: byte)
    ensures Id(a) == Id(b) <==> a == b
  {
    assert Id(a).octets[0] == a && Id(b).octets[0] == b;
  }

  function SessionCase(r: R.Registry, holder: PrincipalType): Case {
    Case(r, Create, Exec, holder, A.Identity(Id(1), Id(2), 1, 1, A.Peer("production", "ani", "x509_dns", "core-gateway")),
         A.Identity(Id(3), Id(4), 1, 1, A.Peer("production", "ani", "x509_dns", "session-gateway")), Id(5), Id(6), Id(7), Id(8), Id(9))
  }

  lemma PlainName(p: A.Peer)
    requires p.environment != "" && p.trustDomain != "" && p.identityKind == "x509_dns" && p.identityValue != ""
    requires forall i | 0 <= i < |p.identityValue| :: 'a' <= p.identityValue[i] <= 'z' || p.identityValue[i] == '-'
    ensures PeerShape(p)
  {}

  lemma SessionIdentities(r: R.Registry, holder: PrincipalType)
    ensures SoundIdentity(SessionCase(r, holder).gateway) && SoundIdentity(SessionCase(r, holder).sessions)
  {
    var c := SessionCase(r, holder);
    PlainName(c.gateway.peer);
    PlainName(c.sessions.peer);
    forall a: byte, b: byte ensures Id(a) == Id(b) <==> a == b { IdsDiffer(a, b); }
    assert NilId == Id(0);
  }

  lemma SessionTarget(r: R.Registry, holder: PrincipalType)
    requires R.Lookup(r, Create.audience, Create.operation) == Some(Create) && Serves(r, Receive.audience, Receive.operation)
    requires Serves(r, Service, VerifyRpc) && Serves(r, Service, VerifyContinuationRpc)
    ensures SoundTarget(SessionCase(r, holder))
  {
    assert |Console.operation| != |Exec.operation|;
    assert Create.sources[1..] == [Exec];
  }

  /** The registered session target is such a case, for people and for workloads, in every registry that has it. */
  lemma SessionOutlives(r: R.Registry, holder: PrincipalType)
    requires R.Lookup(r, Create.audience, Create.operation) == Some(Create) && Serves(r, Receive.audience, Receive.operation)
    requires Serves(r, Service, VerifyRpc) && Serves(r, Service, VerifyContinuationRpc)
    ensures Sound(SessionCase(r, holder))
  {
    SessionTarget(r, holder);
    SessionIdentities(r, holder);
    forall a: byte, b: byte ensures Id(a) == Id(b) <==> a == b { IdsDiffer(a, b); }
    assert NilId == Id(0);
    var c := SessionCase(r, holder);
    assert |c.gateway.peer.identityValue| != |c.sessions.peer.identityValue|;
  }
}
