/** Raising any version a credential rests on ends every credential issued before. */
module WorkloadVersions {
  import opened Ids
  import A = AuthorityRevision
  import opened WorkloadCredentials
  import opened WorkloadChain

  /** No credential is ahead of the rows it was issued from. */
  predicate CallerKnown(w: World, c: A.Caller) {
    && c.identity.principalVersion <= Version(w.principalVersions, c.identity.principalId)
    && c.identity.bindingVersion <= Version(w.bindingVersions, c.identity.bindingId)
    && c.grantVersion <= Version(w.grantVersions, KeyOf(c.identity, c.audience, c.operation))
  }

  predicate SubjectKnown(w: World, s: Subject) {
    match s.principal.kind
    case Human => s.principal.grantId in w.sessionGrants && s.grantVersion <= w.sessionGrants[s.principal.grantId].version
    case Workload => s.keyId in w.keys && s.keyVersion <= w.keys[s.keyId].version
  }

  predicate Known(w: World) {
    && (forall t | t in w.tokens :: CallerKnown(w, t.caller))
    && (forall d | d in w.delegations :: CallerKnown(w, d.caller) && SubjectKnown(w, d.subject))
    && (forall p | p in w.continuations :: ContinuationKnown(w, p))
  }

  predicate ContinuationKnown(w: World, p: Continuation) {
    CallerKnown(w, p.caller) && CallerKnown(w, p.receiver) && CallerKnown(w, p.authority) && SubjectKnown(w, p.subject)
  }

  /** Versions only rise, and session grants and keys stay on record. */
  ghost predicate Later(w: World, n: World) {
    && (forall id: Uuid :: Version(w.principalVersions, id) <= Version(n.principalVersions, id))
    && (forall id: Uuid :: Version(w.bindingVersions, id) <= Version(n.bindingVersions, id))
    && (forall k: GrantKey :: Version(w.grantVersions, k) <= Version(n.grantVersions, k))
    && (forall id | id in w.sessionGrants :: id in n.sessionGrants && w.sessionGrants[id].version <= n.sessionGrants[id].version)
    && (forall id | id in w.keys :: id in n.keys && w.keys[id].version <= n.keys[id].version)
  }

  lemma VersionRises<K(!new)>(m: map<K, int>, k: K)
    ensures forall x: K :: Version(m, x) <= Version(m[k := Version(m, k) + 1], x)
  {}

  lemma PrincipalLater(w: World, id: Uuid)
    ensures Later(w, w.(principalVersions := w.principalVersions[id := Version(w.principalVersions, id) + 1]))
  {
    VersionRises(w.principalVersions, id);
  }

  lemma BindingLater(w: World, id: Uuid)
    ensures Later(w, w.(bindingVersions := w.bindingVersions[id := Version(w.bindingVersions, id) + 1]))
  {
    VersionRises(w.bindingVersions, id);
  }

  lemma GrantLater(w: World, key: GrantKey)
    ensures Later(w, w.(grantVersions := w.grantVersions[key := Version(w.grantVersions, key) + 1]))
  {
    VersionRises(w.grantVersions, key);
  }

  /** Only versions, session grants and keys count. */
  lemma LaterByRows(w: World, n: World)
    requires n.principalVersions == w.principalVersions && n.bindingVersions == w.bindingVersions && n.grantVersions == w.grantVersions
    requires forall id | id in w.sessionGrants :: id in n.sessionGrants && w.sessionGrants[id].version <= n.sessionGrants[id].version
    requires forall id | id in w.keys :: id in n.keys && w.keys[id].version <= n.keys[id].version
    ensures Later(w, n)
  {}

  predicate Bumps(step: Step) { step.BumpPrincipal? || step.BumpBinding? || step.BumpGrant? }

  lemma RowsLater(w: World, step: Step)
    requires !Issues(step) && !Bumps(step) && (step.OpenSession? ==> step.id !in w.sessionGrants) && (step.CreateKey? ==> step.id !in w.keys)
    ensures Later(w, Around(w, step))
  {
    LaterByRows(w, Around(w, step));
  }

  lemma AroundLater(w: World, step: Step)
    requires Enabled(w, step) && !Issues(step)
    ensures Later(w, Around(w, step))
  {
    match step
    case BumpPrincipal(id) => PrincipalLater(w, id);
    case BumpBinding(id) => BindingLater(w, id);
    case BumpGrant(key) => GrantLater(w, key);
    case _ => RowsLater(w, step);
  }

  lemma StepLater(w: World, step: Step)
    requires Enabled(w, step)
    ensures Later(w, Next(w, step))
  {
    if Issues(step) { IssueOnlyAdds(w, step); } else { AroundLater(w, step); }
  }

  lemma LaterTransitive(a: World, b: World, c: World)
    requires Later(a, b) && Later(b, c)
    ensures Later(a, c)
  {
    forall id: Uuid ensures Version(a.principalVersions, id) <= Version(c.principalVersions, id) {
      assert Version(a.principalVersions, id) <= Version(b.principalVersions, id);
    }
    forall id: Uuid ensures Version(a.bindingVersions, id) <= Version(c.bindingVersions, id) {
      assert Version(a.bindingVersions, id) <= Version(b.bindingVersions, id);
    }
    forall k: GrantKey ensures Version(a.grantVersions, k) <= Version(c.grantVersions, k) {
      assert Version(a.grantVersions, k) <= Version(b.grantVersions, k);
    }
  }

  lemma {:induction false} RunLater(w: World, steps: seq<Step>, end: World)
    requires Reaches(w, steps, end)
    ensures Later(w, end)
    decreases |steps|
  {
    if steps != [] {
      StepLater(w, steps[0]);
      RunLater(Next(w, steps[0]), steps[1..], end);
      LaterTransitive(w, Next(w, steps[0]), end);
    }
  }

  lemma KnownStays(w: World, n: World, c: A.Caller, s: Subject)
    requires Later(w, n)
    ensures CallerKnown(w, c) ==> CallerKnown(n, c)
    ensures SubjectKnown(w, s) ==> SubjectKnown(n, s)
  {
    var i := c.identity;
    assert Version(w.principalVersions, i.principalId) <= Version(n.principalVersions, i.principalId);
    assert Version(w.bindingVersions, i.bindingId) <= Version(n.bindingVersions, i.bindingId);
    assert Version(w.grantVersions, KeyOf(i, c.audience, c.operation)) <= Version(n.grantVersions, KeyOf(i, c.audience, c.operation));
  }

  lemma StandingIsKnown(w: World, s: Subject, operation: string)
    requires StandingHolds(w, s, operation)
    ensures SubjectKnown(w, s)
    ensures s.principal.kind == Human ==> w.sessionGrants[s.principal.grantId].version == s.grantVersion
    ensures s.principal.kind == Workload ==> w.keys[s.keyId].version == s.keyVersion
  {}

  lemma PermittedStands(w: World, c: Credential, operation: string, policyRevision: string)
    requires CheckPermission(w, c, operation, policyRevision).Ok?
    ensures StandingHolds(w, CheckPermission(w, c, operation, policyRevision).value, operation)
  {}

  lemma MintedIsKnown(w: World, step: Step, t: Token)
    requires Enabled(w, step) && t !in w.tokens && t in Next(w, step).tokens
    ensures CallerKnown(w, t.caller)
  {
    OnlyMintIssues(w, step, t);
    var i := step.ingress.identity;
    assert Authorize(w, i, step.audience, step.operation) == Ok(t.caller);
  }

  lemma DelegatedIsKnown(w: World, step: Step, d: Delegation)
    requires Enabled(w, step) && d !in w.delegations && d in Next(w, step).delegations
    ensures CallerKnown(w, d.caller) && SubjectKnown(w, d.subject)
  {
    OnlyDelegateIssues(w, step, d);
    DelegationFacts(w, step.ingress, step.token, step.credential, step.binding, step.id, step.recorded);
    CurrentCallerFacts(w, step.token.caller, step.ingress.identity.peer);
    PermittedStands(w, step.credential, step.binding.sourceOperation, step.binding.policyRevision);
    StandingIsKnown(w, d.subject, step.binding.sourceOperation);
  }

  lemma ReceiverIsKnown(w: World, receiver: A.Caller, authority: A.Caller)
    requires Authenticated(w, receiver) && Authorize(w, receiver.identity, authority.audience, authority.operation) == Ok(authority)
    ensures CallerKnown(w, receiver) && CallerKnown(w, authority)
  {
    CurrentCallerFacts(w, receiver, receiver.identity.peer);
  }

  lemma ContinuedIsKnown(w: World, step: Step, p: Continuation)
    requires Enabled(w, step) && p !in w.continuations && p in Next(w, step).continuations
    ensures ContinuationKnown(w, p)
  {
    OnlyCheckContinues(w, step, p);
    ReceiverFacts(w, step.receiver, step.token, step.delegation, step.binding, step.observed, step.id);
    ReceiverIsKnown(w, step.receiver, p.authority);
    VerifyFacts(w, step.receiver, step.token, step.delegation, step.binding, step.observed, step.id);
    CurrentCallerFacts(w, step.token.caller, step.observed);
    SubjectFacts(w, step.delegation.subject, step.binding);
    StandingIsKnown(w, p.subject, step.binding.sourceOperation);
  }

  const NoSubject := Subject(Principal(Human, NilId, NilId, NilId, NilId), 0, NilId, 0, NoTime)

  lemma StepKeepsKnown(w: World, step: Step)
    requires Known(w) && Enabled(w, step)
    ensures Known(Next(w, step))
  {
    var n := Next(w, step);
    StepLater(w, step);
    forall t | t in n.tokens ensures CallerKnown(n, t.caller) {
      if t !in w.tokens { MintedIsKnown(w, step, t); }
      KnownStays(w, n, t.caller, NoSubject);
    }
    forall d | d in n.delegations ensures CallerKnown(n, d.caller) && SubjectKnown(n, d.subject) {
      if d !in w.delegations { DelegatedIsKnown(w, step, d); }
      KnownStays(w, n, d.caller, d.subject);
    }
    forall p | p in n.continuations ensures ContinuationKnown(n, p) {
      if p !in w.continuations { ContinuedIsKnown(w, step, p); }
      KnownStays(w, n, p.caller, p.subject);
      KnownStays(w, n, p.receiver, p.subject);
      KnownStays(w, n, p.authority, p.subject);
    }
  }

  /** Every state a service that started with nothing issued can reach. */
  lemma {:induction false} RunKeepsKnown(w: World, steps: seq<Step>, end: World)
    requires Known(w) && Reaches(w, steps, end)
    ensures Known(end)
    decreases |steps|
  {
    if steps != [] {
      StepKeepsKnown(w, steps[0]);
      RunKeepsKnown(Next(w, steps[0]), steps[1..], end);
    }
  }

  // ---- What a bump ends -------------------------------------------------------------------------

  predicate RaisesCaller(bump: Step, c: A.Caller) {
    match bump
    case BumpPrincipal(id) => c.identity.principalId == id
    case BumpBinding(id) => c.identity.bindingId == id
    case BumpGrant(key) => KeyOf(c.identity, c.audience, c.operation) == key
    case _ => false
  }

  predicate RaisesSubject(bump: Step, s: Subject) {
    match bump
    case BumpSessionGrant(id) => s.principal.kind == Human && s.principal.grantId == id
    case BumpKey(id, _) => s.principal.kind == Workload && s.keyId == id
    case _ => false
  }

  lemma RaisedCallerNeverCurrent(w: World, bump: Step, steps: seq<Step>, end: World, c: A.Caller, p: A.Peer)
    requires CallerKnown(w, c) && RaisesCaller(bump, c) && Reaches(Next(w, bump), steps, end)
    ensures CurrentCaller(end, c, p).Err?
  {
    var n := Next(w, bump);
    RunLater(n, steps, end);
    var i, k := c.identity, KeyOf(c.identity, c.audience, c.operation);
    assert Version(n.principalVersions, i.principalId) <= Version(end.principalVersions, i.principalId);
    assert Version(n.bindingVersions, i.bindingId) <= Version(end.bindingVersions, i.bindingId);
    assert Version(n.grantVersions, k) <= Version(end.grantVersions, k);
    if CurrentCaller(end, c, p).Ok? { CurrentCallerFacts(end, c, p); }
  }

  lemma RaisedSubjectNeverCurrent(w: World, bump: Step, steps: seq<Step>, end: World, s: Subject, b: Binding)
    requires SubjectKnown(w, s) && RaisesSubject(bump, s) && Reaches(Next(w, bump), steps, end)
    ensures CurrentSubject(end, s, b).Some?
  {
    RunLater(Next(w, bump), steps, end);
    if CurrentSubject(end, s, b).None? {
      SubjectFacts(end, s, b);
      StandingIsKnown(end, s, b.sourceOperation);
    }
  }

  /** A token issued before its principal, binding or grant changed version neither delegates nor verifies again. */
  lemma RaisedTokenIsDead(w: World, bump: Step, steps: seq<Step>, end: World, t: Token, ingress: A.Caller, c: Credential,
                          b: Binding, id: Uuid, recorded: bool, receiver: A.Caller, d: Delegation, observed: A.Peer)
    requires Known(w) && t in w.tokens && RaisesCaller(bump, t.caller) && Reaches(Next(w, bump), steps, end)
    ensures IssueDelegation(end, ingress, t, c, b, id, recorded).Err?
    ensures Verify(end, receiver, t, d, b, observed, id).Err?
  {
    RaisedCallerNeverCurrent(w, bump, steps, end, t.caller, ingress.identity.peer);
    RaisedCallerNeverCurrent(w, bump, steps, end, t.caller, observed);
    if IssueDelegation(end, ingress, t, c, b, id, recorded).Ok? { DelegationFacts(end, ingress, t, c, b, id, recorded); }
    if Verify(end, receiver, t, d, b, observed, id).Ok? { VerifyFacts(end, receiver, t, d, b, observed, id); }
  }

  /** Nor does a delegation, with any token, once its caller's or its subject's version was raised. */
  lemma RaisedDelegationIsDead(w: World, bump: Step, steps: seq<Step>, end: World, d: Delegation,
                               receiver: A.Caller, t: Token, b: Binding, observed: A.Peer, id: Uuid)
    requires Known(w) && d in w.delegations && (RaisesCaller(bump, d.caller) || RaisesSubject(bump, d.subject))
    requires Reaches(Next(w, bump), steps, end)
    ensures Verify(end, receiver, t, d, b, observed, id).Err?
  {
    if Verify(end, receiver, t, d, b, observed, id).Ok? {
      VerifyFacts(end, receiver, t, d, b, observed, id);
      if RaisesCaller(bump, d.caller) { RaisedCallerNeverCurrent(w, bump, steps, end, d.caller, observed); }
      else { RaisedSubjectNeverCurrent(w, bump, steps, end, d.subject, b); }
    }
  }

  /** A caller from before a bump is not what the current rows authorize its identity to, if that identity was just authenticated. */
  lemma RaisedAuthorityDiffers(w: World, bump: Step, steps: seq<Step>, end: World, c: A.Caller, receiver: A.Caller)
    requires CallerKnown(w, c) && RaisesCaller(bump, c) && Reaches(Next(w, bump), steps, end)
    requires bump.BumpGrant? || Authenticated(end, receiver)
    ensures receiver.identity != c.identity || Authorize(end, receiver.identity, c.audience, c.operation) != Ok(c)
  {
    RunLater(Next(w, bump), steps, end);
    assert forall k: GrantKey :: Version(Next(w, bump).grantVersions, k) <= Version(end.grantVersions, k);
    if !bump.BumpGrant? {
      RaisedCallerNeverCurrent(w, bump, steps, end, c, receiver.identity.peer);
      CurrentCallerFacts(end, receiver, receiver.identity.peer);
    }
  }

  /** Which bumps end a continuation: any version of its caller, its subject, or either grant of its receiver. */
  predicate RaisesReceiver(bump: Step, p: Continuation) { RaisesCaller(bump, p.receiver) || RaisesCaller(bump, p.authority) }

  /**
   * A continuation is dead after a bump of any principal, binding, grant or key version it rests on;
   * for the receiver's principal and binding the recheck is made by a caller the middleware let through.
   */
  lemma RaisedContinuationIsDead(w: World, bump: Step, steps: seq<Step>, end: World, p: Continuation, receiver: A.Caller, b: Binding)
    requires Known(w) && p in w.continuations
    requires || RaisesCaller(bump, p.caller) || RaisesSubject(bump, p.subject)
             || (RaisesReceiver(bump, p) && (bump.BumpGrant? || Authenticated(end, receiver)))
    requires Reaches(Next(w, bump), steps, end)
    ensures VerifyContinuation(end, receiver, p, b).Err?
  {
    if VerifyContinuation(end, receiver, p, b).Ok? {
      assert ContinuationKnown(w, p);
      ContinuationFacts(end, receiver, p, b);
      ContinuationNeedsAuthority(end, receiver, p, b);
      if RaisesCaller(bump, p.caller) { RaisedCallerNeverCurrent(w, bump, steps, end, p.caller, p.caller.identity.peer); }
      else if RaisesSubject(bump, p.subject) { RaisedSubjectNeverCurrent(w, bump, steps, end, p.subject, b); }
      else if RaisesCaller(bump, p.receiver) { RaisedAuthorityDiffers(w, bump, steps, end, p.receiver, receiver); }
      else { RaisedAuthorityDiffers(w, bump, steps, end, p.authority, receiver); }
    }
  }
}
