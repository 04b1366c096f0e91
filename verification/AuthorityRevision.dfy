/**
 * The revision that binds a caller's current authority to one snapshot: the same for both
 * operations of an authority group, and different whenever anything it covers differs. The digest is
 * injective, so the digested value stands for it.
 */
module AuthorityRevision {
  import opened Ids
  import opened WorkloadRegistry
  import opened RegistryIndex
  import opened RegistryGuarantees
  import UuidText

  datatype Peer = Peer(environment: string, trustDomain: string, identityKind: string, identityValue: string)
  datatype Identity = Identity(principalId: Uuid, bindingId: Uuid, principalVersion: int, bindingVersion: int, peer: Peer)
  datatype Caller = Caller(identity: Identity, audience: string, operation: string, grantVersion: int, targetRevision: Revision)
  datatype Grant = Grant(operation: string, targetRevision: Revision, id: Uuid, version: int)
  datatype Snapshot = Snapshot(identity: Identity, grants: seq<Grant>)

  /** The digested document; identifiers appear in their text form. */
  datatype GrantText = GrantText(operation: string, targetRevision: Revision, id: string, version: int)
  datatype Value = Value(
    audience: string, principalId: string, principalVersion: int, bindingId: string, bindingVersion: int, targets: seq<GrantText>)

  datatype Failure = Denied | IdentityInvalid
  datatype Result = Ok(value: Value) | Err(error: Failure)

  predicate Versioned7(id: Uuid) { IsV7(id) && IsRfc4122(id) }

  /** A caller whose target is an enabled group member at its current revision, under the snapshot's identity. */
  predicate Admits(r: Registry, c: Caller, s: Snapshot) {
    var t := Lookup(r, c.audience, c.operation);
    && t.Some? && t.value.enabled && |t.value.authorityOperations| == 2 && |s.grants| == 2
    && s.identity == c.identity && c.targetRevision == RevisionFor(r, c.audience, c.operation)
  }

  predicate SoundIdentity(i: Identity) {
    Versioned7(i.principalId) && Versioned7(i.bindingId) && i.principalVersion >= 1 && i.bindingVersion >= 1
  }

  /** The grant is the group's current one, and the caller's own where it is the caller's operation. */
  predicate GrantFits(r: Registry, c: Caller, g: Grant, operation: string) {
    && g.operation == operation && g.targetRevision == RevisionFor(r, c.audience, operation) && g.targetRevision.RevisionOf?
    && Versioned7(g.id) && g.version >= 1 && (g.operation == c.operation ==> g.version == c.grantVersion)
  }

  predicate Qualifies(r: Registry, c: Caller, s: Snapshot) {
    && Admits(r, c, s) && SoundIdentity(s.identity)
    && var ops := Lookup(r, c.audience, c.operation).value.authorityOperations;
       GrantFits(r, c, s.grants[0], ops[0]) && GrantFits(r, c, s.grants[1], ops[1]) && s.grants[0].id != s.grants[1].id
  }

  function TextOf(g: Grant): GrantText { GrantText(g.operation, g.targetRevision, UuidText.Print(g.id), g.version) }

  function ValueOf(audience: string, s: Snapshot): Value {
    Value(audience, UuidText.Print(s.identity.principalId), s.identity.principalVersion,
          UuidText.Print(s.identity.bindingId), s.identity.bindingVersion,
          seq(|s.grants|, i requires 0 <= i < |s.grants| => TextOf(s.grants[i])))
  }

  /** workloadAuthorityRevision: succeeds exactly for a qualifying caller, with the value of the snapshot. */
  method WorkloadAuthorityRevision(r: Registry, c: Caller, s: Snapshot) returns (result: Result)
    ensures result.Ok? <==> Qualifies(r, c, s)
    ensures result.Ok? ==> result.value == ValueOf(c.audience, s)
    ensures result.Ok? ==>
              && s.identity == c.identity && c.targetRevision == RevisionFor(r, c.audience, c.operation) && |s.grants| == 2
              && Lookup(r, c.audience, c.operation).Some? && Lookup(r, c.audience, c.operation).value.enabled
    ensures result == Err(IdentityInvalid) <==> Admits(r, c, s) && !SoundIdentity(s.identity)
  {
    var t := Lookup(r, c.audience, c.operation);
    if t.None? || !t.value.enabled || |t.value.authorityOperations| != 2 || |s.grants| != 2
      || s.identity != c.identity || c.targetRevision != RevisionFor(r, c.audience, c.operation) { return Err(Denied); }
    var i := s.identity;
    if !Versioned7(i.principalId) || !Versioned7(i.bindingId) || i.principalVersion < 1 || i.bindingVersion < 1 {
      return Err(IdentityInvalid);
    }
    var ops := t.value.authorityOperations;
    var seen: set<Uuid> := {};
    var targets: seq<GrantText> := [];
    for index := 0 to |s.grants|
      invariant forall k | 0 <= k < index :: GrantFits(r, c, s.grants[k], ops[k])
      invariant seen == set k | 0 <= k < index :: s.grants[k].id
      invariant forall j, k | 0 <= j < k < index :: s.grants[j].id != s.grants[k].id
      invariant |targets| == index && forall k | 0 <= k < index :: targets[k] == TextOf(s.grants[k])
    {
      var g := s.grants[index];
      var want := RevisionFor(r, c.audience, ops[index]);
      if g.operation != ops[index] || g.targetRevision != want || !g.targetRevision.RevisionOf? || !Versioned7(g.id)
        || g.id in seen || g.version < 1 || (g.operation == c.operation && g.version != c.grantVersion) { return Err(Denied); }
      seen := seen + {g.id};
      targets := targets + [TextOf(g)];
    }
    return Ok(Value(c.audience, UuidText.Print(i.principalId), i.principalVersion, UuidText.Print(i.bindingId), i.bindingVersion, targets));
  }

  /** Which callers and snapshots qualify: the two current grants of the caller's enabled group, under sound version 7 identifiers. */
  lemma QualifiesIff(r: Registry, c: Caller, s: Snapshot)
    ensures Qualifies(r, c, s) <==>
              && Lookup(r, c.audience, c.operation).Some? && Lookup(r, c.audience, c.operation).value.enabled
              && |Lookup(r, c.audience, c.operation).value.authorityOperations| == 2 && |s.grants| == 2
              && s.identity == c.identity && c.targetRevision == RevisionFor(r, c.audience, c.operation)
              && s.identity.principalVersion > 0 && s.identity.bindingVersion > 0
              && (forall id | id in {s.identity.principalId, s.identity.bindingId, s.grants[0].id, s.grants[1].id} ::
                    id.octets[6] / 16 == 7 && id.octets[8] / 64 == 2)
              && s.grants[0].id != s.grants[1].id
              && (forall k | 0 <= k < 2 ::
                    var g, operation := s.grants[k], Lookup(r, c.audience, c.operation).value.authorityOperations[k];
                    && g.operation == operation && g.targetRevision == RevisionFor(r, c.audience, operation) && g.targetRevision != NoRevision
                    && g.version > 0 && (operation == c.operation ==> g.version == c.grantVersion))
  {}

  /** The same workload calling the other operation of its group, under that operation's own grant. */
  function Counterpart(r: Registry, c: Caller, s: Snapshot): Caller
    requires Qualifies(r, c, s)
  {
    var ops := Lookup(r, c.audience, c.operation).value.authorityOperations;
    var k := if c.operation == ops[0] then 1 else 0;
    Caller(c.identity, c.audience, ops[k], s.grants[k].version, RevisionFor(r, c.audience, ops[k]))
  }

  lemma LookupIsMember(doc: Document, r: Registry, a: string, o: string)
    requires Acceptable(doc) && Represents(doc.targets, r) && Lookup(r, a, o).Some?
    ensures var t := FindTarget(doc.targets, a, o);
            t.Some? && t.value in doc.targets && Lookup(r, a, o) == Some(Normal(t.value)) && t.value.audience == a && t.value.operation == o
  {
    QueriesAreScans(doc, r, a, o, "");
  }

  /**
   * On every accepted registry the two operations of a group bind one and the same revision: what
   * qualifies one caller qualifies its counterpart, with an equal value.
   */
  lemma BothOperationsShareTheRevision(doc: Document, r: Registry, c: Caller, s: Snapshot)
    requires Acceptable(doc) && Represents(doc.targets, r) && Qualifies(r, c, s)
    ensures var d := Counterpart(r, c, s);
            && d.operation != c.operation && Qualifies(r, d, s) && Counterpart(r, d, s) == c
            && ValueOf(d.audience, s) == ValueOf(c.audience, s)
  {
    LookupIsMember(doc, r, c.audience, c.operation);
    var t := FindTarget(doc.targets, c.audience, c.operation).value;
    GroupsArePairs(doc, t);
    QueriesAreScans(doc, r, c.audience, Other(t), "");
  }

  /** The revision is injective: audience, identity, binding, grants, versions and target revisions all show. */
  lemma RevisionDetectsEveryChange(a: string, s: Snapshot, b: string, u: Snapshot)
    requires ValueOf(a, s) == ValueOf(b, u)
    ensures a == b && s.grants == u.grants
    ensures s.identity.(peer := u.identity.peer) == u.identity
  {
    UuidText.PrintInjective(s.identity.principalId, u.identity.principalId);
    UuidText.PrintInjective(s.identity.bindingId, u.identity.bindingId);
    var v, w := ValueOf(a, s).targets, ValueOf(b, u).targets;
    assert |s.grants| == |v| == |w| == |u.grants|;
    forall i | 0 <= i < |s.grants| ensures s.grants[i] == u.grants[i] {
      assert v[i] == TextOf(s.grants[i]) && w[i] == TextOf(u.grants[i]);
      UuidText.PrintInjective(s.grants[i].id, u.grants[i].id);
    }
  }
}
