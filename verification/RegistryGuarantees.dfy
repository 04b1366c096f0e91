/** What an accepted registry promises: links, groups, and revisions that ignore list order. */
module RegistryGuarantees {
  import opened Ids
  import opened Sorting
  import opened WorkloadRegistry
  import opened RegistryIndex

  /** Every caller target has one enabled-if-it-is receiver, and that receiver has none: depth one exactly. */
  lemma ReceiverDepthIsOne(doc: Document, t: Target)
    requires Acceptable(doc) && t in doc.targets
    ensures t.mechanism == WorkloadOnly || t.mechanism == Delegated <==> t.receiverOperation != ""
    ensures t.receiverOperation != "" ==>
              var r := FindTarget(doc.targets, t.audience, t.receiverOperation);
              && r.Some? && r.value in doc.targets && r.value.audience == t.audience && r.value.operation == t.receiverOperation
              && r.value.mechanism == Receiver && r.value.receiverOperation == "" && (t.enabled ==> r.value.enabled)
  {
    assert ValidTarget(t) && Linked(doc.targets, t);
    if t.receiverOperation != "" {
      var r := FindTarget(doc.targets, t.audience, t.receiverOperation);
      assert ValidTarget(r.value);
    }
  }

  /** The other operation of a two-element group. */
  function Other(t: Target): string requires |t.authorityOperations| == 2 {
    if t.operation == t.authorityOperations[0] then t.authorityOperations[1] else t.authorityOperations[0]
  }

  /** Authority groups are symmetric pairs: the other member exists, names the same pair, and pairs back. */
  lemma GroupsArePairs(doc: Document, t: Target)
    requires Acceptable(doc) && t in doc.targets && t.authorityOperations != []
    ensures |t.authorityOperations| == 2 && t.operation in t.authorityOperations && Other(t) != t.operation
    ensures var m := FindTarget(doc.targets, t.audience, Other(t));
            && m.Some? && m.value in doc.targets && m.value.authorityOperations == t.authorityOperations
            && Other(m.value) == t.operation && m.value.receiverOperation == t.receiverOperation
            && m.value.enabled && t.enabled && m.value.mechanism == t.mechanism == WorkloadOnly
            && m.value.httpPath != "" && t.httpPath != ""
  {
    assert ValidTarget(t) && Linked(doc.targets, t);
    var g := t.authorityOperations;
    LessIrreflexive(g[0]);
    assert Other(t) in g;
    var m := FindTarget(doc.targets, t.audience, Other(t));
    assert Groups(t, m);
    assert m.value.operation == Other(t);
  }

  // ---- Revisions --------------------------------------------------------------------------------

  /** Two sources that differ in the order of their kinds at most. */
  predicate SameSource(a: Source, b: Source) {
    && a.(principalKinds := [], credentialKinds := []) == b.(principalKinds := [], credentialKinds := [])
    && multiset(a.principalKinds) == multiset(b.principalKinds)
    && multiset(a.credentialKinds) == multiset(b.credentialKinds)
  }

  lemma NormalSourceIff(a: Source, b: Source)
    ensures NormalSource(a) == NormalSource(b) <==> SameSource(a, b)
  {
    var key := (x: string) => x;
    SortAgreesIffPermuted(a.principalKinds, b.principalKinds, key);
    SortAgreesIffPermuted(a.credentialKinds, b.credentialKinds, key);
    assert NormalSource(a) == a.(principalKinds := Sort(a.principalKinds, key), credentialKinds := Sort(a.credentialKinds, key));
  }

  /** Same target, its sources in any order and each with its kinds in any order. */
  predicate SameUpToOrder(t: Target, u: Target) {
    t.(sources := []) == u.(sources := []) && multiset(NormalSources(t.sources)) == multiset(NormalSources(u.sources))
  }

  lemma SourcesKeyed(sources: seq<Source>)
    requires forall i | 0 <= i < |sources| :: NoNul(sources[i].operation) && NoNul(sources[i].mode)
    requires forall i, j | 0 <= i < j < |sources| :: sources[i].operation != sources[j].operation
    ensures Keyed(NormalSources(sources), SourceKey)
  {
    var n := NormalSources(sources);
    forall x, y | x in n && y in n && SourceKey(x) == SourceKey(y) ensures x == y {
      var i :| 0 <= i < |n| && n[i] == x;
      var j :| 0 <= j < |n| && n[j] == y;
      KeyInjective(x.operation, x.mode, y.operation, y.mode);
      assert n[i].operation == sources[i].operation && n[j].operation == sources[j].operation;
    }
  }

  /** A revision changes with every field, and with nothing but: list order never shows. */
  lemma RevisionIgnoresOrderOnly(t: Target, u: Target)
    requires ValidTarget(t)
    ensures RevisionOf(Normal(t)) == RevisionOf(Normal(u)) <==> SameUpToOrder(t, u)
  {
    if t.mechanism == Delegated { assert ValidSources(t.sources); }
    forall i | 0 <= i < |t.sources| ensures NoNul(t.sources[i].operation) && NoNul(t.sources[i].mode) { assert ValidSource(t.sources[i]); }
    SourcesKeyed(t.sources);
    SortAgreesIffPermuted(NormalSources(t.sources), NormalSources(u.sources), SourceKey);
    var a, b := Normal(t), Normal(u);
    assert a.(sources := []) == t.(sources := []) && b.(sources := []) == u.(sources := []);
  }

  /** All queries of a parsed registry, for any strings, are scans of its document. */
  lemma QueriesAreScans(doc: Document, r: Registry, a: string, b: string, c: string)
    requires Acceptable(doc) && Represents(doc.targets, r)
    ensures Lookup(r, a, b) == Normalized(FindTarget(doc.targets, a, b))
    ensures Method(r, a) == Normalized(FindRpc(doc.targets, a))
    ensures Http(r, a, b, c) == Normalized(FindHttp(doc.targets, a, b, c))
    ensures RevisionFor(r, a, b) == match FindTarget(doc.targets, a, b) case Some(t) => RevisionOf(Normal(t)) case None => NoRevision
  {
    forall t | t in doc.targets ensures TargetNoNul(t) { ValidHasNoNul(t); }
    LookupIsScan(doc.targets, r, a, b);
    MethodIsScan(doc.targets, r, a);
    HttpIsScan(doc.targets, r, a, b, c);
    RevisionIsScan(doc.targets, r, a, b);
  }

  predicate PairwiseSame(ts: seq<Target>, us: seq<Target>) {
    |ts| == |us| && forall i | 0 <= i < |ts| :: SameUpToOrder(ts[i], us[i])
  }

  lemma {:induction false} FindsTheSame(ts: seq<Target>, us: seq<Target>, a: string, o: string)
    requires PairwiseSame(ts, us)
    ensures match (FindTarget(ts, a, o), FindTarget(us, a, o))
            case (Some(t), Some(u)) => SameUpToOrder(t, u)
            case (None, None) => true
            case _ => false
    decreases |ts|
  {
    if ts != [] {
      assert ts[0].audience == ts[0].(sources := []).audience && us[0].audience == us[0].(sources := []).audience;
      assert ts[0].operation == ts[0].(sources := []).operation && us[0].operation == us[0].(sources := []).operation;
      FindsTheSame(ts[1..], us[1..], a, o);
    }
  }

  /** Rewriting a document with its source and kind lists permuted changes no revision. */
  lemma PermutedDocumentsAgree(d: Document, e: Document, r: Registry, s: Registry, a: string, o: string)
    requires Acceptable(d) && Acceptable(e) && Represents(d.targets, r) && Represents(e.targets, s)
    requires PairwiseSame(d.targets, e.targets)
    ensures RevisionFor(r, a, o) == RevisionFor(s, a, o)
  {
    QueriesAreScans(d, r, a, o, "");
    QueriesAreScans(e, s, a, o, "");
    FindsTheSame(d.targets, e.targets, a, o);
    var t := FindTarget(d.targets, a, o);
    if t.Some? { RevisionIgnoresOrderOnly(t.value, FindTarget(e.targets, a, o).value); }
  }
}
