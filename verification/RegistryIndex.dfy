/** Parsing a registry document into its indexes, and what every query then answers. */
module RegistryIndex {
  import opened Ids
  import opened Sorting
  import opened WorkloadRegistry

  // ---- An index holds exactly the document's entries --------------------------------------------

  /** `m` maps the key of every keyed target to its value, and holds nothing else. */
  ghost predicate Indexes<V(!new)>(m: map<string, V>, ts: seq<Target>, key: Target -> Option<string>, value: Target -> V) {
    && (forall t | t in ts && key(t).Some? :: key(t).value in m && m[key(t).value] == value(t))
    && (forall k | k in m :: HasKey(ts, key, k))
  }

  predicate HasKey(ts: seq<Target>, key: Target -> Option<string>, k: string) { exists t :: t in ts && key(t) == Some(k) }

  lemma IndexAdds<V(!new)>(m: map<string, V>, ts: seq<Target>, key: Target -> Option<string>, value: Target -> V, t: Target)
    requires Indexes(m, ts, key, value)
    ensures key(t).None? ==> Indexes(m, ts + [t], key, value)
    ensures key(t).Some? && key(t).value !in m ==> Indexes(m[key(t).value := value(t)], ts + [t], key, value)
  {
    var longer := ts + [t];
    forall k | HasKey(ts, key, k) ensures HasKey(longer, key, k) {
      var u :| u in ts && key(u) == Some(k);
      assert u in longer;
    }
    if key(t).Some? && key(t).value !in m {
      assert t in longer && HasKey(longer, key, key(t).value);
      forall u | u in ts && key(u).Some? ensures key(u).value != key(t).value { assert key(u).value in m; }
    }
  }

  function ByTarget(t: Target): Option<string> { Some(TargetKey(t)) }
  function ByRpc(t: Target): Option<string> { if t.rpc == "" then None else Some(t.rpc) }
  function ByHttp(t: Target): Option<string> { if t.httpMethod == "" then None else Some(Endpoint(t.audience, t.httpMethod, t.httpPath)) }

  ghost predicate Represents(ts: seq<Target>, r: Registry) {
    && Indexes(r.targets, ts, ByTarget, Normal)
    && Indexes(r.revisions, ts, ByTarget, (t: Target) => RevisionOf(Normal(t)))
    && Indexes(r.methods, ts, ByRpc, TargetKey)
    && Indexes(r.httpTargets, ts, ByHttp, TargetKey)
  }

  predicate AllNoNul(ts: seq<Target>) { forall t | t in ts :: TargetNoNul(t) }

  // ---- Queries are scans ------------------------------------------------------------------------

  function Normalized(r: Option<Target>): Option<Target> { match r case Some(t) => Some(Normal(t)) case None => None }

  /** Lookup answers as a scan of the document does, for every pair of strings, separators included. */
  lemma LookupIsScan(ts: seq<Target>, r: Registry, a: string, o: string)
    requires Indexes(r.targets, ts, ByTarget, Normal) && AllNoNul(ts)
    ensures Lookup(r, a, o) == Normalized(FindTarget(ts, a, o))
  {
    var found := FindTarget(ts, a, o);
    if found.Some? {
      assert ByTarget(found.value) == Some(Key(a, o));
    } else {
      forall t | t in ts ensures ByTarget(t) != Some(Key(a, o)) {
        if ByTarget(t) == Some(Key(a, o)) { KeyInjective(t.audience, t.operation, a, o); }
      }
    }
  }

  function FindRpc(ts: seq<Target>, m: string): Option<Target> { Find(ts, (t: Target) => t.rpc != "" && t.rpc == m) }

  function FindHttp(ts: seq<Target>, a: string, m: string, p: string): Option<Target> {
    Find(ts, (t: Target) => t.httpMethod != "" && t.audience == a && t.httpMethod == m && t.httpPath == p)
  }

  lemma MethodHit(ts: seq<Target>, r: Registry, t: Target)
    requires Represents(ts, r) && t in ts && t.rpc != ""
    ensures Method(r, t.rpc) == Some(Normal(t))
  {
    assert ByRpc(t) == Some(t.rpc) && ByTarget(t) == Some(TargetKey(t));
    assert r.methods[t.rpc] == TargetKey(t) && r.targets[TargetKey(t)] == Normal(t);
  }

  lemma MethodMiss(ts: seq<Target>, r: Registry, m: string)
    requires Indexes(r.methods, ts, ByRpc, TargetKey) && forall t | t in ts :: !(t.rpc != "" && t.rpc == m)
    ensures Method(r, m).None?
  {
    assert !HasKey(ts, ByRpc, m);
  }

  lemma MethodIsScan(ts: seq<Target>, r: Registry, m: string)
    requires Represents(ts, r)
    ensures Method(r, m) == Normalized(FindRpc(ts, m))
  {
    var found := FindRpc(ts, m);
    if found.Some? { MethodHit(ts, r, found.value); } else { MethodMiss(ts, r, m); }
  }

  /** Exact method and path under an exact audience; no text with separators reaches a neighbour. */
  lemma HttpIsScan(ts: seq<Target>, r: Registry, a: string, m: string, p: string)
    requires Represents(ts, r) && AllNoNul(ts)
    ensures Http(r, a, m, p) == Normalized(FindHttp(ts, a, m, p))
  {
    var found := FindHttp(ts, a, m, p);
    if found.Some? { HttpHit(ts, r, found.value); } else { HttpMiss(ts, r, a, m, p); }
  }

  lemma HttpHit(ts: seq<Target>, r: Registry, t: Target)
    requires Represents(ts, r) && t in ts && t.httpMethod != ""
    ensures Http(r, t.audience, t.httpMethod, t.httpPath) == Some(Normal(t))
  {
    var k := Endpoint(t.audience, t.httpMethod, t.httpPath);
    assert ByHttp(t) == Some(k) && ByTarget(t) == Some(TargetKey(t));
    assert r.httpTargets[k] == TargetKey(t) && r.targets[TargetKey(t)] == Normal(t);
  }

  lemma HttpMiss(ts: seq<Target>, r: Registry, a: string, m: string, p: string)
    requires Indexes(r.httpTargets, ts, ByHttp, TargetKey) && AllNoNul(ts)
    requires forall t | t in ts :: !(t.httpMethod != "" && t.audience == a && t.httpMethod == m && t.httpPath == p)
    ensures Http(r, a, m, p).None?
  {
    forall t | t in ts ensures ByHttp(t) != Some(Endpoint(a, m, p)) {
      if ByHttp(t) == Some(Endpoint(a, m, p)) { EndpointInjective(t.audience, t.httpMethod, t.httpPath, a, m, p); }
    }
    assert !HasKey(ts, ByHttp, Endpoint(a, m, p));
  }

  lemma RevisionIsScan(ts: seq<Target>, r: Registry, a: string, o: string)
    requires Represents(ts, r) && AllNoNul(ts)
    ensures RevisionFor(r, a, o) == match FindTarget(ts, a, o) case Some(t) => RevisionOf(Normal(t)) case None => NoRevision
  {
    var found := FindTarget(ts, a, o);
    if found.Some? {
      assert ByTarget(found.value) == Some(Key(a, o));
    } else {
      forall t | t in ts ensures ByTarget(t) != Some(Key(a, o)) {
        if ByTarget(t) == Some(Key(a, o)) { KeyInjective(t.audience, t.operation, a, o); }
      }
    }
  }

  // ---- Parsing ----------------------------------------------------------------------------------

  method SetWithin(values: seq<string>, allowed: seq<string>) returns (ok: bool)
    requires forall i, j | 0 <= i < j < |allowed| :: allowed[i] != allowed[j]
    ensures ok <==> IsSetWithin(values, allowed)
  {
    if |values| == 0 { return false; }
    if |values| > |allowed| {
      if IsSetWithin(values, allowed) { DistinctFit(values, allowed); }
      return false;
    }
    var seen: set<string> := {};
    for i := 0 to |values|
      invariant seen == set j | 0 <= j < i :: values[j]
      invariant forall j | 0 <= j < i :: values[j] in allowed
      invariant forall j, k | 0 <= j < k < i :: values[j] != values[k]
    {
      if values[i] in seen || values[i] !in allowed { return false; }
      seen := seen + {values[i]};
    }
    return true;
  }

  /** Distinct values out of a list are no more than the list. */
  lemma {:induction false} DistinctFit(values: seq<string>, allowed: seq<string>)
    requires forall i | 0 <= i < |values| :: values[i] in allowed
    requires forall i, j | 0 <= i < j < |values| :: values[i] != values[j]
    ensures |values| <= |allowed|
    decreases |allowed|
  {
    if values != [] {
      assert values[0] in allowed;
      var last, rest := allowed[|allowed| - 1], allowed[..|allowed| - 1];
      if i :| 0 <= i < |values| && values[i] == last {
        var others := values[..i] + values[i + 1..];
        forall k | 0 <= k < |others| ensures others[k] in rest {
          var v := values[if k < i then k else k + 1];
          assert others[k] == v && v in allowed && v != last;
        }
        DistinctFit(others, rest);
      } else {
        forall k | 0 <= k < |values| ensures values[k] in rest { assert values[k] in allowed; }
        DistinctFit(values, rest);
      }
    }
  }

  method SourcesAreValid(sources: seq<Source>) returns (ok: bool)
    ensures ok <==> ValidSources(sources)
  {
    if |sources| == 0 || |sources| > 16 { return false; }
    var seen: set<string> := {};
    for i := 0 to |sources|
      invariant seen == set j | 0 <= j < i :: sources[j].operation
      invariant forall j | 0 <= j < i :: ValidSource(sources[j])
      invariant forall j, k | 0 <= j < k < i :: sources[j].operation != sources[k].operation
    {
      var s := sources[i];
      var principals := SetWithin(s.principalKinds, ["human", "workload"]);
      var credentials := SetWithin(s.credentialKinds, ["access_token", "api_key", "workload_token"]);
      if !(IsName(s.operation) && IsName(s.mode) && IsName(s.resource) && IsName(s.action) && IsName(s.ownerHandler)
           && (s.ownerCheck == "caller" || s.ownerCheck == "receiver")) || s.operation in seen { return false; }
      seen := seen + {s.operation};
      if !principals || !credentials { return false; }
      if ("human" in s.principalKinds) != ("access_token" in s.credentialKinds)
        || ("workload" in s.principalKinds) != ("api_key" in s.credentialKinds) { return false; }
    }
    return true;
  }

  method TargetIsValid(t: Target) returns (ok: bool)
    ensures ok <==> ValidTarget(t)
  {
    if !IsAudience(t.audience) || !IsName(t.grantScope) || !ValidGroup(t) { return false; }
    if t.mechanism == Direct {
      return t.httpMethod == "" && t.httpPath == "" && IsRpc(t.rpc) && t.operation == t.rpc
          && t.sources == [] && t.receiverOperation == "" && !t.continuation;
    }
    if !IsName(t.operation) { return false; }
    if t.mechanism == Receiver {
      return t.httpMethod == "" && t.httpPath == "" && t.rpc == "" && t.receiverOperation == "" && t.sources == [] && !t.continuation;
    }
    if !ValidTransport(t) || !IsName(t.receiverOperation) || t.receiverOperation == t.operation { return false; }
    if t.mechanism == WorkloadOnly { return t.sources == [] && !t.continuation; }
    if t.mechanism != Delegated { return false; }
    ok := SourcesAreValid(t.sources);
  }

  // ---- Building the indexes ---------------------------------------------------------------------

  predicate SameTarget(t: Target, u: Target) { t.audience == u.audience && t.operation == u.operation }
  predicate SameRpc(t: Target, u: Target) { t.rpc != "" && t.rpc == u.rpc }
  predicate SameHttp(t: Target, u: Target) {
    t.httpMethod != "" && t.audience == u.audience && t.httpMethod == u.httpMethod && t.httpPath == u.httpPath
  }

  /** Two targets that one of the three indexes cannot hold together. */
  predicate Clashes(t: Target, u: Target) { SameTarget(t, u) || SameRpc(t, u) || SameHttp(t, u) }

  lemma TargetKeyTaken(ts: seq<Target>, r: Registry, t: Target)
    requires Indexes(r.targets, ts, ByTarget, Normal) && TargetNoNul(t)
    ensures TargetKey(t) in r.targets <==> exists u :: u in ts && SameTarget(t, u)
  {
    if TargetKey(t) in r.targets {
      assert HasKey(ts, ByTarget, TargetKey(t));
      var u :| u in ts && ByTarget(u) == Some(TargetKey(t));
      KeyInjective(t.audience, t.operation, u.audience, u.operation);
      assert SameTarget(t, u);
    }
    if u :| u in ts && SameTarget(t, u) { assert ByTarget(u) == Some(TargetKey(t)); }
  }

  lemma RpcTaken(ts: seq<Target>, r: Registry, t: Target)
    requires Indexes(r.methods, ts, ByRpc, TargetKey) && t.rpc != ""
    ensures t.rpc in r.methods <==> exists u :: u in ts && SameRpc(t, u)
  {
    if t.rpc in r.methods {
      assert HasKey(ts, ByRpc, t.rpc);
      var u :| u in ts && ByRpc(u) == Some(t.rpc);
      assert SameRpc(t, u);
    }
    if u :| u in ts && SameRpc(t, u) { assert ByRpc(u) == Some(t.rpc); }
  }

  lemma HttpTaken(ts: seq<Target>, r: Registry, t: Target)
    requires Indexes(r.httpTargets, ts, ByHttp, TargetKey) && TargetNoNul(t) && t.httpMethod != ""
    ensures Endpoint(t.audience, t.httpMethod, t.httpPath) in r.httpTargets <==> exists u :: u in ts && SameHttp(t, u)
  {
    var k := Endpoint(t.audience, t.httpMethod, t.httpPath);
    if k in r.httpTargets {
      assert HasKey(ts, ByHttp, k);
      var u :| u in ts && ByHttp(u) == Some(k);
      EndpointInjective(t.audience, t.httpMethod, t.httpPath, u.audience, u.httpMethod, u.httpPath);
      assert SameHttp(t, u);
    }
    if u :| u in ts && SameHttp(t, u) { assert ByHttp(u) == Some(k); }
  }

  /** Whether the parser's three duplicate checks stop at `t`. */
  predicate Taken(r: Registry, t: Target) {
    || TargetKey(t) in r.targets || (t.rpc != "" && t.rpc in r.methods)
    || (t.httpMethod != "" && Endpoint(t.audience, t.httpMethod, t.httpPath) in r.httpTargets)
  }

  lemma TakenIsClash(ts: seq<Target>, r: Registry, t: Target)
    requires Represents(ts, r) && TargetNoNul(t)
    ensures Taken(r, t) <==> exists u :: u in ts && Clashes(t, u)
  {
    TargetKeyTaken(ts, r, t);
    if t.rpc != "" { RpcTaken(ts, r, t); }
    if t.httpMethod != "" { HttpTaken(ts, r, t); }
    if Taken(r, t) {
      var u :| u in ts && (SameTarget(t, u) || SameRpc(t, u) || SameHttp(t, u));
      assert Clashes(t, u);
    }
  }

  function Extended(r: Registry, t: Target): Registry {
    Registry(
      r.targets[TargetKey(t) := Normal(t)],
      if t.rpc != "" then r.methods[t.rpc := TargetKey(t)] else r.methods,
      if t.httpMethod != "" then r.httpTargets[Endpoint(t.audience, t.httpMethod, t.httpPath) := TargetKey(t)] else r.httpTargets,
      r.revisions[TargetKey(t) := RevisionOf(Normal(t))])
  }

  lemma ExtendedRepresents(ts: seq<Target>, r: Registry, t: Target)
    requires Represents(ts, r) && !Taken(r, t)
    ensures Represents(ts + [t], Extended(r, t))
  {
    SameKeys(ts, r);
    IndexAdds(r.targets, ts, ByTarget, Normal, t);
    IndexAdds(r.revisions, ts, ByTarget, (u: Target) => RevisionOf(Normal(u)), t);
    IndexAdds(r.methods, ts, ByRpc, TargetKey, t);
    IndexAdds(r.httpTargets, ts, ByHttp, TargetKey, t);
  }

  lemma SameKeys(ts: seq<Target>, r: Registry)
    requires Represents(ts, r)
    ensures r.targets.Keys == r.revisions.Keys
  {
    forall k | k in r.targets ensures k in r.revisions { var t :| t in ts && ByTarget(t) == Some(k); }
    forall k | k in r.revisions ensures k in r.targets { var t :| t in ts && ByTarget(t) == Some(k); }
  }

  predicate DistinctSoFar(ts: seq<Target>) { forall i, j | 0 <= i < j < |ts| :: !Clashes(ts[j], ts[i]) }

  lemma DistinctMeansNoClash(ts: seq<Target>)
    ensures Distinct(ts) <==> DistinctSoFar(ts)
  {
    if DistinctSoFar(ts) {
      forall i, j | 0 <= i < j < |ts|
        ensures !(ts[i].audience == ts[j].audience && ts[i].operation == ts[j].operation)
        ensures ts[i].rpc != "" ==> ts[i].rpc != ts[j].rpc
        ensures ts[i].httpMethod != "" ==> !(ts[i].audience == ts[j].audience && ts[i].httpMethod == ts[j].httpMethod && ts[i].httpPath == ts[j].httpPath)
      {
        assert !Clashes(ts[j], ts[i]);
      }
    }
  }

  function Empty(): Registry { Registry(map[], map[], map[], map[]) }

  /** The links of one stored target, read through the index as the parser reads them. */
  predicate LinksHold(r: Registry, t: Target) {
    && (t.receiverOperation != "" ==> Receives(t, Lookup(r, t.audience, t.receiverOperation)))
    && (forall o | o in t.authorityOperations :: Groups(t, Lookup(r, t.audience, o)))
  }

  lemma NormalLinks(t: Target, other: Option<Target>)
    ensures Receives(Normal(t), Normalized(other)) <==> Receives(t, other)
    ensures Groups(Normal(t), Normalized(other)) <==> Groups(t, other)
  {}

  lemma LinksAreScans(ts: seq<Target>, r: Registry, t: Target)
    requires Indexes(r.targets, ts, ByTarget, Normal) && AllNoNul(ts)
    ensures LinksHold(r, Normal(t)) <==> Linked(ts, t)
  {
    LookupIsScan(ts, r, t.audience, t.receiverOperation);
    NormalLinks(t, FindTarget(ts, t.audience, t.receiverOperation));
    forall o | o in t.authorityOperations
      ensures Groups(Normal(t), Lookup(r, t.audience, o)) <==> Groups(t, FindTarget(ts, t.audience, o))
    {
      LookupIsScan(ts, r, t.audience, o);
      NormalLinks(t, FindTarget(ts, t.audience, o));
    }
  }

  lemma DistinctExtends(ts: seq<Target>, t: Target)
    requires DistinctSoFar(ts)
    ensures DistinctSoFar(ts + [t]) <==> !(exists u :: u in ts && Clashes(t, u))
  {
    var longer := ts + [t];
    assert forall i | 0 <= i < |ts| :: longer[i] == ts[i] && ts[i] in ts;
    if u :| u in ts && Clashes(t, u) {
      var i :| 0 <= i < |ts| && ts[i] == u;
      assert Clashes(longer[|ts|], longer[i]);
    }
  }

  /** What the first loop has established of the targets it passed. */
  predicate Good(ts: seq<Target>) { (forall i | 0 <= i < |ts| :: ValidTarget(ts[i])) && DistinctSoFar(ts) }

  lemma GoodExtends(ts: seq<Target>, t: Target)
    requires Good(ts)
    ensures Good(ts + [t]) <==> ValidTarget(t) && !(exists u :: u in ts && Clashes(t, u))
  {
    DistinctExtends(ts, t);
    var longer := ts + [t];
    assert longer[|ts|] == t && forall i | 0 <= i < |ts| :: longer[i] == ts[i];
  }

  lemma GoodPrefix(ts: seq<Target>, n: nat)
    requires n <= |ts|
    ensures Good(ts) ==> Good(ts[..n])
  {
    var p := ts[..n];
    assert forall i | 0 <= i < n :: p[i] == ts[i];
  }

  /** One round of the parser's loop: validate, refuse a duplicate, extend the indexes. */
  method AddTarget(ghost ts: seq<Target>, built: Registry, t: Target) returns (r: Option<Registry>)
    requires Represents(ts, built) && Good(ts)
    ensures r.Some? <==> Good(ts + [t])
    ensures r.Some? ==> Represents(ts + [t], r.value)
  {
    GoodExtends(ts, t);
    var ok := TargetIsValid(t);
    if !ok { return None; }
    ValidHasNoNul(t);
    TakenIsClash(ts, built, t);
    if Taken(built, t) { return None; }
    ExtendedRepresents(ts, built, t);
    return Some(Extended(built, t));
  }

  method IndexTargets(ts: seq<Target>) returns (r: Option<Registry>)
    ensures r.Some? <==> Good(ts)
    ensures r.Some? ==> Represents(ts, r.value)
  {
    var built := Empty();
    ghost var good := (us: seq<Target>) => Good(us);
    assert good(ts[..0]);
    for n := 0 to |ts|
      invariant Represents(ts[..n], built) && good(ts[..n])
    {
      var next := AddTarget(ts[..n], built, ts[n]);
      assert ts[..n] + [ts[n]] == ts[..n + 1];
      if next.None? {
        GoodPrefix(ts, n + 1);
        return None;
      }
      built := next.value;
    }
    assert ts[..|ts|] == ts;
    return Some(built);
  }

  /** The parser's second loop, for a condition the index decides target by target. */
  method AllHold(ts: seq<Target>, r: Registry, ghost linked: Target -> bool) returns (ok: bool)
    requires forall i | 0 <= i < |ts| :: linked(ts[i]) <==> LinksHold(r, Normal(ts[i]))
    ensures ok <==> forall i | 0 <= i < |ts| :: linked(ts[i])
  {
    for n := 0 to |ts|
      invariant forall k | 0 <= k < n :: linked(ts[k])
    {
      var holds := LinksHold(r, Normal(ts[n]));
      if !holds { return false; }
    }
    return true;
  }

  method LinksAreValid(ts: seq<Target>, r: Registry) returns (ok: bool)
    requires Indexes(r.targets, ts, ByTarget, Normal) && AllNoNul(ts)
    ensures ok <==> forall i | 0 <= i < |ts| :: Linked(ts, ts[i])
  {
    ghost var linked := (t: Target) => Linked(ts, t);
    forall i | 0 <= i < |ts| ensures linked(ts[i]) <==> LinksHold(r, Normal(ts[i])) { LinksAreScans(ts, r, ts[i]); }
    ok := AllHold(ts, r, linked);
    assert forall i | 0 <= i < |ts| :: linked(ts[i]) == Linked(ts, ts[i]);
  }

  /** Accepts exactly the documents the rule admits, and indexes exactly their targets. */
  method Parse(doc: Document) returns (r: Option<Registry>)
    ensures r.Some? <==> Acceptable(doc)
    ensures r.Some? ==> Represents(doc.targets, r.value)
  {
    if doc.schema != Schema || |doc.targets| == 0 || |doc.targets| > 512 { return None; }
    DistinctMeansNoClash(doc.targets);
    r := IndexTargets(doc.targets);
    if r.None? { return; }
    forall t | t in doc.targets ensures TargetNoNul(t) { ValidHasNoNul(t); }
    var linked := LinksAreValid(doc.targets, r.value);
    if !linked { r := None; }
  }
}
