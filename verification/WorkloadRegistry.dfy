/**
 * The registry of reviewed invocation targets, workloadregistry/registry.go: what a document must
 * satisfy, the string-keyed indexes built from it, and the normal form behind each revision.
 * Bytes of the document, JSON decoding and the file digest are outside.
 */
module WorkloadRegistry {
  import opened Ids
  import opened Sorting
  import UuidText

  datatype Mechanism = Direct | WorkloadOnly | Delegated | Receiver | OtherMechanism(text: string)

  datatype Source = Source(
    operation: string, mode: string, resource: string, action: string,
    principalKinds: seq<string>, credentialKinds: seq<string>, ownerHandler: string, ownerCheck: string)

  datatype Target = Target(
    audience: string, operation: string, rpc: string, httpMethod: string, httpPath: string,
    mechanism: Mechanism, grantScope: string, enabled: bool, receiverOperation: string,
    continuation: bool, sources: seq<Source>, authorityOperations: seq<string>)

  datatype Document = Document(schema: string, targets: seq<Target>)

  /** The digest of a normal form; digests are injective, so the form stands for it. */
  datatype Revision = NoRevision | RevisionOf(normal: Target)

  /** Immutable once built. */
  datatype Registry = Registry(
    targets: map<string, Target>, methods: map<string, string>,
    httpTargets: map<string, string>, revisions: map<string, Revision>)

  const Schema: string := "ani.workload-targets/v1"

  function Key(a: string, o: string): string { a + ['\0'] + o }

  function TargetKey(t: Target): string { Key(t.audience, t.operation) }

  function Endpoint(a: string, m: string, p: string): string { Key(a, Key(m, p)) }

  function SourceKey(s: Source): string { Key(s.operation, s.mode) }

  // ---- Target constraints -----------------------------------------------------------------------

  predicate Alpha(c: char) { 'A' <= c <= 'Z' || 'a' <= c <= 'z' }
  predicate Digit(c: char) { '0' <= c <= '9' }

  /** ^[A-Za-z0-9][A-Za-z0-9_.:-]{0,127}$ */
  predicate IsName(s: string) {
    && 1 <= |s| <= 128 && (Alpha(s[0]) || Digit(s[0]))
    && forall i | 0 <= i < |s| :: Alpha(s[i]) || Digit(s[i]) || s[i] == '_' || s[i] == '.' || s[i] == ':' || s[i] == '-'
  }

  /** ^[a-z0-9][a-z0-9.-]{0,127}$ */
  predicate IsAudience(s: string) {
    && 1 <= |s| <= 128 && s[0] != '.' && s[0] != '-'
    && forall i | 0 <= i < |s| :: 'a' <= s[i] <= 'z' || Digit(s[i]) || s[i] == '.' || s[i] == '-'
  }

  /** ^/[A-Za-z][A-Za-z0-9_.]{0,191}/[A-Za-z][A-Za-z0-9_]{0,63}$ */
  predicate IsRpc(s: string) {
    var parts := UuidText.Split(s, '/');
    && |parts| == 3 && parts[0] == "" && 1 <= |parts[1]| <= 192 && 1 <= |parts[2]| <= 64
    && Alpha(parts[1][0]) && Alpha(parts[2][0])
    && (forall i | 0 <= i < |parts[1]| :: Alpha(parts[1][i]) || Digit(parts[1][i]) || parts[1][i] == '_' || parts[1][i] == '.')
    && (forall i | 0 <= i < |parts[2]| :: Alpha(parts[2][i]) || Digit(parts[2][i]) || parts[2][i] == '_')
    && NoNul(s)
  }

  predicate NoNul(s: string) { forall i | 0 <= i < |s| :: s[i] != '\0' }

  /** path.Clean leaves it alone: rooted, and no empty, "." or ".." segment. */
  predicate IsCleanPath(s: string) {
    && s != "" && s[0] == '/' && s != "/"
    && forall i | 0 <= i < |UuidText.Split(s[1..], '/')| ::
         UuidText.Split(s[1..], '/')[i] != "" && UuidText.Split(s[1..], '/')[i] != "." && UuidText.Split(s[1..], '/')[i] != ".."
  }

  predicate IsHttpPath(s: string) {
    && |s| <= 256 && IsCleanPath(s)
    && forall i | 0 <= i < |s| :: 33 <= s[i] as int <= 127 && s[i] !in {'%', '?', '#', '{', '}', '*', '\\'}
  }

  /** A non-empty list without repetition, all of it allowed. */
  predicate IsSetWithin(values: seq<string>, allowed: seq<string>) {
    && values != []
    && (forall i | 0 <= i < |values| :: values[i] in allowed)
    && (forall i, j | 0 <= i < j < |values| :: values[i] != values[j])
  }

  predicate ValidSource(s: Source) {
    && IsName(s.operation) && IsName(s.mode) && IsName(s.resource) && IsName(s.action) && IsName(s.ownerHandler)
    && (s.ownerCheck == "caller" || s.ownerCheck == "receiver")
    && IsSetWithin(s.principalKinds, ["human", "workload"])
    && IsSetWithin(s.credentialKinds, ["access_token", "api_key", "workload_token"])
    && ("human" in s.principalKinds <==> "access_token" in s.credentialKinds)
    && ("workload" in s.principalKinds <==> "api_key" in s.credentialKinds)
  }

  predicate ValidSources(sources: seq<Source>) {
    && 1 <= |sources| <= 16
    && (forall i | 0 <= i < |sources| :: ValidSource(sources[i]))
    && (forall i, j | 0 <= i < j < |sources| :: sources[i].operation != sources[j].operation)
  }

  predicate ValidGroup(t: Target) {
    var g := t.authorityOperations;
    g != [] ==>
      && |g| == 2 && t.enabled && t.mechanism == WorkloadOnly && t.httpPath != "" && t.operation in g
      && Less(g[0], g[1]) && IsName(g[0]) && IsName(g[1])
  }

  predicate ValidTransport(t: Target) {
    if t.httpMethod != "" || t.httpPath != "" then
      t.mechanism == WorkloadOnly && t.rpc == "" && (t.httpMethod == "GET" || t.httpMethod == "POST") && IsHttpPath(t.httpPath)
    else IsRpc(t.rpc)
  }

  predicate ValidTarget(t: Target) {
    && IsAudience(t.audience) && IsName(t.grantScope) && ValidGroup(t)
    && match t.mechanism
       case Direct =>
         t.httpMethod == "" && t.httpPath == "" && IsRpc(t.rpc) && t.operation == t.rpc
         && t.sources == [] && t.receiverOperation == "" && !t.continuation
       case Receiver =>
         IsName(t.operation) && t.httpMethod == "" && t.httpPath == "" && t.rpc == ""
         && t.receiverOperation == "" && t.sources == [] && !t.continuation
       case WorkloadOnly =>
         IsName(t.operation) && ValidTransport(t) && IsName(t.receiverOperation) && t.receiverOperation != t.operation
         && t.sources == [] && !t.continuation
       case Delegated =>
         IsName(t.operation) && ValidTransport(t) && IsName(t.receiverOperation) && t.receiverOperation != t.operation
         && ValidSources(t.sources)
       case OtherMechanism(_) => false
  }

  // ---- Normal form ------------------------------------------------------------------------------

  function NormalSource(s: Source): Source {
    s.(principalKinds := Sort(s.principalKinds, (x: string) => x), credentialKinds := Sort(s.credentialKinds, (x: string) => x))
  }

  function NormalSources(sources: seq<Source>): seq<Source> { seq(|sources|, i requires 0 <= i < |sources| => NormalSource(sources[i])) }

  function Normal(t: Target): Target { t.(sources := Sort(NormalSources(t.sources), SourceKey)) }

  // ---- The document rule ------------------------------------------------------------------------

  /** The first target satisfying a condition: a linear scan of the document. */
  function Find(ts: seq<Target>, p: Target -> bool): (r: Option<Target>)
    ensures r.Some? ==> r.value in ts && p(r.value)
    ensures r.None? ==> forall t | t in ts :: !p(t)
    decreases |ts|
  {
    if ts == [] then None else if p(ts[0]) then Some(ts[0]) else Find(ts[1..], p)
  }

  function FindTarget(ts: seq<Target>, a: string, o: string): Option<Target> {
    Find(ts, (t: Target) => t.audience == a && t.operation == o)
  }

  predicate Distinct(ts: seq<Target>) {
    forall i, j | 0 <= i < j < |ts| ::
      && !(ts[i].audience == ts[j].audience && ts[i].operation == ts[j].operation)
      && (ts[i].rpc != "" ==> ts[i].rpc != ts[j].rpc)
      && (ts[i].httpMethod != "" ==>
            !(ts[i].audience == ts[j].audience && ts[i].httpMethod == ts[j].httpMethod && ts[i].httpPath == ts[j].httpPath))
  }

  /** The named receiver is in the same audience, is a receiver, and is enabled if its caller is. */
  predicate Receives(t: Target, receiver: Option<Target>) {
    receiver.Some? && receiver.value.mechanism == Receiver && (t.enabled ==> receiver.value.enabled)
  }

  predicate Groups(t: Target, member: Option<Target>) {
    && member.Some? && member.value.enabled && member.value.mechanism == WorkloadOnly && member.value.httpPath != ""
    && member.value.receiverOperation == t.receiverOperation && member.value.authorityOperations == t.authorityOperations
  }

  predicate ReceiverLink(ts: seq<Target>, t: Target) {
    t.receiverOperation != "" ==> Receives(t, FindTarget(ts, t.audience, t.receiverOperation))
  }

  predicate GroupLinks(ts: seq<Target>, t: Target) {
    forall o | o in t.authorityOperations :: Groups(t, FindTarget(ts, t.audience, o))
  }

  predicate Linked(ts: seq<Target>, t: Target) { ReceiverLink(ts, t) && GroupLinks(ts, t) }

  predicate Acceptable(doc: Document) {
    && doc.schema == Schema && 1 <= |doc.targets| <= 512
    && (forall t | t in doc.targets :: ValidTarget(t))
    && Distinct(doc.targets)
    && (forall i | 0 <= i < |doc.targets| :: Linked(doc.targets, doc.targets[i]))
  }

  // ---- Queries ----------------------------------------------------------------------------------

  function Lookup(r: Registry, a: string, o: string): Option<Target> {
    if Key(a, o) in r.targets then Some(r.targets[Key(a, o)]) else None
  }

  function Method(r: Registry, method_: string): Option<Target> {
    if method_ in r.methods && r.methods[method_] in r.targets then
      var t := r.targets[r.methods[method_]];
      Lookup(r, t.audience, t.operation)
    else None
  }

  function Http(r: Registry, a: string, m: string, p: string): Option<Target> {
    var k := Endpoint(a, m, p);
    if k in r.httpTargets && r.httpTargets[k] in r.targets then
      var t := r.targets[r.httpTargets[k]];
      Lookup(r, t.audience, t.operation)
    else None
  }

  function RevisionFor(r: Registry, a: string, o: string): Revision {
    if Key(a, o) in r.revisions then r.revisions[Key(a, o)] else NoRevision
  }

  predicate AllowsSubject(s: Source, principal: string, credential: string) {
    && ((principal == "human" && credential == "access_token") || (principal == "workload" && credential == "api_key"))
    && principal in s.principalKinds && credential in s.credentialKinds
  }

  // ---- Separators cannot be forged --------------------------------------------------------------

  /** A composite key with a separator-free first part reads back uniquely, against any query text. */
  lemma KeyInjective(a: string, o: string, b: string, p: string)
    requires Key(a, o) == Key(b, p) && NoNul(a) && NoNul(o)
    ensures a == b && o == p
  {
    var k := Key(a, o);
    assert k[|b|] == '\0';
    NulPlace(a, o, |b|);
    assert a == k[..|a|] && b == Key(b, p)[..|b|];
    assert o == k[|a| + 1..] && p == Key(b, p)[|b| + 1..];
  }

  lemma NulPlace(a: string, o: string, i: nat)
    requires NoNul(a) && NoNul(o) && i < |Key(a, o)| && Key(a, o)[i] == '\0'
    ensures i == |a|
  {
    var k := Key(a, o);
    assert forall j | 0 <= j < |a| :: k[j] == a[j];
    assert forall j | |a| < j < |k| :: k[j] == o[j - |a| - 1];
  }

  lemma EndpointInjective(a: string, m: string, p: string, b: string, n: string, q: string)
    requires Endpoint(a, m, p) == Endpoint(b, n, q) && NoNul(a) && NoNul(m) && NoNul(p)
    ensures a == b && m == n && p == q
  {
    var k := Endpoint(a, m, p);
    assert k[|a|] == '\0' && Endpoint(b, n, q)[|b|] == '\0';
    var second := |b| + 1 + |n|;
    assert Endpoint(b, n, q)[second] == Key(n, q)[|n|] == '\0';
    NulPlaces(a, m, p, |b|);
    NulPlaces(a, m, p, second);
    assert |a| == |b| && |m| == |n|;
    assert a == k[..|a|] && b == Endpoint(b, n, q)[..|b|];
    assert Key(m, p) == k[|a| + 1..] && Key(n, q) == Endpoint(b, n, q)[|b| + 1..];
    KeyInjective(m, p, n, q);
  }

  /** The endpoint key has separators at exactly two places. */
  lemma NulPlaces(a: string, m: string, p: string, i: nat)
    requires NoNul(a) && NoNul(m) && NoNul(p) && i < |Endpoint(a, m, p)| && Endpoint(a, m, p)[i] == '\0'
    ensures i == |a| || i == |a| + 1 + |m|
  {
    var k, inner := Endpoint(a, m, p), Key(m, p);
    assert forall j | 0 <= j < |a| :: k[j] == a[j];
    assert forall j | |a| < j < |k| :: k[j] == inner[j - |a| - 1];
    if i > |a| { NulPlace(m, p, i - |a| - 1); }
  }

  predicate TargetNoNul(t: Target) { NoNul(t.audience) && NoNul(t.operation) && NoNul(t.rpc) && NoNul(t.httpMethod) && NoNul(t.httpPath) }

  lemma ValidHasNoNul(t: Target)
    requires ValidTarget(t)
    ensures TargetNoNul(t)
  {}
}
