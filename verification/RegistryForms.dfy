/** What the registry demands of texts, sources and targets, character by character and field by field. */
module RegistryForms {
  import opened Ids
  import opened WorkloadRegistry
  import Sorting
  import UuidText

  predicate Letter(c: char) { ('A' <= c && c <= 'Z') || ('a' <= c && c <= 'z') }
  predicate Numeral(c: char) { '0' <= c && c <= '9' }

  /** Names start with a letter or digit and have up to 128 of these characters. */
  lemma NameIff(s: string)
    ensures IsName(s) <==>
              && s != "" && |s| <= 128 && (Letter(s[0]) || Numeral(s[0]))
              && forall c | c in s :: Letter(c) || Numeral(c) || c in {'_', '.', ':', '-'}
  {
    assert forall i | 0 <= i < |s| :: s[i] in s;
  }

  /** Audiences are lower case and start with a letter or digit. */
  lemma AudienceIff(s: string)
    ensures IsAudience(s) <==>
              && s != "" && |s| <= 128 && (('a' <= s[0] && s[0] <= 'z') || Numeral(s[0]))
              && forall c | c in s :: ('a' <= c && c <= 'z') || Numeral(c) || c in {'.', '-'}
  {
    assert forall i | 0 <= i < |s| :: s[i] in s;
  }

  /** A method is a service and a name, each led by a slash and by a letter. */
  predicate ServiceName(s: string) { s != "" && |s| <= 192 && Letter(s[0]) && forall c | c in s :: Letter(c) || Numeral(c) || c == '_' || c == '.' }
  predicate MethodName(s: string) { s != "" && |s| <= 64 && Letter(s[0]) && forall c | c in s :: Letter(c) || Numeral(c) || c == '_' }

  lemma RpcMatches(service: string, name: string)
    requires ServiceName(service) && MethodName(name)
    ensures IsRpc("/" + service + "/" + name)
  {
    var s := "/" + service + "/" + name;
    var parts := ["", service, name];
    assert forall i | 0 <= i < |service| :: service[i] in service;
    assert forall i | 0 <= i < |name| :: name[i] in name;
    assert UuidText.Free(service, '/') && UuidText.Free(name, '/') && UuidText.Free("", '/');
    UuidText.SplitJoin(parts, '/');
    assert parts[1..] == [service, name] && parts[1..][1..] == [name];
    assert UuidText.Join([name], '/') == name && UuidText.Join([service, name], '/') == service + "/" + name;
    assert UuidText.Join(parts, '/') == s;
    forall i | 0 <= i < |s| ensures s[i] != '\0' {
      assert s[i] == '/' || s[i] in service || s[i] in name;
    }
  }

  /** Conversely whatever is a method reads as a service and a name. */
  lemma RpcParts(s: string) returns (service: string, name: string)
    requires IsRpc(s)
    ensures ServiceName(service) && MethodName(name) && s == "/" + service + "/" + name
  {
    var parts := UuidText.Split(s, '/');
    service, name := parts[1], parts[2];
    UuidText.JoinSplit(s, '/');
    assert parts == ["", service, name] && parts[1..] == [service, name] && parts[1..][1..] == [name];
    assert UuidText.Join([name], '/') == name && UuidText.Join([service, name], '/') == service + "/" + name;
  }

  /** A source names what it opens, who checks it, and at least one kind of caller with the matching credential. */
  lemma SourceIff(s: Source)
    ensures ValidSource(s) <==>
              && (forall text | text in {s.operation, s.mode, s.resource, s.action, s.ownerHandler} :: IsName(text))
              && s.ownerCheck in {"caller", "receiver"}
              && s.principalKinds != [] && s.credentialKinds != []
              && (forall k | k in s.principalKinds :: k in {"human", "workload"})
              && (forall k | k in s.credentialKinds :: k in {"access_token", "api_key", "workload_token"})
              && (forall i, j | 0 <= i < j < |s.principalKinds| :: s.principalKinds[i] != s.principalKinds[j])
              && (forall i, j | 0 <= i < j < |s.credentialKinds| :: s.credentialKinds[i] != s.credentialKinds[j])
              && ("human" in s.principalKinds <==> "access_token" in s.credentialKinds)
              && ("workload" in s.principalKinds <==> "api_key" in s.credentialKinds)
  {
    KindsIff(s.principalKinds, ["human", "workload"]);
    KindsIff(s.credentialKinds, ["access_token", "api_key", "workload_token"]);
  }

  lemma KindsIff(values: seq<string>, allowed: seq<string>)
    ensures IsSetWithin(values, allowed) <==>
              values != [] && (forall k | k in values :: k in allowed) && forall i, j | 0 <= i < j < |values| :: values[i] != values[j]
  {
    assert forall i | 0 <= i < |values| :: values[i] in values;
  }

  /** What distinguishes the four kinds of target. */
  lemma TargetIff(t: Target)
    ensures ValidTarget(t) <==>
              && IsAudience(t.audience) && IsName(t.grantScope) && Grouped(t)
              && (t.mechanism == Direct || t.mechanism == Receiver || t.mechanism == WorkloadOnly || t.mechanism == Delegated)
              && (t.mechanism == Direct ==> IsRpc(t.operation) && t.rpc == t.operation) && (t.mechanism != Direct ==> IsName(t.operation))
              && (t.mechanism == Receiver ==> t.rpc == "")
              && (t.mechanism == Direct || t.mechanism == Receiver ==>
                    t.httpMethod == "" && t.httpPath == "" && t.receiverOperation == "" && t.sources == [] && !t.continuation)
              && (t.mechanism == WorkloadOnly || t.mechanism == Delegated ==>
                    Reachable(t) && IsName(t.receiverOperation) && t.receiverOperation != t.operation)
              && (t.mechanism == WorkloadOnly ==> t.sources == [] && !t.continuation)
              && (t.mechanism == Delegated ==>
                    && t.httpMethod == "" && t.httpPath == ""
                    && 1 <= |t.sources| && |t.sources| <= 16 && (forall s | s in t.sources :: ValidSource(s))
                    && forall i, j | 0 <= i < j < |t.sources| :: t.sources[i].operation != t.sources[j].operation)
  {
    assert forall i | 0 <= i < |t.sources| :: t.sources[i] in t.sources;
  }

  /** By method, or, for workloads only, by one of two HTTP verbs and a clean path. */
  predicate Reachable(t: Target) {
    if t.httpMethod == "" && t.httpPath == "" then IsRpc(t.rpc)
    else t.mechanism == WorkloadOnly && t.rpc == "" && t.httpMethod in {"GET", "POST"} && IsHttpPath(t.httpPath)
  }

  /** An authority group is a sorted pair of names, the target's own among them, of an enabled HTTP target. */
  predicate Grouped(t: Target) {
    t.authorityOperations == [] ||
    (&& |t.authorityOperations| == 2 && t.operation in t.authorityOperations
     && IsName(t.authorityOperations[0]) && IsName(t.authorityOperations[1]) && Sorting.Less(t.authorityOperations[0], t.authorityOperations[1])
     && t.enabled && t.mechanism == WorkloadOnly && t.httpPath != "")
  }

  /** A subject is allowed with its own kind of credential where the source lists both. */
  lemma AllowedIff(s: Source, principal: string, credential: string)
    ensures AllowsSubject(s, principal, credential) <==>
              && (principal, credential) in {("human", "access_token"), ("workload", "api_key")}
              && principal in s.principalKinds && credential in s.credentialKinds
  {}

  predicate PlainSegment(part: string) { part != "" && part != "." && part != ".." }

  lemma CleanPathIff(s: string)
    ensures IsCleanPath(s) <==> |s| >= 2 && s[0] == '/' && forall part | part in UuidText.Split(s[1..], '/') :: PlainSegment(part)
  {
    if |s| >= 1 {
      var parts := UuidText.Split(s[1..], '/');
      assert (forall i | 0 <= i < |parts| :: PlainSegment(parts[i])) <==> (forall part | part in parts :: PlainSegment(part)) by {
        assert forall i | 0 <= i < |parts| :: parts[i] in parts;
      }
      assert s == "/" <==> |s| == 1 && s[0] == '/';
    }
  }

  /** HTTP paths are rooted and clean, printable, and free of escapes, queries, fragments and patterns. */
  lemma HttpPathIff(s: string)
    ensures IsHttpPath(s) <==>
              && |s| <= 256 && |s| >= 2 && s[0] == '/'
              && (forall part | part in UuidText.Split(s[1..], '/') :: PlainSegment(part))
              && forall c | c in s :: 33 <= c as int && c as int <= 127 && c !in {'%', '?', '#', '{', '}', '*', '\\'}
  {
    CleanPathIff(s);
    assert forall i | 0 <= i < |s| :: s[i] in s;
  }

  /** The target that a scan finds for an operation of the same audience. */
  predicate Sibling(ts: seq<Target>, t: Target, operation: string, other: Target) { FindTarget(ts, t.audience, operation) == Some(other) }

  /** Every receiver named is there, receives, and is on when its caller is; both members of a group agree. */
  ghost predicate Connected(ts: seq<Target>, t: Target) {
    && (t.receiverOperation != "" ==>
          exists other :: Sibling(ts, t, t.receiverOperation, other) && other.mechanism == Receiver && (t.enabled ==> other.enabled))
    && (forall operation | operation in t.authorityOperations ::
          exists other :: && Sibling(ts, t, operation, other) && other.enabled && other.mechanism == WorkloadOnly && other.httpPath != ""
                          && other.receiverOperation == t.receiverOperation && other.authorityOperations == t.authorityOperations)
  }

  lemma LinkedIff(ts: seq<Target>, t: Target)
    ensures Linked(ts, t) <==> Connected(ts, t)
  {
    if Linked(ts, t) {
      if t.receiverOperation != "" { assert Sibling(ts, t, t.receiverOperation, FindTarget(ts, t.audience, t.receiverOperation).value); }
      forall operation | operation in t.authorityOperations
        ensures exists other :: && Sibling(ts, t, operation, other) && other.enabled && other.mechanism == WorkloadOnly && other.httpPath != ""
                                && other.receiverOperation == t.receiverOperation && other.authorityOperations == t.authorityOperations
      {
        assert Groups(t, FindTarget(ts, t.audience, operation));
        assert Sibling(ts, t, operation, FindTarget(ts, t.audience, operation).value);
      }
    }
    if Connected(ts, t) {
      forall operation | operation in t.authorityOperations ensures Groups(t, FindTarget(ts, t.audience, operation)) {
        var other :| Sibling(ts, t, operation, other) && other.enabled && other.mechanism == WorkloadOnly && other.httpPath != ""
          && other.receiverOperation == t.receiverOperation && other.authorityOperations == t.authorityOperations;
      }
    }
  }

  /** A document is accepted under the reviewed schema, with 1 to 512 valid, distinct and connected targets. */
  lemma DocumentIff(doc: Document)
    ensures Acceptable(doc) <==>
              && doc.schema == "ani.workload-targets/v1" && |doc.targets| >= 1 && |doc.targets| <= 512
              && (forall t | t in doc.targets :: ValidTarget(t) && Connected(doc.targets, t))
              && (forall i, j | 0 <= i < j < |doc.targets| :: !Clash(doc.targets[i], doc.targets[j]))
  {
    forall t ensures Linked(doc.targets, t) <==> Connected(doc.targets, t) { LinkedIff(doc.targets, t); }
    assert Distinct(doc.targets) <==> forall i, j | 0 <= i < j < |doc.targets| :: !Clash(doc.targets[i], doc.targets[j]);
    assert forall i | 0 <= i < |doc.targets| :: doc.targets[i] in doc.targets;
  }

  /** Two targets share an operation, a method or an HTTP endpoint. */
  predicate Clash(a: Target, b: Target) {
    || (a.audience == b.audience && a.operation == b.operation)
    || (a.rpc == b.rpc && a.rpc != "")
    || (a.audience == b.audience && a.httpMethod == b.httpMethod && a.httpPath == b.httpPath && a.httpMethod != "")
  }
}
