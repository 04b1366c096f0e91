/**
 * Membership and role administration at the tenant and the platform boundary, and the rule that the
 * last administrator able to log in is never lost. Whether a member's principal is an active human
 * with a usable login is a fact of the member here: these operations do not change it.
 */
module Administrators {
  import opened Ids

  datatype Boundary = Tenant | Platform
  datatype Status = Active | Suspended | Removed | OtherStatus(text: string)
  datatype Code = AdminCode | OtherCode(text: string)

  datatype Member = Member(status: Status, version: int, capable: bool, roles: set<Uuid>)
  datatype Role = Role(system: bool, code: Code, version: int, invited: bool)

  /** `invited`: a pending invitation refers to the role, which blocks its deletion like a binding. */
  datatype Db = Db(boundary: Boundary, members: map<Uuid, Member>, roles: map<Uuid, Role>)

  datatype Failure = NotFound | VersionConflict | StatusInvalid | LastAdministrator | RoleNotFound
                   | SystemRoleImmutable | RoleInUse | BindingConflict | BindingNotFound | CodeTaken
  datatype Result<+T> = Ok(value: T) | Err(error: Failure)

  predicate IsAdminRole(db: Db, r: Uuid) { r in db.roles && db.roles[r].system && db.roles[r].code == AdminCode }

  /** An active, login-capable member bound to the system administrator role. */
  predicate IsAdministrator(db: Db, id: Uuid) {
    && id in db.members && db.members[id].status == Active && db.members[id].capable
    && exists r :: r in db.members[id].roles && IsAdminRole(db, r)
  }

  function Administrators(db: Db): set<Uuid> { set id | id in db.members && IsAdministrator(db, id) }

  /** protectLastAdministrator and protectPlatformAdministrator: is the target counted, and alone? */
  predicate Protected(db: Db, id: Uuid) { IsAdministrator(db, id) && |Administrators(db)| <= 1 }

  function WithMember(db: Db, id: Uuid, m: Member): Db { db.(members := db.members[id := m]) }

  function UpdateMembership(db: Db, id: Uuid, status: Status, expected: int): Result<Db> {
    if status.OtherStatus? then Err(StatusInvalid)
    else if id !in db.members then Err(NotFound)
    else
      var m := db.members[id];
      if m.version != expected then Err(VersionConflict)
      else if m.status == Removed && (db.boundary == Platform || status != Removed) then Err(StatusInvalid)
      else if m.status == Active && status != Active && Protected(db, id) then Err(LastAdministrator)
      else Ok(WithMember(db, id, m.(status := status, version := m.version + 1)))
  }

  /** The platform binds roles to active members only; the tenant asks no more than the version. */
  function BindRole(db: Db, id: Uuid, role: Uuid, expected: int): Result<Db> {
    if id !in db.members then Err(NotFound)
    else
      var m := db.members[id];
      if db.boundary == Platform && m.status != Active then Err(StatusInvalid)
      else if m.version != expected then Err(VersionConflict)
      else if role !in db.roles then Err(RoleNotFound)
      else if role in m.roles then Err(BindingConflict)
      else Ok(WithMember(db, id, m.(roles := m.roles + {role}, version := m.version + 1)))
  }

  function UnbindRole(db: Db, id: Uuid, role: Uuid, expected: int): Result<Db> {
    if id !in db.members then Err(NotFound)
    else
      var m := db.members[id];
      if db.boundary == Platform && m.version != expected then Err(VersionConflict)
      else if role !in db.roles then Err(RoleNotFound)
      else if IsAdminRole(db, role) && Protected(db, id) then Err(LastAdministrator)
      else if m.version != expected then Err(VersionConflict)
      else if role !in m.roles then Err(BindingNotFound)
      else Ok(WithMember(db, id, m.(roles := m.roles - {role}, version := m.version + 1)))
  }

  predicate Referenced(db: Db, role: Uuid) {
    (exists id :: id in db.members && role in db.members[id].roles) || (role in db.roles && db.roles[role].invited)
  }

  function DeleteRole(db: Db, role: Uuid, expected: int): Result<Db> {
    if role !in db.roles then Err(RoleNotFound)
    else if db.roles[role].system then Err(SystemRoleImmutable)
    else if db.roles[role].version != expected then Err(VersionConflict)
    else if Referenced(db, role) then Err(RoleInUse)
    else Ok(db.(roles := db.roles - {role}))
  }

  /** Custom roles are never system roles, and codes are unique. */
  function CreateRole(db: Db, id: Uuid, code: Code): Result<Db> {
    if id in db.roles || exists r :: r in db.roles && db.roles[r].code == code then Err(CodeTaken)
    else Ok(db.(roles := db.roles[id := Role(false, code, 1, false)]))
  }

  function UpdateRole(db: Db, id: Uuid, expected: int): Result<Db> {
    if id !in db.roles then Err(RoleNotFound)
    else if db.roles[id].system then Err(SystemRoleImmutable)
    else if db.roles[id].version != expected then Err(VersionConflict)
    else Ok(db.(roles := db.roles[id := db.roles[id].(version := expected + 1)]))
  }

  datatype Step =
    | Update(id: Uuid, status: Status, expected: int)
    | Bind(id: Uuid, role: Uuid, expected: int)
    | Unbind(id: Uuid, role: Uuid, expected: int)
    | Delete(role: Uuid, expected: int)
    | Create(role: Uuid, code: Code)
    | Edit(role: Uuid, expected: int)
    | Join(id: Uuid, capable: bool, roles: set<Uuid>)

  function Apply(db: Db, step: Step): Result<Db> {
    match step
    case Update(id, status, expected) => UpdateMembership(db, id, status, expected)
    case Bind(id, role, expected) => BindRole(db, id, role, expected)
    case Unbind(id, role, expected) => UnbindRole(db, id, role, expected)
    case Delete(role, expected) => DeleteRole(db, role, expected)
    case Create(role, code) => CreateRole(db, role, code)
    case Edit(role, expected) => UpdateRole(db, role, expected)
    case Join(id, capable, roles) =>
      if id in db.members || !(roles <= db.roles.Keys) then Err(BindingConflict)
      else Ok(WithMember(db, id, Member(Active, 1, capable, roles)))
  }

  function Next(db: Db, step: Step): Db { match Apply(db, step) case Ok(t) => t case Err(_) => db }

  function Run(db: Db, steps: seq<Step>): Db
    decreases |steps|
  { if steps == [] then db else Run(Next(db, steps[0]), steps[1..]) }

  /** Role codes are unique, so there is at most one administrator role. */
  ghost predicate OneAdminRole(db: Db) { forall r, s | IsAdminRole(db, r) && IsAdminRole(db, s) :: r == s }

  /** Who counts: active, able to log in, and bound to the system role with the administrator code. */
  lemma AdministratorIff(db: Db, id: Uuid)
    ensures id in Administrators(db) <==>
              && id in db.members && db.members[id].status == Active && db.members[id].capable
              && exists r :: r in db.members[id].roles && r in db.roles && db.roles[r].system && db.roles[r].code == AdminCode
  {
    if id in db.members && exists r :: r in db.members[id].roles && r in db.roles && db.roles[r].system && db.roles[r].code == AdminCode {
      var r :| r in db.members[id].roles && r in db.roles && db.roles[r].system && db.roles[r].code == AdminCode;
      assert IsAdminRole(db, r);
    }
  }

  // ---- The guard is exact ---------------------------------------------------------------------

  lemma ProtectedMeansAlone(db: Db, id: Uuid)
    ensures Protected(db, id) <==> Administrators(db) == {id}
  {
    var all := Administrators(db);
    if IsAdministrator(db, id) {
      assert id in all;
      if |all| <= 1 {
        forall other | other in all ensures other == id {
          if other != id { Cardinality(all, {id, other}); }
        }
      }
    }
  }

  lemma Cardinality(all: set<Uuid>, some: set<Uuid>)
    requires some <= all
    ensures |some| <= |all|
    decreases some
  {
    if some != {} {
      var x :| x in some;
      Cardinality(all - {x}, some - {x});
    }
  }

  /** Taking an active administrator out of service removes that one from the set, and no other. */
  lemma SuspensionRemovesOne(db: Db, id: Uuid, status: Status)
    requires id in db.members && status != Active
    ensures var m := db.members[id];
            Administrators(WithMember(db, id, m.(status := status, version := m.version + 1))) == Administrators(db) - {id}
  {
    var t := WithMember(db, id, db.members[id].(status := status, version := db.members[id].version + 1));
    forall other ensures IsAdministrator(t, other) <==> IsAdministrator(db, other) && other != id {
      assert forall r :: IsAdminRole(t, r) == IsAdminRole(db, r);
    }
  }

  lemma UnbindingRemovesOne(db: Db, id: Uuid, role: Uuid)
    requires OneAdminRole(db) && id in db.members
    ensures var m := db.members[id];
            Administrators(WithMember(db, id, m.(roles := m.roles - {role}, version := m.version + 1)))
              == Administrators(db) - (if IsAdminRole(db, role) then {id} else {})
  {
    var m := db.members[id];
    var t := WithMember(db, id, m.(roles := m.roles - {role}, version := m.version + 1));
    assert forall r :: IsAdminRole(t, r) == IsAdminRole(db, r);
    forall other ensures IsAdministrator(t, other) <==> IsAdministrator(db, other) && !(other == id && IsAdminRole(db, role)) {
      if other == id && IsAdministrator(db, id) && !IsAdminRole(db, role) {
        var r :| r in m.roles && IsAdminRole(db, r);
        assert r in t.members[id].roles;
      }
    }
  }

  /** The update is refused for the last administrator exactly when it would leave none. */
  lemma UpdateRefusedIffNoneLeft(db: Db, id: Uuid, status: Status, expected: int)
    requires id in db.members && db.members[id].version == expected && db.members[id].status == Active && !status.OtherStatus?
    requires Administrators(db) != {}
    ensures var m := db.members[id]; var t := WithMember(db, id, m.(status := status, version := m.version + 1));
            && (UpdateMembership(db, id, status, expected) == Err(LastAdministrator) <==> Administrators(t) == {})
            && (UpdateMembership(db, id, status, expected) == Ok(t) <==> Administrators(t) != {})
  {
    ProtectedMeansAlone(db, id);
    if status != Active {
      SuspensionRemovesOne(db, id, status);
    } else {
      var t := WithMember(db, id, db.members[id].(status := status, version := expected + 1));
      assert forall r :: IsAdminRole(t, r) == IsAdminRole(db, r);
      assert forall other :: IsAdministrator(t, other) == IsAdministrator(db, other);
    }
  }

  lemma UnbindRefusedIffNoneLeft(db: Db, id: Uuid, role: Uuid, expected: int)
    requires OneAdminRole(db) && Administrators(db) != {}
    requires id in db.members && db.members[id].version == expected && role in db.roles && role in db.members[id].roles
    ensures var m := db.members[id]; var t := WithMember(db, id, m.(roles := m.roles - {role}, version := m.version + 1));
            && (UnbindRole(db, id, role, expected) == Err(LastAdministrator) <==> Administrators(t) == {})
            && (UnbindRole(db, id, role, expected) == Ok(t) <==> Administrators(t) != {})
  {
    ProtectedMeansAlone(db, id);
    UnbindingRemovesOne(db, id, role);
  }

  // ---- When each operation succeeds, and what it writes ------------------------------------------

  /** The status of a member changes with its version, unless that would take the last administrator away. */
  lemma UpdatedIff(db: Db, id: Uuid, status: Status, expected: int)
    ensures var r := UpdateMembership(db, id, status, expected);
            && (r.Ok? <==>
                  && status in {Active, Suspended, Removed} && id in db.members && db.members[id].version == expected
                  && (db.members[id].status == Removed ==> db.boundary == Tenant && status == Removed)
                  && (db.members[id].status == Active && status != Active ==> Administrators(db) != {id}))
            && (r.Ok? ==> r.value == db.(members := db.members[id := Member(status, expected + 1, db.members[id].capable, db.members[id].roles)]))
            && (r.Err? ==>
                  r.error == (if status.OtherStatus? then StatusInvalid else if id !in db.members then NotFound
                              else if db.members[id].version != expected then VersionConflict
                              else if db.members[id].status == Removed then StatusInvalid else LastAdministrator))
  {
    ProtectedMeansAlone(db, id);
  }

  lemma BoundIff(db: Db, id: Uuid, role: Uuid, expected: int)
    ensures var r := BindRole(db, id, role, expected);
            && (r.Ok? <==>
                  && id in db.members && (db.boundary == Platform ==> db.members[id].status == Active) && db.members[id].version == expected
                  && role in db.roles && role !in db.members[id].roles)
            && (r.Ok? ==> r.value == db.(members := db.members[id :=
                  Member(db.members[id].status, expected + 1, db.members[id].capable, db.members[id].roles + {role})]))
            && (r.Err? ==>
                  r.error == (if id !in db.members then NotFound
                              else if db.boundary == Platform && db.members[id].status != Active then StatusInvalid
                              else if db.members[id].version != expected then VersionConflict
                              else if role !in db.roles then RoleNotFound else BindingConflict))
  {}

  lemma UnboundIff(db: Db, id: Uuid, role: Uuid, expected: int)
    ensures var r := UnbindRole(db, id, role, expected);
            && (r.Ok? <==>
                  && id in db.members && db.members[id].version == expected && role in db.roles && role in db.members[id].roles
                  && !(db.roles[role].system && db.roles[role].code == AdminCode && Administrators(db) == {id}))
            && (r.Ok? ==> r.value == db.(members := db.members[id :=
                  Member(db.members[id].status, expected + 1, db.members[id].capable, db.members[id].roles - {role})]))
            && (r.Err? ==>
                  r.error == (if id !in db.members then NotFound
                              else if db.boundary == Platform && db.members[id].version != expected then VersionConflict
                              else if role !in db.roles then RoleNotFound
                              else if db.roles[role].system && db.roles[role].code == AdminCode && Administrators(db) == {id} then LastAdministrator
                              else if db.members[id].version != expected then VersionConflict else BindingNotFound))
  {
    ProtectedMeansAlone(db, id);
  }

  /** Roles are changed and deleted by version, system roles never, and none that a member or an invitation uses. */
  lemma RoleChangesIff(db: Db, role: Uuid, expected: int, code: Code)
    ensures DeleteRole(db, role, expected).Ok? <==>
              && role in db.roles && !db.roles[role].system && db.roles[role].version == expected && !db.roles[role].invited
              && forall id | id in db.members :: role !in db.members[id].roles
    ensures DeleteRole(db, role, expected).Ok? ==> DeleteRole(db, role, expected).value == db.(roles := db.roles - {role})
    ensures UpdateRole(db, role, expected) ==
              if role !in db.roles then Err(RoleNotFound)
              else if db.roles[role].system then Err(SystemRoleImmutable)
              else if db.roles[role].version != expected then Err(VersionConflict)
              else Ok(db.(roles := db.roles[role := db.roles[role].(version := expected + 1)]))
    ensures DeleteRole(db, role, expected).Err? ==>
              DeleteRole(db, role, expected).error ==
                (if role !in db.roles then RoleNotFound else if db.roles[role].system then SystemRoleImmutable
                 else if db.roles[role].version != expected then VersionConflict else RoleInUse)
    ensures CreateRole(db, role, code) ==
              if role !in db.roles && (forall r | r in db.roles :: db.roles[r].code != code) then Ok(db.(roles := db.roles[role := Role(false, code, 1, false)]))
              else Err(CodeTaken)
  {}

  /** A newcomer is active, at version 1, under roles that exist. */
  lemma JoinedIff(db: Db, id: Uuid, capable: bool, roles: set<Uuid>)
    ensures Next(db, Join(id, capable, roles)) ==
              if id !in db.members && (forall r | r in roles :: r in db.roles) then db.(members := db.members[id := Member(Active, 1, capable, roles)]) else db
  {}

  /** Each request is its own operation; a refused one changes nothing; a run is its first request, then the rest. */
  lemma {:induction false} RunSplits(db: Db, a: seq<Step>, b: seq<Step>)
    ensures Run(db, a + b) == Run(Run(db, a), b) && (|a| == 1 ==> Run(db, a) == Next(db, a[0]))
    decreases |a|
  {
    if a == [] { assert a + b == b; }
    else {
      RunSplits(Next(db, a[0]), a[1..], b);
      assert (a + b)[1..] == a[1..] + b;
    }
  }

  // ---- Every run ------------------------------------------------------------------------------

  predicate UniqueCodes(db: Db) { forall r, s | r in db.roles && s in db.roles && db.roles[r].code == db.roles[s].code :: r == s }

  lemma CodesMakeOneAdminRole(db: Db)
    requires UniqueCodes(db)
    ensures OneAdminRole(db)
  {}

  /** A step that leaves roles, and other members' standing, no worse keeps every administrator. */
  lemma Preserves(db: Db, t: Db)
    requires forall r | IsAdminRole(db, r) :: IsAdminRole(t, r)
    requires forall id | id in db.members ::
               && id in t.members && t.members[id].capable == db.members[id].capable && db.members[id].roles <= t.members[id].roles
               && (db.members[id].status == Active ==> t.members[id].status == Active)
    ensures Administrators(db) <= Administrators(t)
  {
    forall id | IsAdministrator(db, id) ensures IsAdministrator(t, id) {
      var r :| r in db.members[id].roles && IsAdminRole(db, r);
      assert r in t.members[id].roles && IsAdminRole(t, r);
    }
  }

  lemma UpdateKeeps(db: Db, id: Uuid, status: Status, expected: int)
    requires Administrators(db) != {}
    ensures Administrators(Next(db, Update(id, status, expected))) != {}
  {
    if UpdateMembership(db, id, status, expected).Ok? {
      if db.members[id].status == Active && status != Active {
        UpdateRefusedIffNoneLeft(db, id, status, expected);
      } else {
        Preserves(db, Next(db, Update(id, status, expected)));
      }
    }
  }

  lemma UnbindKeeps(db: Db, id: Uuid, role: Uuid, expected: int)
    requires UniqueCodes(db) && Administrators(db) != {}
    ensures Administrators(Next(db, Unbind(id, role, expected))) != {}
  {
    CodesMakeOneAdminRole(db);
    if UnbindRole(db, id, role, expected).Ok? { UnbindRefusedIffNoneLeft(db, id, role, expected); }
  }

  lemma StepKeepsAdministrator(db: Db, step: Step)
    requires UniqueCodes(db) && Administrators(db) != {}
    ensures UniqueCodes(Next(db, step)) && Administrators(Next(db, step)) != {}
  {
    match step
    case Update(id, status, expected) => UpdateKeeps(db, id, status, expected);
    case Unbind(id, role, expected) => UnbindKeeps(db, id, role, expected);
    case _ => Preserves(db, Next(db, step));
  }

  /** Any run of administration keeps at least one administrator able to log in. */
  lemma {:induction false} EveryRunKeepsAnAdministrator(db: Db, steps: seq<Step>)
    requires UniqueCodes(db) && Administrators(db) != {}
    ensures Administrators(Run(db, steps)) != {}
    decreases |steps|
  {
    if steps != [] {
      StepKeepsAdministrator(db, steps[0]);
      EveryRunKeepsAnAdministrator(Next(db, steps[0]), steps[1..]);
    }
  }

  // ---- The platform's counting loop -----------------------------------------------------------

  datatype Candidate = Candidate(membership: Uuid, loginCapable: bool)

  /** The candidate query: active human members bound to the administrator role, each once. */
  ghost predicate IsCandidateList(db: Db, cs: seq<Candidate>) {
    && (forall i | 0 <= i < |cs| :: cs[i].membership in db.members && (cs[i].loginCapable <==> IsAdministrator(db, cs[i].membership)))
    && (forall i, j | 0 <= i < j < |cs| :: cs[i].membership != cs[j].membership)
    && (forall id | IsAdministrator(db, id) :: exists i :: 0 <= i < |cs| && cs[i].membership == id)
  }

  function Capable(cs: seq<Candidate>): set<Uuid> { set i | 0 <= i < |cs| && cs[i].loginCapable :: cs[i].membership }

  method ProtectPlatformAdministrator(db: Db, cs: seq<Candidate>, member: Uuid) returns (refused: bool)
    requires IsCandidateList(db, cs)
    ensures refused <==> Protected(db, member)
  {
    var count, target, i := 0, false, 0;
    while i < |cs|
      invariant 0 <= i <= |cs|
      invariant count == |Capable(cs[..i])|
      invariant target <==> member in Capable(cs[..i])
    {
      CapableGrows(cs, i);
      if cs[i].loginCapable {
        count := count + 1;
        if cs[i].membership == member { target := true; }
      }
      i := i + 1;
    }
    assert cs[..|cs|] == cs;
    forall id | IsAdministrator(db, id) ensures id in Capable(cs) {
      var k :| 0 <= k < |cs| && cs[k].membership == id;
    }
    assert Capable(cs) == Administrators(db);
    refused := target && count <= 1;
  }

  lemma CapableGrows(cs: seq<Candidate>, i: nat)
    requires i < |cs| && forall j, k | 0 <= j < k < |cs| :: cs[j].membership != cs[k].membership
    ensures Capable(cs[..i + 1]) == Capable(cs[..i]) + (if cs[i].loginCapable then {cs[i].membership} else {})
    ensures cs[i].membership !in Capable(cs[..i])
  {
    forall m | m in Capable(cs[..i]) ensures m in Capable(cs[..i + 1]) {
      var k :| 0 <= k < i && cs[..i][k].loginCapable && cs[..i][k].membership == m;
      assert cs[..i + 1][k] == cs[k];
    }
    if cs[i].loginCapable { assert cs[..i + 1][i] == cs[i]; }
  }

  class PlatformAdministration {
    var members: map<Uuid, Member>
    var roles: map<Uuid, Role>

    constructor (members: map<Uuid, Member>, roles: map<Uuid, Role>)
      ensures Value() == Db(Platform, members, roles)
    { this.members, this.roles := members, roles; }

    function Value(): Db reads this { Db(Platform, members, roles) }

    /** The stored rows follow the outcome; a refusal changed none. */
    predicate Settled(before: Db, failure: Option<Failure>, outcome: Result<Db>) reads this {
      match outcome
      case Ok(next) => failure == None && Value() == next
      case Err(e) => failure == Some(e) && Value() == before
    }

    method UpdateMember(id: Uuid, status: Status, expected: int, cs: seq<Candidate>) returns (failure: Option<Failure>)
      requires IsCandidateList(Value(), cs)
      modifies this`members
      ensures Settled(old(Value()), failure, UpdateMembership(old(Value()), id, status, expected))
    {
      if status.OtherStatus? { return Some(StatusInvalid); }
      if id !in members { return Some(NotFound); }
      var m := members[id];
      if m.version != expected { return Some(VersionConflict); }
      if m.status == Removed { return Some(StatusInvalid); }
      if m.status == Active && status != Active {
        var last := ProtectPlatformAdministrator(Value(), cs, id);
        if last { return Some(LastAdministrator); }
      }
      m := m.(status := status, version := m.version + 1);
      members := members[id := m];
      return None;
    }

    method BindMember(id: Uuid, role: Uuid, expected: int) returns (failure: Option<Failure>)
      modifies this`members
      ensures Settled(old(Value()), failure, BindRole(old(Value()), id, role, expected))
    {
      if id !in members { return Some(NotFound); }
      var m := members[id];
      if m.status != Active { return Some(StatusInvalid); }
      if m.version != expected { return Some(VersionConflict); }
      if role !in roles { return Some(RoleNotFound); }
      if role in m.roles { return Some(BindingConflict); }
      m := m.(roles := m.roles + {role}, version := m.version + 1);
      members := members[id := m];
      return None;
    }

    method UnbindMember(id: Uuid, role: Uuid, expected: int, cs: seq<Candidate>) returns (failure: Option<Failure>)
      requires IsCandidateList(Value(), cs)
      modifies this`members
      ensures Settled(old(Value()), failure, UnbindRole(old(Value()), id, role, expected))
    {
      if id !in members { return Some(NotFound); }
      var m := members[id];
      if m.version != expected { return Some(VersionConflict); }
      if role !in roles { return Some(RoleNotFound); }
      if roles[role].system && roles[role].code == AdminCode {
        var last := ProtectPlatformAdministrator(Value(), cs, id);
        if last { return Some(LastAdministrator); }
      }
      if role !in m.roles { return Some(BindingNotFound); }
      m := m.(roles := m.roles - {role}, version := m.version + 1);
      members := members[id := m];
      return None;
    }
  }
}
