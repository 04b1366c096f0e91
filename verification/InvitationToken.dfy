/** Invitation tokens: the two printers, and the parser that accepts nothing else. */
module InvitationToken {
  import opened Ids
  import opened UuidText

  datatype Target = TenantTarget(tenantId: Uuid, invitationId: Uuid) | PlatformTarget(invitationId: Uuid)

  const TenantTag: string := "ani_inv_t"
  const PlatformTag: string := "ani_inv_p"

  predicate SecretChar(c: char) { 'A' <= c <= 'Z' || 'a' <= c <= 'z' || '0' <= c <= '9' || c == '-' || c == '_' }

  predicate LegalSecret(s: string) { 32 <= |s| <= 128 && forall i | 0 <= i < |s| :: SecretChar(s[i]) }

  /** TenantInvitationUsecase.token: any scope that is not nil, any generated invitation id. */
  function TenantToken(tenant: Uuid, invitation: Uuid, secret: string): Option<string> {
    if tenant == NilId || !LegalSecret(secret) then None
    else Some(TenantTag + "." + Print(tenant) + "." + Print(invitation) + "." + secret)
  }

  function PlatformToken(invitation: Uuid, secret: string): Option<string> {
    if !LegalSecret(secret) then None else Some(PlatformTag + "." + Print(invitation) + "." + secret)
  }

  /** invitationAcceptanceOperation. */
  predicate Acceptable(t: Target) {
    && t.invitationId != NilId && IsV7(t.invitationId)
    && (t.TenantTarget? ==> t.tenantId != NilId && IsV7(t.tenantId))
  }

  /** invitationAcceptanceDigest, short of the hash: the text is this target's, with a legal secret. */
  predicate Digests(t: Target, raw: string) {
    var parts := Split(raw, '.');
    match t
    case TenantTarget(tenant, invitation) =>
      |parts| == 4 && parts[0] == TenantTag && parts[1] == Print(tenant) && parts[2] == Print(invitation) && LegalSecret(parts[3])
    case PlatformTarget(invitation) =>
      |parts| == 3 && parts[0] == PlatformTag && parts[1] == Print(invitation) && LegalSecret(parts[2])
  }

  /** The identifiers of the parts, in any spelling the identifier parser reads. */
  function ReadParts(parts: seq<string>): Option<Target> {
    if |parts| == 4 && parts[0] == TenantTag then
      match (Parse(parts[1]), Parse(parts[2]))
      case (Some(tenant), Some(invitation)) => Some(TenantTarget(tenant, invitation))
      case _ => None
    else if |parts| == 3 && parts[0] == PlatformTag then
      match Parse(parts[1]) case Some(invitation) => Some(PlatformTarget(invitation)) case None => None
    else None
  }

  /** invitationTargetFromToken. */
  function TargetFromToken(raw: string): Option<Target> {
    var read := ReadParts(Split(raw, '.'));
    if read.Some? && Acceptable(read.value) && Digests(read.value, raw) then read else None
  }

  function Parts(t: Target, secret: string): (p: seq<string>) ensures |p| >= 3 {
    match t
    case TenantTarget(tenant, invitation) => [TenantTag, Print(tenant), Print(invitation), secret]
    case PlatformTarget(invitation) => [PlatformTag, Print(invitation), secret]
  }

  function Token(t: Target, secret: string): Option<string> {
    match t
    case TenantTarget(tenant, invitation) => TenantToken(tenant, invitation, secret)
    case PlatformTarget(invitation) => PlatformToken(invitation, secret)
  }

  /** The text of a token, and when there is one: a tenant, and a secret of 32 to 128 URL-safe characters. */
  lemma PrintedForm(t: Target, secret: string)
    ensures Token(t, secret).Some? <==>
              && (t.TenantTarget? ==> t.tenantId != NilId) && |secret| >= 32 && |secret| <= 128
              && forall c | c in secret :: 'A' <= c <= 'Z' || 'a' <= c <= 'z' || '0' <= c <= '9' || c in {'-', '_'}
    ensures Token(t, secret).Some? ==>
              Token(t, secret).value ==
                (match t
                 case TenantTarget(tenant, invitation) => "ani_inv_t." + Print(tenant) + "." + Print(invitation) + "." + secret
                 case PlatformTarget(invitation) => "ani_inv_p." + Print(invitation) + "." + secret)
  {
    assert forall i | 0 <= i < |secret| :: secret[i] in secret;
    assert TenantTag + "." == "ani_inv_t." && PlatformTag + "." == "ani_inv_p.";
  }

  /** A target is accepted under version 7 identifiers only. */
  lemma AcceptableIff(t: Target)
    ensures Acceptable(t) <==> t.invitationId.octets[6] / 16 == 7 && (t.TenantTarget? ==> t.tenantId.octets[6] / 16 == 7)
  {
    assert NilId.octets[6] == 0;
  }

  lemma TokenIsJoin(t: Target, secret: string)
    requires Token(t, secret).Some?
    ensures Token(t, secret).value == Join(Parts(t, secret), '.')
  {
    var p := Parts(t, secret);
    assert Join(p[|p| - 1..], '.') == secret;
    assert p[1..][1..] == p[2..];
    assert Join(p[1..], '.') == p[1] + "." + Join(p[2..], '.');
    if t.TenantTarget? {
      assert p[2..][1..] == p[3..];
      assert Join(p[2..], '.') == Print(t.invitationId) + "." + secret;
      assert TenantTag + "." + Print(t.tenantId) + "." + Print(t.invitationId) + "." + secret
          == TenantTag + "." + (Print(t.tenantId) + "." + (Print(t.invitationId) + "." + secret));
    } else {
      assert PlatformTag + "." + Print(t.invitationId) + "." + secret == PlatformTag + "." + (Print(t.invitationId) + "." + secret);
    }
  }

  lemma SplitToken(t: Target, secret: string)
    requires Token(t, secret).Some?
    ensures Split(Token(t, secret).value, '.') == Parts(t, secret)
  {
    ParsePrint(t.invitationId);
    if t.TenantTarget? { ParsePrint(t.tenantId); }
    TokenIsJoin(t, secret);
    assert Free(TenantTag, '.') && Free(PlatformTag, '.') && Free(secret, '.');
    SplitJoin(Parts(t, secret), '.');
  }

  lemma ReadsItsParts(t: Target, secret: string)
    ensures ReadParts(Parts(t, secret)) == Some(t)
  {
    ParsePrint(t.invitationId);
    if t.TenantTarget? {
      ParsePrint(t.tenantId);
    } else {
      assert |PlatformTag| == |TenantTag|;
    }
  }

  lemma DigestsItself(t: Target, secret: string)
    requires Token(t, secret).Some?
    ensures Digests(t, Token(t, secret).value)
  {
    SplitToken(t, secret);
  }

  /** Parsing a printed token returns its target, exactly when the acceptance rules admit that target. */
  lemma PrintedTokenParses(t: Target, secret: string)
    requires Token(t, secret).Some?
    ensures TargetFromToken(Token(t, secret).value) == if Acceptable(t) then Some(t) else None
  {
    SplitToken(t, secret);
    ReadsItsParts(t, secret);
    DigestsItself(t, secret);
  }

  lemma DigestedIsPrinted(t: Target, raw: string) returns (secret: string)
    requires Acceptable(t) && Digests(t, raw)
    ensures LegalSecret(secret) && Token(t, secret) == Some(raw)
  {
    var parts := Split(raw, '.');
    secret := parts[|parts| - 1];
    assert parts == Parts(t, secret);
    JoinSplit(raw, '.');
    TokenIsJoin(t, secret);
  }

  /**
   * Conversely whatever parses is the printed token of the returned target under its own secret, so
   * no other spelling of an identifier and no extra separator is accepted.
   */
  lemma ParsedTokenIsPrinted(raw: string) returns (secret: string)
    requires TargetFromToken(raw).Some?
    ensures Acceptable(TargetFromToken(raw).value) && LegalSecret(secret)
    ensures Token(TargetFromToken(raw).value, secret) == Some(raw)
  {
    secret := DigestedIsPrinted(TargetFromToken(raw).value, raw);
  }

  /** A token identifies its target and its secret. */
  lemma TokenInjective(t: Target, secret: string, u: Target, other: string)
    requires Token(t, secret).Some? && Token(t, secret) == Token(u, other)
    ensures t == u && secret == other
  {
    SplitToken(t, secret);
    SplitToken(u, other);
    if t.TenantTarget? {
      PrintInjective(t.tenantId, u.tenantId);
    }
    PrintInjective(t.invitationId, u.invitationId);
  }

  /** Accepted text and printed text are the same set, for every string. */
  lemma AcceptedIffPrinted(raw: string)
    ensures TargetFromToken(raw).Some? <==> exists t, secret :: Acceptable(t) && Token(t, secret) == Some(raw)
  {
    if TargetFromToken(raw).Some? {
      var secret := ParsedTokenIsPrinted(raw);
    }
    if t, secret :| Acceptable(t) && Token(t, secret) == Some(raw) {
      PrintedTokenParses(t, secret);
    }
  }
}
