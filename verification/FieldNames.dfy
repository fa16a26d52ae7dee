/**
 Field names of the contracts' JSON objects, one constructor per name (`PacketSha256` for
 `packet_sha256`). The model is generic in how fields are spelled: all it needs, and all that
 `Speller` says, is that no two fields are spelled alike.
 */
module FieldNames {
  import opened Texts

  datatype Field =
    | Action | ActorRef | Adapter | Allow | ApprovalDecision
    | ApprovalDecisionId | ApprovalDecisionRef | ApprovalGateSatisfied | ApprovalRequest | ApprovalRequestId
    | ApprovalRequestRef | ApproverRef | ApproverSessionRef | Arguments | Audience
    | AuthenticatedProvenance | Block | Budget | Capability | CapabilityDecisions
    | ConfigurationDigest | Constraints | ContractVersion | CostMicrousd | CpuMillicores
    | CreatedAt | DecidedAt | Decision | DecisionId | DerivationProfile
    | EvaluatedAt | EventAt | EventType | ExecutableDigest | ExecutionAuthorized
    | ExecutionProposal | ExpiresAt | IdempotencyKey | Identity | Intent
    | Kind | MemoryBytes | ObservedAt | Packet | PacketHash
    | PacketId | PacketRef | PacketSha256 | PacketType | PermissionEnvelope
    | PersistenceRequested | PolicyDecision | PolicyDecisionId | PolicyDecisionRef | PolicyProfileRef
    | PolicyReasonCodes | PolicyRef | PreparedAt | ProjectRef | RawInvalidPayloadContent
    | RawRejectedCommand | RawRejectedValue | ReasonCode | ReasonCodes | Redaction
    | Ref | RequestedAt | RequestedCapabilities | RequesterRef | RequesterSessionRef
    | RequiresApproval | ResourceRef | ResourceRefs | ResultStatus | RetentionClass
    | RiskLevel | RuntimeSeconds | SchemaId | SecretLikeValues | SessionRef
    | SideEffects | SourceEvidenceHash | SourceRefs | Status | Target
    | Tokens | Version

  ghost predicate Injective<T(!new)>(s: T -> Text) { forall f, g :: s(f) == s(g) ==> f == g }

  type Speller = s: Field -> Text | Injective(s) ghost witness (PlacesAreInjective(); Place)

  // ---------------------------------------------------------------- some spelling exists

  const FIELDS0: seq<Field> := [
    Action, ActorRef, Adapter, Allow, ApprovalDecision,
    ApprovalDecisionId, ApprovalDecisionRef, ApprovalGateSatisfied]
  const FIELDS1: seq<Field> := [
    ApprovalRequest, ApprovalRequestId, ApprovalRequestRef, ApproverRef, ApproverSessionRef,
    Arguments, Audience, AuthenticatedProvenance, Block]
  const FIELDS2: seq<Field> := [
    Budget, Capability, CapabilityDecisions, ConfigurationDigest, Constraints,
    ContractVersion, CostMicrousd, CpuMillicores, CreatedAt]
  const FIELDS3: seq<Field> := [
    DecidedAt, Decision, DecisionId, DerivationProfile, EvaluatedAt,
    EventAt, EventType, ExecutableDigest]
  const FIELDS4: seq<Field> := [
    ExecutionAuthorized, ExecutionProposal, ExpiresAt, IdempotencyKey, Identity,
    Intent, Kind, MemoryBytes, ObservedAt]
  const FIELDS5: seq<Field> := [
    Packet, PacketHash, PacketId, PacketRef, PacketSha256,
    PacketType, PermissionEnvelope, PersistenceRequested, PolicyDecision]
  const FIELDS6: seq<Field> := [
    PolicyDecisionId, PolicyDecisionRef, PolicyProfileRef, PolicyReasonCodes, PolicyRef,
    PreparedAt, ProjectRef, RawInvalidPayloadContent]
  const FIELDS7: seq<Field> := [
    RawRejectedCommand, RawRejectedValue, ReasonCode, ReasonCodes, Redaction,
    Ref, RequestedAt, RequestedCapabilities, RequesterRef]
  const FIELDS8: seq<Field> := [
    RequesterSessionRef, RequiresApproval, ResourceRef, ResourceRefs, ResultStatus,
    RetentionClass, RiskLevel, RuntimeSeconds, SchemaId]
  const FIELDS9: seq<Field> := [
    SecretLikeValues, SessionRef, SideEffects, SourceEvidenceHash, SourceRefs,
    Status, Target, Tokens, Version]

  const FIELDS: seq<Field> := FIELDS0 + FIELDS1 + FIELDS2 + FIELDS3 + FIELDS4 + FIELDS5 + FIELDS6 + FIELDS7 + FIELDS8 + FIELDS9

  lemma AllFieldsListed(f: Field)
    ensures f in FIELDS
  {
    match f
    case Action | ActorRef | Adapter | Allow | ApprovalDecision |
         ApprovalDecisionId | ApprovalDecisionRef | ApprovalGateSatisfied => assert f in FIELDS0;
    case ApprovalRequest | ApprovalRequestId | ApprovalRequestRef | ApproverRef | ApproverSessionRef |
         Arguments | Audience | AuthenticatedProvenance | Block => assert f in FIELDS1;
    case Budget | Capability | CapabilityDecisions | ConfigurationDigest | Constraints |
         ContractVersion | CostMicrousd | CpuMillicores | CreatedAt => assert f in FIELDS2;
    case DecidedAt | Decision | DecisionId | DerivationProfile | EvaluatedAt |
         EventAt | EventType | ExecutableDigest => assert f in FIELDS3;
    case ExecutionAuthorized | ExecutionProposal | ExpiresAt | IdempotencyKey | Identity |
         Intent | Kind | MemoryBytes | ObservedAt => assert f in FIELDS4;
    case Packet | PacketHash | PacketId | PacketRef | PacketSha256 |
         PacketType | PermissionEnvelope | PersistenceRequested | PolicyDecision => assert f in FIELDS5;
    case PolicyDecisionId | PolicyDecisionRef | PolicyProfileRef | PolicyReasonCodes | PolicyRef |
         PreparedAt | ProjectRef | RawInvalidPayloadContent => assert f in FIELDS6;
    case RawRejectedCommand | RawRejectedValue | ReasonCode | ReasonCodes | Redaction |
         Ref | RequestedAt | RequestedCapabilities | RequesterRef => assert f in FIELDS7;
    case RequesterSessionRef | RequiresApproval | ResourceRef | ResourceRefs | ResultStatus |
         RetentionClass | RiskLevel | RuntimeSeconds | SchemaId => assert f in FIELDS8;
    case SecretLikeValues | SessionRef | SideEffects | SourceEvidenceHash | SourceRefs |
         Status | Target | Tokens | Version => assert f in FIELDS9;
  }

  /** A field spelled as its place in the list. */
  ghost function Place(f: Field): (t: Text)
    ensures |t| == 1 && t[0] < |FIELDS| && FIELDS[t[0]] == f
  {
    AllFieldsListed(f);
    var i :| 0 <= i < |FIELDS| && FIELDS[i] == f;
    [i]
  }

  lemma PlacesAreInjective()
    ensures Injective(Place)
  {
    forall f, g | Place(f) == Place(g) ensures f == g {
      assert FIELDS[Place(f)[0]] == FIELDS[Place(g)[0]];
    }
  }
}
