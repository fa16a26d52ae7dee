/**
 Identities bind content: the text hashed into a request's or a decision's identity determines
 everything the identity stands for. Nothing is assumed of the hash.
 */
module ApprovalIdentity {
  import opened Texts
  import opened Bytes
  import opened Json
  import opened JsonReader
  import opened ContractJson
  import opened Grammar
  import opened Timestamps
  import opened Objects
  import opened Packet
  import opened ContractPolicy
  import opened Approval
  import opened ApprovalProofs
  import F = FieldNames

  // ---------------------------------------------------------------- requests

  lemma AskCodesInjective(a: seq<AskReason>, b: seq<AskReason>)
    requires AskCodes(a) == AskCodes(b)
    ensures a == b
  {
  }

  lemma PolicyRefInjective(p: Primitives, a: PolicyRef, b: PolicyRef)
    requires Object(p.spell, PolicyRefRecord(a)) == Object(p.spell, PolicyRefRecord(b))
    ensures a == b
  {
    var x, y := PolicyRefRecord(a), PolicyRefRecord(b);
    ObjectInjective(p.spell, x, y);
    assert x[F.SchemaId] == Str(a.schemaId) && y[F.SchemaId] == Str(b.schemaId);
    assert x[F.DecisionId] == Str(a.decisionId) && y[F.DecisionId] == Str(b.decisionId);
    assert x[F.PacketHash] == Str(a.packetHash) && y[F.PacketHash] == Str(b.packetHash);
  }

  lemma PartsInjective(p: Primitives, a: Request, b: Request)
    requires PartsOf(p, a) == PartsOf(p, b)
    ensures a.policyRef == b.policyRef && a.resourceRefs == b.resourceRefs
    ensures a.capabilities == b.capabilities && a.reasons == b.reasons
  {
    PolicyRefInjective(p, a.policyRef, b.policyRef);
    StringsInjective(a.resourceRefs, b.resourceRefs);
    StringsInjective(a.capabilities, b.capabilities);
    StringsInjective(AskCodes(a.reasons), AskCodes(b.reasons));
    AskCodesInjective(a.reasons, b.reasons);
  }

  lemma RecordHeader(r: Request, parts: Parts, x: Record)
    requires x == RequestRecord(r, parts)
    ensures F.ContractVersion in x && x[F.ContractVersion] == Str(r.contractVersion)
    ensures F.SchemaId in x && x[F.SchemaId] == Str(r.schemaId)
    ensures F.Status in x && x[F.Status] == Str(r.status)
    ensures F.RequesterRef in x && x[F.RequesterRef] == Str(r.requesterRef)
  {
  }

  lemma RecordScope(r: Request, parts: Parts, x: Record)
    requires x == RequestRecord(r, parts)
    ensures F.SessionRef in x && x[F.SessionRef] == Str(r.sessionRef)
    ensures F.ProjectRef in x && x[F.ProjectRef] == Str(r.projectRef)
    ensures F.RequestedAt in x && x[F.RequestedAt] == Str(r.requestedAt)
    ensures F.ExpiresAt in x && x[F.ExpiresAt] == Str(r.expiresAt)
  {
  }

  lemma RecordParts(r: Request, parts: Parts, x: Record)
    requires x == RequestRecord(r, parts)
    ensures F.PolicyDecisionRef in x && x[F.PolicyDecisionRef] == parts.policy
    ensures F.ResourceRefs in x && x[F.ResourceRefs] == parts.resources
    ensures F.RequestedCapabilities in x && x[F.RequestedCapabilities] == parts.capabilities
    ensures F.PolicyReasonCodes in x && x[F.PolicyReasonCodes] == parts.reasons
  {
  }

  lemma RecordInjective(a: Request, pa: Parts, b: Request, pb: Parts)
    requires RequestRecord(a, pa) == RequestRecord(b, pb)
    ensures pa == pb
    ensures a.contractVersion == b.contractVersion && a.schemaId == b.schemaId && a.status == b.status
    ensures a.requesterRef == b.requesterRef && a.sessionRef == b.sessionRef && a.projectRef == b.projectRef
    ensures a.requestedAt == b.requestedAt && a.expiresAt == b.expiresAt
  {
    var x := RequestRecord(a, pa);
    RecordHeader(a, pa, x);
    RecordHeader(b, pb, x);
    RecordScope(a, pa, x);
    RecordScope(b, pb, x);
    RecordParts(a, pa, x);
    RecordParts(b, pb, x);
  }

  lemma RequestJsonInjective(p: Primitives, a: Request, b: Request)
    requires RequestJson(p, a) == RequestJson(p, b)
    ensures a.(requestId := []) == b.(requestId := [])
  {
    var pa, pb := PartsOf(p, a), PartsOf(p, b);
    ObjectInjective(p.spell, RequestRecord(a, pa), RequestRecord(b, pb));
    RecordInjective(a, pa, b, pb);
    PartsInjective(p, a, b);
  }

  /** Two requests have the same text to hash exactly when they agree on everything but the identity. */
  lemma RequestTextBinds(p: Primitives, a: Request, b: Request)
    ensures Canonicalize(p, RequestJson(p, a)) == Canonicalize(p, RequestJson(p, b)) <==>
      a.(requestId := []) == b.(requestId := [])
  {
    RequestHashes(p, a);
    RequestHashes(p, b);
    if Canonicalize(p, RequestJson(p, a)) == Canonicalize(p, RequestJson(p, b)) {
      NoFloatsWellFormed(RequestJson(p, a));
      NoFloatsWellFormed(RequestJson(p, b));
      PrintInjective(RequestJson(p, a), RequestJson(p, b));
      RequestJsonInjective(p, a, b);
    }
    if a.(requestId := []) == b.(requestId := []) {
      SameContent(p, a, b);
    }
  }

  lemma SameContent(p: Primitives, a: Request, b: Request)
    requires a.(requestId := []) == b.(requestId := [])
    ensures RequestJson(p, a) == RequestJson(p, b)
  {
  }

  /**
   The lists in a request are canonical forms of sets: well-formed requests whose lists have
   the same members, and which agree otherwise, have the same text to hash.
   */
  lemma ListsAreSets(p: Primitives, a: Request, b: Request)
    requires RequestShape(a) && RequestShape(b)
    requires Members(a.resourceRefs) == Members(b.resourceRefs) && Members(a.capabilities) == Members(b.capabilities)
    requires a.(resourceRefs := [], capabilities := [], requestId := [])
          == b.(resourceRefs := [], capabilities := [], requestId := [])
    ensures Canonicalize(p, RequestJson(p, a)) == Canonicalize(p, RequestJson(p, b))
  {
    AdjacentIsGlobal(a.resourceRefs);
    AdjacentIsGlobal(b.resourceRefs);
    AdjacentIsGlobal(a.capabilities);
    AdjacentIsGlobal(b.capabilities);
    AscendingIsCanonical(a.resourceRefs, b.resourceRefs);
    AscendingIsCanonical(a.capabilities, b.capabilities);
    SameContent(p, a, b);
  }

  // ---------------------------------------------------------------- decisions

  lemma WordsInjective(a: Outcome, b: Outcome)
    ensures OutcomeWord(a) == OutcomeWord(b) ==> a == b
    ensures LF !in OutcomeWord(a)
  {
  }

  lemma HumanCodesInjective(a: HumanReason, b: HumanReason)
    ensures HumanCode(a) == HumanCode(b) ==> a == b
  {
  }

  lemma DecisionCodesOneLine()
    ensures LF !in HumanCode(OperatorApproved) && LF !in HumanCode(OperatorDenied)
  {
  }

  lemma RejectionCodesOneLine()
    ensures LF !in HumanCode(ScopeRejected) && LF !in HumanCode(EvidenceInsufficient)
  {
  }

  lemma SupersededOneLine()
    ensures LF !in HumanCode(RequestSuperseded)
  {
  }

  lemma HumanCodeOneLine(a: HumanReason)
    ensures LF !in HumanCode(a)
  {
    DecisionCodesOneLine();
    RejectionCodesOneLine();
    SupersededOneLine();
  }

  lemma ReferenceOneLine(t: Text)
    requires Reference(t)
    ensures LF !in t
  {
  }

  lemma InstantOneLine(t: Text)
    requires Instant(t).Some?
    ensures LF !in t
  {
  }

  lemma SchemaOneLine()
    ensures LF !in APPROVAL_DECISION_SCHEMA
  {
  }

  lemma RequestIdOneLine(id: Text)
    requires PrefixedDigest(id, APR)
    ensures LF !in id
  {
  }

  lemma InputOneLine(requestId: Text, i: HumanInput)
    requires PrefixedDigest(requestId, APR) && HumanInputShape(i) && Instant(i.decidedAt).Some?
    ensures var ls := DecisionLines(requestId, i); forall n :: 0 <= n < |ls| ==> LF !in ls[n]
  {
    SchemaOneLine();
    RequestIdOneLine(requestId);
    WordsInjective(i.outcome, i.outcome);
    InstantOneLine(i.decidedAt);
    ReferenceOneLine(i.approverRef);
    ReferenceOneLine(i.sessionRef);
    HumanCodeOneLine(i.reason);
  }

  lemma LinesDetermineInput(a: Text, i: HumanInput, b: Text, j: HumanInput)
    requires DecisionLines(a, i) == DecisionLines(b, j)
    ensures a == b && i == j
  {
  }

  /** The text hashed into a decision's identity determines the request and the whole human input. */
  lemma DecisionTextBinds(a: Text, i: HumanInput, b: Text, j: HumanInput)
    requires PrefixedDigest(a, APR) && HumanInputShape(i) && Instant(i.decidedAt).Some?
    requires PrefixedDigest(b, APR) && HumanInputShape(j) && Instant(j.decidedAt).Some?
    ensures Lines(DecisionLines(a, i)) == Lines(DecisionLines(b, j)) <==> a == b && i == j
  {
    InputOneLine(a, i);
    InputOneLine(b, j);
    LinesInjective(DecisionLines(a, i), DecisionLines(b, j));
    if DecisionLines(a, i) == DecisionLines(b, j) { LinesDetermineInput(a, i, b, j); }
  }

  lemma DigestOneLine(t: Text)
    requires PrefixedDigest(t, SHA256_PREFIX)
    ensures LF !in t
  {
  }

  /** The text hashed into a policy decision's identity determines packet hash and evaluation time. */
  lemma PolicyTextBinds(hash: Text, at: Text, other: Text, late: Text)
    requires PrefixedDigest(hash, SHA256_PREFIX) && Instant(at).Some?
    requires PrefixedDigest(other, SHA256_PREFIX) && Instant(late).Some?
    ensures Lines([POLICY_SCHEMA, hash, at]) == Lines([POLICY_SCHEMA, other, late]) <==> hash == other && at == late
  {
    DigestOneLine(hash);
    DigestOneLine(other);
    InstantOneLine(at);
    InstantOneLine(late);
    assert LF !in POLICY_SCHEMA by {
      assert forall i :: 0 <= i < |POLICY_SCHEMA| ==> POLICY_SCHEMA[i] != LF;
    }
    var a, b := [POLICY_SCHEMA, hash, at], [POLICY_SCHEMA, other, late];
    LinesInjective(a, b);
    assert a == b <==> a[1] == b[1] && a[2] == b[2];
  }
}
