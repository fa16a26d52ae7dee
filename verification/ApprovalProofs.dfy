/**
 What approval evidence guarantees: which policy decisions become requests, that every request
 passes the checks of the step after it, and that identities bind the content they name.
 */
module ApprovalProofs {
  import opened Texts
  import opened Bytes
  import opened Json
  import opened JsonReader
  import opened ContractJson
  import opened Grammar
  import opened Timestamps
  import opened Objects
  import opened Packet
  import opened ContractPolicy
  import opened Approval
  import F = FieldNames

  // ---------------------------------------------------------------- reasons

  lemma {:induction false} AskReasonsConvert(rs: seq<Reason>)
    requires forall i :: 0 <= i < |rs| ==> !IsDenial(rs[i])
    ensures AskReasons(rs).Some? && |AskReasons(rs).value| == |rs|
    ensures forall i :: 0 <= i < |rs| ==> AskRank(AskReasons(rs).value[i]) == Rank(rs[i]) - 4
  {
    if rs != [] {
      AskReasonsConvert(rs[1..]);
      var tail := AskReasons(rs[1..]).value;
      forall i | 0 <= i < |rs| ensures AskRank(AskReasons(rs).value[i]) == Rank(rs[i]) - 4 {
        if i > 0 { assert AskReasons(rs).value[i] == tail[i - 1] && rs[i] == rs[1..][i - 1]; }
      }
    }
  }

  /** A decision that asks for approval has only approval reasons, and at least one. */
  lemma AskingReasons(t: Tables, policy: Policy)
    requires ReasonsShape(t, policy) && policy.decision == ContractPolicy.ApprovalRequired
    ensures policy.reasons != [] && forall i :: 0 <= i < |policy.reasons| ==> !IsDenial(policy.reasons[i])
    ensures AskReasons(policy.reasons).Some? && AskReasons(policy.reasons).value != []
    ensures AskRanked(AskReasons(policy.reasons).value)
  {
    AskReasonsConvert(policy.reasons);
  }

  // ---------------------------------------------------------------- a request's JSON form

  lemma PolicyRefPlain(p: Primitives, r: PolicyRef)
    ensures Plain(p, Obj(Object(p.spell, PolicyRefRecord(r))))
  {
  }

  ghost predicate PlainParts(p: Primitives, parts: Parts) {
    Plain(p, parts.policy) && Plain(p, parts.resources) && Plain(p, parts.capabilities) && Plain(p, parts.reasons)
  }

  lemma PartsPlain(p: Primitives, r: Request)
    ensures PlainParts(p, PartsOf(p, r))
  {
    PolicyRefPlain(p, r.policyRef);
    StringsPlain(p, r.resourceRefs);
    StringsPlain(p, r.capabilities);
    StringsPlain(p, AskCodes(r.reasons));
  }

  lemma FieldsPlain(p: Primitives, r: Request, parts: Parts)
    requires PlainParts(p, parts)
    ensures PlainRecord(p, RequestRecord(r, parts))
  {
  }

  /** Hashing a request cannot fail, and its canonical text is its own print. */
  lemma RequestHashes(p: Primitives, r: Request)
    ensures Plain(p, RequestJson(p, r)) && RequestIdentity(p, r).Some?
    ensures Canonicalize(p, RequestJson(p, r)) == Some(Print(RequestJson(p, r)))
  {
    PartsPlain(p, r);
    FieldsPlain(p, r, PartsOf(p, r));
    PlainObject(p.spell, p, RequestRecord(r, PartsOf(p, r)));
    PlainText(p, RequestJson(p, r));
  }

  // ---------------------------------------------------------------- creation

  /** What a policy decision must satisfy to become a request at a given time. */
  ghost predicate Creatable(p: Primitives, t: Tables, policy: Policy, at: Text) {
    && PolicyShape(t, policy) && policy.decision == ContractPolicy.ApprovalRequired
    && Within(policy.evaluatedAt, at, policy.expiresAt)
    && policy.decisionId == PolicyId(p, policy.packetRef.packetHash, policy.evaluatedAt)
  }

  /** The request a creatable decision becomes. */
  ghost function Created(p: Primitives, t: Tables, policy: Policy, at: Text): (r: Request)
    requires Creatable(p, t, policy, at)
  {
    AskingReasons(t, policy);
    var draft := DraftRequest(policy, AskReasons(policy.reasons).value, at);
    RequestHashes(p, draft);
    draft.(requestId := RequestIdentity(p, draft).value)
  }

  lemma CreateShapedExactly(p: Primitives, policy: Policy, at: Text, reasons: seq<AskReason>, draft: Request)
    requires policy.decision == ContractPolicy.ApprovalRequired && policy.requiresApproval
    requires AskReasons(policy.reasons) == Some(reasons) && draft == DraftRequest(policy, reasons, at)
    requires RequestIdentity(p, draft).Some?
    ensures CreateShaped(p, policy, at).Ok? <==>
      && Within(policy.evaluatedAt, at, policy.expiresAt)
      && policy.decisionId == PolicyId(p, policy.packetRef.packetHash, policy.evaluatedAt)
    ensures CreateShaped(p, policy, at).Ok? ==>
      CreateShaped(p, policy, at).value == draft.(requestId := RequestIdentity(p, draft).value)
    ensures CreateShaped(p, policy, at) != Err(RequestHashUnavailable)
  {
  }

  /** Exactly the creatable decisions become requests; the late failures in the code are unreachable. */
  lemma CreateExactly(p: Primitives, t: Tables, policy: Policy, at: Text)
    ensures CreateRequest(p, t, policy, at).Ok? <==> Creatable(p, t, policy, at)
    ensures Creatable(p, t, policy, at) ==> CreateRequest(p, t, policy, at) == Ok(Created(p, t, policy, at))
    ensures CreateRequest(p, t, policy, at) != Err(RequestHashUnavailable)
  {
    if PolicyShape(t, policy) && policy.decision == ContractPolicy.ApprovalRequired {
      AskingReasons(t, policy);
      var reasons := AskReasons(policy.reasons).value;
      var draft := DraftRequest(policy, reasons, at);
      RequestHashes(p, draft);
      CreateShapedExactly(p, policy, at, reasons, draft);
    }
  }

  lemma CreatedNames(p: Primitives, t: Tables, policy: Policy, at: Text)
    requires Creatable(p, t, policy, at)
    ensures Created(p, t, policy, at).capabilities == Names(policy.capabilities)
    ensures CapabilitiesShape(t, policy) && ReasonsShape(t, policy)
  {
  }

  lemma DraftShape(t: Tables, policy: Policy, reasons: seq<AskReason>, at: Text, id: Text)
    requires PolicyShape(t, policy) && reasons != [] && AskRanked(reasons) && PrefixedDigest(id, APR)
    requires Within(policy.evaluatedAt, at, policy.expiresAt)
    ensures RequestShape(DraftRequest(policy, reasons, at).(requestId := id))
  {
  }

  /** The identity is a digest of everything but itself. */
  lemma IdentityIgnoresItself(p: Primitives, r: Request, id: Text)
    ensures RequestIdentity(p, r.(requestId := id)) == RequestIdentity(p, r)
  {
  }

  /** Every created request passes the shape and identity checks of the deciding step. */
  lemma CreatedPassesDecide(p: Primitives, t: Tables, policy: Policy, at: Text, r: Request)
    requires CreateRequest(p, t, policy, at) == Ok(r)
    ensures RequestShape(r) && RequestIdentity(p, r) == Some(r.requestId)
  {
    CreateExactly(p, t, policy, at);
    AskingReasons(t, policy);
    var reasons := AskReasons(policy.reasons).value;
    var draft := DraftRequest(policy, reasons, at);
    RequestHashes(p, draft);
    var id := RequestIdentity(p, draft).value;
    DraftShape(t, policy, reasons, at, id);
    IdentityIgnoresItself(p, draft, id);
  }

  /** Whoever decides, the only rejections left are about the human's input, the time, or self-approval. */
  lemma CreatedIsDecidable(p: Primitives, t: Tables, policy: Policy, at: Text, r: Request, i: HumanInput)
    requires CreateRequest(p, t, policy, at) == Ok(r)
    ensures DecideRequest(p, r, i).Ok? <==>
      HumanInputShape(i) && Within(r.requestedAt, i.decidedAt, r.expiresAt) && i.approverRef != r.requesterRef
  {
    CreatedPassesDecide(p, t, policy, at, r);
    DecideExactly(p, r, i);
  }

  lemma DecideExactly(p: Primitives, r: Request, i: HumanInput)
    ensures DecideRequest(p, r, i).Ok? <==>
      && RequestShape(r) && RequestIdentity(p, r) == Some(r.requestId)
      && HumanInputShape(i) && Within(r.requestedAt, i.decidedAt, r.expiresAt) && i.approverRef != r.requesterRef
    ensures DecideRequest(p, r, i).Ok? ==> DecideRequest(p, r, i).value == DecisionOf(p, r, i)
  {
  }

  ghost predicate Granted(t: Tables, names: seq<Text>) {
    names != [] && forall i :: 0 <= i < |names| ==> names[i] in t.allowed + t.approval && names[i] !in t.forbidden
  }

  /** A request names at least one capability, each from the allowed or the approval list, under the supported profile. */
  lemma CreatedCapabilities(p: Primitives, t: Tables, policy: Policy, at: Text, r: Request)
    requires CreateRequest(p, t, policy, at) == Ok(r)
    ensures policy.profileRef == t.profile && Granted(t, r.capabilities)
  {
    CreateExactly(p, t, policy, at);
    CreatedNames(p, t, policy, at);
    GrantedCapabilities(t, policy);
  }

  lemma NotAmong(rs: seq<Reason>, r: Reason)
    requires (forall i :: 0 <= i < |rs| ==> !IsDenial(rs[i])) && IsDenial(r)
    ensures r !in rs
  {
  }

  lemma GrantedCapabilities(t: Tables, policy: Policy)
    requires CapabilitiesShape(t, policy) && ReasonsShape(t, policy) && policy.decision == ContractPolicy.ApprovalRequired
    ensures policy.profileRef == t.profile && Granted(t, Names(policy.capabilities))
  {
    AskingReasons(t, policy);
    NotAmong(policy.reasons, ProfileUnsupported);
    NotAmong(policy.reasons, NoCapabilityRequested);
    NotAmong(policy.reasons, CapabilityForbidden);
    NotAmong(policy.reasons, CapabilityUnknown);
    forall i | 0 <= i < |policy.capabilities|
      ensures policy.capabilities[i].capability in t.allowed + t.approval
           && policy.capabilities[i].capability !in t.forbidden
    {
      var c := policy.capabilities[i];
      assert c.reason != Some(CapabilityForbidden) && c.reason != Some(CapabilityUnknown);
    }
  }

  // ---------------------------------------------------------------- the policy function feeds creation

  lemma DecidedCapabilities(p: Primitives, t: Tables, k: Envelope, hash: Text, at: Text)
    requires SortedCapabilities(k.permissionAllow)
    ensures CapabilitiesShape(t, PolicyOf(p, t, k, hash, at))
  {
    var policy := PolicyOf(p, t, k, hash, at);
    assert Names(policy.capabilities) == k.permissionAllow;
  }

  lemma DecidedReasons(p: Primitives, t: Tables, k: Envelope, hash: Text, at: Text)
    ensures ReasonsShape(t, PolicyOf(p, t, k, hash, at))
  {
    var supported := k.policyProfileRef == t.profile;
    var cs := ClassifyAll(t, k.permissionAllow, supported);
    ReasonsMeaning(k.requiresApproval, k.riskLevel, supported, cs);
    forall r: Reason | r != PacketRequiresApproval
      ensures Applies(r, k.requiresApproval, k.riskLevel, supported, cs) <==> Applies(r, false, k.riskLevel, supported, cs)
    {
    }
  }

  lemma DecidedHeader(p: Primitives, t: Tables, k: Envelope, hash: Text, at: Text)
    requires ValidPacket(p, k) && PrefixedDigest(hash, SHA256_PREFIX)
    ensures PolicyHeader(PolicyOf(p, t, k, hash, at))
    ensures SortedReferences(k.resourceRefs) <==> AdjacentAscending(k.resourceRefs)
  {
  }

  /** A decided policy is the one built from its packet's hash, evaluated inside the packet's lifetime. */
  lemma DecidedForm(p: Primitives, t: Tables, k: Envelope, at: Text)
    requires DecidePacket(p, t, k, at).Decided?
    ensures ValidPacket(p, k) && HashPacket(p, k).Some?
    ensures DecidePacket(p, t, k, at).policy == PolicyOf(p, t, k, HashPacket(p, k).value, at)
    ensures TimeOrdered(at, k.expiresAt)
  {
    HashedForm(p, t, k, HashPacket(p, k), at);
  }

  lemma HashedForm(p: Primitives, t: Tables, k: Envelope, hash: Option<Text>, at: Text)
    requires DecideHashed(p, t, k, hash, at).Decided?
    ensures hash.Some? && DecideHashed(p, t, k, hash, at).policy == PolicyOf(p, t, k, hash.value, at)
    ensures TimeOrdered(at, k.expiresAt)
  {
  }

  /**
   A packet's references only have to be distinct, a request's have to be sorted: the policy
   decision of a packet has the shape approval insists on exactly when the packet happens to
   list its resources in ascending order.
   */
  lemma DecidedPolicyShape(p: Primitives, t: Tables, k: Envelope, at: Text)
    requires DecidePacket(p, t, k, at).Decided?
    ensures PolicyShape(t, DecidePacket(p, t, k, at).policy) <==> AdjacentAscending(k.resourceRefs)
  {
    DecidedForm(p, t, k, at);
    var hash := HashPacket(p, k).value;
    DecidedHeader(p, t, k, hash, at);
    DecidedCapabilities(p, t, k, hash, at);
    DecidedReasons(p, t, k, hash, at);
  }

  /** When the policy decision of a packet can be turned into a request at a given time. */
  lemma ForwardRequest(p: Primitives, t: Tables, k: Envelope, policy: Policy, evaluatedAt: Text, requestedAt: Text)
    requires DecidePacket(p, t, k, evaluatedAt) == Decided(policy)
    ensures CreateRequest(p, t, policy, requestedAt).Ok? <==>
      && AdjacentAscending(k.resourceRefs) && policy.decision == ContractPolicy.ApprovalRequired
      && Within(evaluatedAt, requestedAt, k.expiresAt)
  {
    DecidedForm(p, t, k, evaluatedAt);
    DecidedPolicyShape(p, t, k, evaluatedAt);
    CreateExactly(p, t, policy, requestedAt);
  }
}
