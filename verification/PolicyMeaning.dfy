/**
 What the contracts crate's policy function decides, said of the packet and the capability
 tables alone: each capability's own verdict, the list of reasons, the kind of the decision,
 and every other field of the decision.
 */
module PolicyMeaning {
  import opened Texts
  import opened Bytes
  import opened Json
  import opened ContractJson
  import opened Grammar
  import opened Timestamps
  import opened Packet
  import opened ContractPolicy
  import opened Approval
  import opened ApprovalProofs

  /** The packet asks for a capability from this set. */
  ghost predicate Requests(k: Envelope, capabilities: set<Text>) {
    exists i :: 0 <= i < |k.permissionAllow| && k.permissionAllow[i] in capabilities
  }

  /** The packet asks for a capability that no table knows. */
  ghost predicate RequestsUnknown(t: Tables, k: Envelope) {
    exists i :: 0 <= i < |k.permissionAllow| && k.permissionAllow[i] !in t.forbidden + t.approval + t.allowed
  }

  /** The verdict on one capability under a supported profile. */
  predicate Verdict(t: Tables, c: CapabilityDecision) {
    if c.capability in t.forbidden then c.decision == Deny && c.reason == Some(CapabilityForbidden)
    else if c.capability in t.approval then c.decision == ApprovalRequired && c.reason == Some(CapabilityRequiresApproval)
    else if c.capability in t.allowed then c.decision == Allow && c.reason == None
    else c.decision == Deny && c.reason == Some(CapabilityUnknown)
  }

  /** One verdict per requested capability, in the packet's order. */
  ghost predicate Verdicts(t: Tables, k: Envelope, cs: seq<CapabilityDecision>) {
    && |cs| == |k.permissionAllow|
    && forall i :: 0 <= i < |cs| ==>
        && cs[i].capability == k.permissionAllow[i]
        && (k.policyProfileRef == t.profile ==> Verdict(t, cs[i]))
        && (k.policyProfileRef != t.profile ==> cs[i].decision == Deny && cs[i].reason == Some(ProfileUnsupported))
  }

  lemma ClassifiedVerdicts(t: Tables, k: Envelope)
    ensures Verdicts(t, k, ClassifyAll(t, k.permissionAllow, k.policyProfileRef == t.profile))
  {
  }

  function Note(holds: bool, r: Reason): seq<Reason> { if holds then [r] else [] }

  lemma ReasonsFound(t: Tables, k: Envelope, cs: seq<CapabilityDecision>)
    requires Verdicts(t, k, cs)
    ensures var known := k.policyProfileRef == t.profile;
            && (AnyReason(cs, CapabilityForbidden) <==> known && Requests(k, t.forbidden))
            && (AnyReason(cs, CapabilityUnknown) <==> known && RequestsUnknown(t, k))
            && (AnyReason(cs, CapabilityRequiresApproval) <==> known && Requests(k, t.approval - t.forbidden))
  {
    if k.policyProfileRef == t.profile {
      forall i | 0 <= i < |cs|
        ensures cs[i].reason == Some(CapabilityForbidden) <==> k.permissionAllow[i] in t.forbidden
        ensures cs[i].reason == Some(CapabilityUnknown) <==> k.permissionAllow[i] !in t.forbidden + t.approval + t.allowed
        ensures cs[i].reason == Some(CapabilityRequiresApproval) <==> k.permissionAllow[i] in t.approval - t.forbidden
      {
        assert Verdict(t, cs[i]);
      }
    }
  }

  lemma ReasonsAsPushed(asks: bool, risk: nat, supported: bool, cs: seq<CapabilityDecision>)
    ensures Reasons(asks, risk, supported, cs)
         == Note(!supported, ProfileUnsupported) + Note(cs == [], NoCapabilityRequested)
            + Note(AnyReason(cs, CapabilityForbidden), CapabilityForbidden)
            + Note(AnyReason(cs, CapabilityUnknown), CapabilityUnknown)
            + Note(asks, PacketRequiresApproval) + Note(risk >= 5, RiskRequiresApproval)
            + Note(AnyReason(cs, CapabilityRequiresApproval), CapabilityRequiresApproval)
  {
    var r0, r1 := Note(!supported, ProfileUnsupported), Note(cs == [], NoCapabilityRequested);
    assert ReasonsBelow(1, asks, risk, supported, cs) == r0;
    assert ReasonsBelow(2, asks, risk, supported, cs) == r0 + r1;
    var r3 := ReasonsBelow(3, asks, risk, supported, cs);
    assert r3 == r0 + r1 + Note(AnyReason(cs, CapabilityForbidden), CapabilityForbidden);
    var r4 := ReasonsBelow(4, asks, risk, supported, cs);
    assert r4 == r3 + Note(AnyReason(cs, CapabilityUnknown), CapabilityUnknown);
    var r5 := ReasonsBelow(5, asks, risk, supported, cs);
    assert r5 == r4 + Note(asks, PacketRequiresApproval);
    var r6 := ReasonsBelow(6, asks, risk, supported, cs);
    assert r6 == r5 + Note(risk >= 5, RiskRequiresApproval);
  }

  /** The reasons, in order, each exactly when its cause holds of packet and tables. */
  ghost function Causes(t: Tables, k: Envelope): seq<Reason> {
    var known := k.policyProfileRef == t.profile;
    Note(!known, ProfileUnsupported) + Note(k.permissionAllow == [], NoCapabilityRequested)
    + Note(known && Requests(k, t.forbidden), CapabilityForbidden)
    + Note(known && RequestsUnknown(t, k), CapabilityUnknown)
    + Note(k.requiresApproval, PacketRequiresApproval) + Note(k.riskLevel >= 5, RiskRequiresApproval)
    + Note(known && Requests(k, t.approval - t.forbidden), CapabilityRequiresApproval)
  }

  lemma CausesAreReasons(t: Tables, k: Envelope)
    ensures var known := k.policyProfileRef == t.profile;
            Reasons(k.requiresApproval, k.riskLevel, known, ClassifyAll(t, k.permissionAllow, known)) == Causes(t, k)
  {
    var known := k.policyProfileRef == t.profile;
    var cs := ClassifyAll(t, k.permissionAllow, known);
    ClassifiedVerdicts(t, k);
    ReasonsFound(t, k, cs);
    ReasonsAsPushed(k.requiresApproval, k.riskLevel, known, cs);
  }

  /** What is refused outright: a foreign profile, an empty request, a forbidden or unknown capability. */
  ghost predicate Refused(t: Tables, k: Envelope) {
    || k.policyProfileRef != t.profile || k.permissionAllow == []
    || Requests(k, t.forbidden) || RequestsUnknown(t, k)
  }

  lemma KindOfReasons(rs: seq<Reason>, n: nat)
    requires n <= |rs| && (forall i :: 0 <= i < n ==> Rank(rs[i]) < 4) && (forall i :: n <= i < |rs| ==> Rank(rs[i]) >= 4)
    ensures SelectKind(rs) == if n > 0 then Deny else if rs == [] then Allow else ApprovalRequired
  {
    if n > 0 { assert IsDenial(rs[0]); }
  }

  /** The kind these causes lead to. */
  ghost function KindFor(t: Tables, k: Envelope): Kind {
    if Refused(t, k) then Deny
    else if k.requiresApproval || k.riskLevel >= 5 || Requests(k, t.approval) then ApprovalRequired
    else Allow
  }

  lemma DenialNotes(a: bool, b: bool, c: bool, d: bool)
    ensures var rs := Note(a, ProfileUnsupported) + Note(b, NoCapabilityRequested) + Note(c, CapabilityForbidden)
                      + Note(d, CapabilityUnknown);
            (forall i :: 0 <= i < |rs| ==> Rank(rs[i]) < 4) && (rs != [] <==> a || b || c || d)
  {
  }

  lemma AskNotes(e: bool, f: bool, g: bool)
    ensures var rs := Note(e, PacketRequiresApproval) + Note(f, RiskRequiresApproval) + Note(g, CapabilityRequiresApproval);
            (forall i :: 0 <= i < |rs| ==> Rank(rs[i]) >= 4) && (rs != [] <==> e || f || g)
  {
  }

  lemma Regroup(x: seq<Reason>, e: seq<Reason>, f: seq<Reason>, g: seq<Reason>)
    ensures x + e + f + g == x + (e + f + g)
  {
  }

  lemma KindOfCauses(t: Tables, k: Envelope)
    ensures SelectKind(Causes(t, k)) == KindFor(t, k)
  {
    var known := k.policyProfileRef == t.profile;
    var a, b, c, d := !known, k.permissionAllow == [], known && Requests(k, t.forbidden), known && RequestsUnknown(t, k);
    var e, f, g := k.requiresApproval, k.riskLevel >= 5, known && Requests(k, t.approval - t.forbidden);
    var denials := Note(a, ProfileUnsupported) + Note(b, NoCapabilityRequested) + Note(c, CapabilityForbidden)
                   + Note(d, CapabilityUnknown);
    var asks := Note(e, PacketRequiresApproval) + Note(f, RiskRequiresApproval) + Note(g, CapabilityRequiresApproval);
    DenialNotes(a, b, c, d);
    AskNotes(e, f, g);
    Regroup(denials, Note(e, PacketRequiresApproval), Note(f, RiskRequiresApproval), Note(g, CapabilityRequiresApproval));
    KindOfReasons(denials + asks, |denials|);
    if !Requests(k, t.forbidden) { GatedUnlessForbidden(t, k); }
  }

  lemma PolicyOfMeaning(p: Primitives, t: Tables, k: Envelope, hash: Text, at: Text)
    ensures var policy := PolicyOf(p, t, k, hash, at);
            && Verdicts(t, k, policy.capabilities) && policy.reasons == Causes(t, k)
            && policy.decision == KindFor(t, k) && (policy.requiresApproval <==> policy.decision == ApprovalRequired)
  {
    ClassifiedVerdicts(t, k);
    CausesAreReasons(t, k);
    KindOfCauses(t, k);
  }

  /**
   What is decided: one verdict per capability, the reasons whose causes hold, and denial
   exactly for what is refused outright, approval exactly for what is not refused and asks for
   it, is risky or requests a gated capability.
   */
  lemma DecidedMeaning(p: Primitives, t: Tables, k: Envelope, at: Text, policy: Policy)
    requires DecidePacket(p, t, k, at) == Decided(policy)
    ensures Verdicts(t, k, policy.capabilities) && policy.reasons == Causes(t, k)
    ensures policy.decision == KindFor(t, k) && (policy.requiresApproval <==> policy.decision == ApprovalRequired)
  {
    DecidedForm(p, t, k, at);
    PolicyOfMeaning(p, t, k, HashPacket(p, k).value, at);
  }

  lemma GatedUnlessForbidden(t: Tables, k: Envelope)
    requires !Requests(k, t.forbidden)
    ensures Requests(k, t.approval) <==> Requests(k, t.approval - t.forbidden)
  {
  }

  /** A time lies within bounds when it is not before the first and before the last, on the calendar. */
  lemma WithinMeaning(first: Text, at: Text, last: Text)
    ensures Within(first, at, last) <==>
      && Instant(first).Some? && Instant(at).Some? && Instant(last).Some?
      && !Earlier(Timestamps.ReadFields(at), Timestamps.ReadFields(first))
      && Earlier(Timestamps.ReadFields(at), Timestamps.ReadFields(last))
  {
    if Instant(first).Some? && Instant(at).Some? && Instant(last).Some? {
      InstantOrder(at, first);
      InstantOrder(at, last);
    }
  }

  // ---------------------------------------------------------------- the other fields

  /** The text of a digest: a prefix and the hash of the text's bytes in lowercase hexadecimal. */
  predicate IsDigestOf(p: Primitives, id: Text, prefix: Text, text: Text) {
    id == prefix + EncodeHex(p.sha256(Utf8(text)))
  }

  lemma PacketHashOf(p: Primitives, k: Envelope)
    requires ValidPacket(p, k)
    ensures Canonicalizable(p, PacketJson(p, k)) && HashPacket(p, k).Some?
    ensures IsDigestOf(p, HashPacket(p, k).value, SHA256_PREFIX, Print(Normalize(p, PacketJson(p, k))))
  {
    PacketCanonicalizable(p, k);
  }

  lemma PolicyIdOf(p: Primitives, hash: Text, at: Text)
    ensures IsDigestOf(p, PolicyId(p, hash, at), POL, POLICY_SCHEMA + [LF] + hash + [LF] + at)
  {
    var ls := [POLICY_SCHEMA, hash, at];
    assert ls[1..] == [hash, at] && [hash, at][1..] == [at];
    assert Lines([at]) == at && Lines([hash, at]) == hash + [LF] + at;
    assert Lines(ls) == POLICY_SCHEMA + [LF] + hash + [LF] + at;
  }

  /** The fields taken over from the packet. */
  predicate Copied(k: Envelope, at: Text, policy: Policy) {
    && policy.contractVersion == CONTRACT_VERSION && policy.schemaId == POLICY_SCHEMA
    && policy.packetRef.packetId == k.packetId && policy.packetRef.schemaId == k.schemaId
    && policy.packetRef.idempotencyKey == k.idempotencyKey
    && policy.actorRef == k.actorRef && policy.sessionRef == k.sessionRef && policy.projectRef == k.projectRef
    && policy.resourceRefs == k.resourceRefs && policy.profileRef == k.policyProfileRef
    && policy.riskLevel == k.riskLevel && policy.evaluatedAt == at && policy.expiresAt == k.expiresAt
  }

  lemma PolicyOfFields(p: Primitives, t: Tables, k: Envelope, hash: Text, at: Text)
    ensures var policy := PolicyOf(p, t, k, hash, at);
            Copied(k, at, policy) && policy.packetRef.packetHash == hash && policy.decisionId == PolicyId(p, hash, at)
  {
  }

  /** Every field of a decision that is not a verdict, from the packet and the evaluation time. */
  lemma DecidedFields(p: Primitives, t: Tables, k: Envelope, at: Text, policy: Policy)
    requires DecidePacket(p, t, k, at) == Decided(policy)
    ensures Copied(k, at, policy) && Canonicalizable(p, PacketJson(p, k))
    ensures IsDigestOf(p, policy.packetRef.packetHash, SHA256_PREFIX, Print(Normalize(p, PacketJson(p, k))))
    ensures IsDigestOf(p, policy.decisionId, POL, POLICY_SCHEMA + [LF] + policy.packetRef.packetHash + [LF] + at)
  {
    DecidedForm(p, t, k, at);
    var hash := HashPacket(p, k).value;
    PacketHashOf(p, k);
    PolicyOfFields(p, t, k, hash, at);
    PolicyIdOf(p, hash, at);
  }

  lemma HashedWhen(p: Primitives, t: Tables, k: Envelope, hash: Option<Text>, at: Text)
    ensures var r := DecideHashed(p, t, k, hash, at);
            && (r.Decided? <==> hash.Some? && Within(k.createdAt, at, k.expiresAt))
            && (r == Undecided(ContractPolicy.InvalidPacket) <==> hash.None?)
            && (r == Undecided(InvalidEvaluationTime) <==> hash.Some? && Instant(at).None?)
  {
  }

  /** A packet is decided exactly when it is valid and its lifetime holds the evaluation time. */
  lemma DecidedWhen(p: Primitives, t: Tables, k: Envelope, at: Text)
    ensures var r := DecidePacket(p, t, k, at);
            && (r.Decided? <==> ValidPacket(p, k) && Within(k.createdAt, at, k.expiresAt))
            && (r == Undecided(ContractPolicy.InvalidPacket) <==> !ValidPacket(p, k))
            && (r == Undecided(InvalidEvaluationTime) <==> ValidPacket(p, k) && Instant(at).None?)
  {
    HashedWhen(p, t, k, HashPacket(p, k), at);
  }
}
