/**
 The source text of an audit event stands for the whole chain: among verified chains it
 determines every link, and the packet up to how integers in its constraints are written.
 */
module AuditEvidence {
  import opened Texts
  import opened Bytes
  import opened Json
  import opened ContractJson
  import opened Objects
  import opened Packet
  import opened PacketIdentity
  import opened ContractPolicy
  import opened Approval
  import opened ApprovalProofs
  import opened ApprovalIdentity
  import opened AuditJson
  import opened Audit
  import F = FieldNames

  /** The same chain, packets compared up to integer spelling. */
  ghost predicate SameChain(p: Primitives, c: Chain, d: Chain)
    requires Hashable(p, c.packet) && Hashable(p, d.packet)
  {
    && Agree(p, c.packet, d.packet) && c.policy == d.policy
    && (c.PolicyChain? <==> d.PolicyChain?) && (c.DecisionChain? <==> d.DecisionChain?)
    && (!c.PolicyChain? ==> c.request == d.request)
    && (c.DecisionChain? ==> c.decision == d.decision)
  }

  // ---------------------------------------------------------------- reading single fields back

  lemma PolicyTime(d: Policy, packet: Json, resources: Json, capabilities: Json, reasons: Json)
    ensures var x := PolicyRecord(d, packet, resources, capabilities, reasons);
            F.EvaluatedAt in x && x[F.EvaluatedAt] == Str(d.evaluatedAt)
  {
  }

  lemma PolicyJsonTime(p: Primitives, a: Policy, b: Policy)
    requires PolicyJson(p, a) == PolicyJson(p, b)
    ensures a.evaluatedAt == b.evaluatedAt
  {
    var ra, rb := Obj(Object(p.spell, PacketRefRecord(a.packetRef))), Obj(Object(p.spell, PacketRefRecord(b.packetRef)));
    var ca, cb := CapabilitiesJson(p, a.capabilities), CapabilitiesJson(p, b.capabilities);
    var x := PolicyRecord(a, ra, Strings(a.resourceRefs), ca, Strings(ReasonCodes(a.reasons)));
    var y := PolicyRecord(b, rb, Strings(b.resourceRefs), cb, Strings(ReasonCodes(b.reasons)));
    ObjectInjective(p.spell, x, y);
    PolicyTime(a, ra, Strings(a.resourceRefs), ca, Strings(ReasonCodes(a.reasons)));
    PolicyTime(b, rb, Strings(b.resourceRefs), cb, Strings(ReasonCodes(b.reasons)));
  }

  lemma RequestTime(r: Request, parts: Parts)
    ensures F.RequestedAt in FullRequestRecord(r, parts)
    ensures FullRequestRecord(r, parts)[F.RequestedAt] == Str(r.requestedAt)
  {
  }

  lemma RequestJsonTime(p: Primitives, a: Request, b: Request)
    requires FullRequestJson(p, a) == FullRequestJson(p, b)
    ensures a.requestedAt == b.requestedAt
  {
    ObjectInjective(p.spell, FullRequestRecord(a, PartsOf(p, a)), FullRequestRecord(b, PartsOf(p, b)));
    RequestTime(a, PartsOf(p, a));
    RequestTime(b, PartsOf(p, b));
  }

  lemma DecisionFields(d: Decision, request: Json, x: Record)
    requires x == DecisionRecord(d, request)
    ensures F.ApproverRef in x && x[F.ApproverRef] == Str(d.approverRef)
    ensures F.ApproverSessionRef in x && x[F.ApproverSessionRef] == Str(d.sessionRef)
    ensures F.Decision in x && x[F.Decision] == Str(OutcomeWord(d.outcome))
    ensures F.ReasonCode in x && x[F.ReasonCode] == Str(HumanCode(d.reason))
    ensures F.DecidedAt in x && x[F.DecidedAt] == Str(d.decidedAt)
  {
  }

  lemma DecisionJsonInput(p: Primitives, a: Decision, b: Decision)
    requires DecisionJson(p, a) == DecisionJson(p, b)
    ensures InputOf(a) == InputOf(b)
  {
    var ra, rb := Obj(Object(p.spell, RequestRefRecord(a.requestRef))), Obj(Object(p.spell, RequestRefRecord(b.requestRef)));
    var x, y := DecisionRecord(a, ra), DecisionRecord(b, rb);
    ObjectInjective(p.spell, x, y);
    DecisionFields(a, ra, x);
    DecisionFields(b, rb, y);
    WordsInjective(a.outcome, b.outcome);
    HumanCodesInjective(a.reason, b.reason);
  }

  // ---------------------------------------------------------------- rebuilding links

  lemma AgreeingHashes(p: Primitives, a: Envelope, b: Envelope)
    requires ValidPacket(p, a) && ValidPacket(p, b) && Hashable(p, a) && Hashable(p, b) && Agree(p, a, b)
    ensures HashPacket(p, a) == HashPacket(p, b)
  {
    PacketTextBinds(p, a, b);
  }

  lemma AgreeingPolicies(p: Primitives, t: Tables, a: Envelope, b: Envelope, hash: Text, at: Text)
    requires Hashable(p, a) && Hashable(p, b) && Agree(p, a, b)
    ensures PolicyOf(p, t, a, hash, at) == PolicyOf(p, t, b, hash, at)
  {
  }

  /** Agreeing packets evaluated at one time get one decision. */
  lemma SamePolicy(p: Primitives, t: Tables, c: Chain, d: Chain)
    requires VerifyChain(p, t, c) && VerifyChain(p, t, d)
    requires Hashable(p, c.packet) && Hashable(p, d.packet) && Agree(p, c.packet, d.packet)
    requires c.policy.evaluatedAt == d.policy.evaluatedAt
    ensures c.policy == d.policy
  {
    DecidedForm(p, t, c.packet, c.policy.evaluatedAt);
    DecidedForm(p, t, d.packet, d.policy.evaluatedAt);
    AgreeingHashes(p, c.packet, d.packet);
    AgreeingPolicies(p, t, c.packet, d.packet, HashPacket(p, c.packet).value, c.policy.evaluatedAt);
  }

  // ---------------------------------------------------------------- the theorem

  /** Members of two chains with the same source text. */
  lemma TextsGiveMembers(p: Primitives, c: Chain, d: Chain)
    requires Hashable(p, c.packet) && Hashable(p, d.packet) && c.policy.riskLevel <= 8 && d.policy.riskLevel <= 8
    requires Canonicalize(p, SourceJson(p, c)) == Canonicalize(p, SourceJson(p, d))
    ensures AllCanonicalizable(p, ChainRecord(p, c)) && AllCanonicalizable(p, ChainRecord(p, d))
    ensures NormalizeRecord(p, ChainRecord(p, c)) == NormalizeRecord(p, ChainRecord(p, d))
  {
    ChainCanonicalizable(p, c);
    ChainCanonicalizable(p, d);
    CanonicalTextsAgree(p, SourceJson(p, c), SourceJson(p, d));
    NormalizeObject(p.spell, p, ChainRecord(p, c));
    NormalizeObject(p.spell, p, ChainRecord(p, d));
    ObjectInjective(p.spell, NormalizeRecord(p, ChainRecord(p, c)), NormalizeRecord(p, ChainRecord(p, d)));
  }

  lemma MembersGiveTexts(p: Primitives, c: Chain, d: Chain)
    requires AllCanonicalizable(p, ChainRecord(p, c)) && AllCanonicalizable(p, ChainRecord(p, d))
    requires NormalizeRecord(p, ChainRecord(p, c)) == NormalizeRecord(p, ChainRecord(p, d))
    ensures Canonicalize(p, SourceJson(p, c)) == Canonicalize(p, SourceJson(p, d))
  {
    NormalizeObject(p.spell, p, ChainRecord(p, c));
    NormalizeObject(p.spell, p, ChainRecord(p, d));
  }

  lemma SameShape(p: Primitives, c: Chain, d: Chain)
    requires AllCanonicalizable(p, ChainRecord(p, c)) && AllCanonicalizable(p, ChainRecord(p, d))
    requires NormalizeRecord(p, ChainRecord(p, c)) == NormalizeRecord(p, ChainRecord(p, d))
    ensures (c.PolicyChain? <==> d.PolicyChain?) && (c.DecisionChain? <==> d.DecisionChain?)
  {
    ChainMembers(p, c);
    ChainMembers(p, d);
    if F.ApprovalRequest in ChainRecord(p, c) { SameAt(p, ChainRecord(p, c), ChainRecord(p, d), F.ApprovalRequest); }
    if F.ApprovalRequest in ChainRecord(p, d) { SameAt(p, ChainRecord(p, d), ChainRecord(p, c), F.ApprovalRequest); }
    if F.ApprovalDecision in ChainRecord(p, c) { SameAt(p, ChainRecord(p, c), ChainRecord(p, d), F.ApprovalDecision); }
    if F.ApprovalDecision in ChainRecord(p, d) { SameAt(p, ChainRecord(p, d), ChainRecord(p, c), F.ApprovalDecision); }
  }

  lemma SameLinks(p: Primitives, c: Chain, d: Chain)
    requires Hashable(p, c.packet) && Hashable(p, d.packet) && c.policy.riskLevel <= 8 && d.policy.riskLevel <= 8
    requires AllCanonicalizable(p, ChainRecord(p, c)) && AllCanonicalizable(p, ChainRecord(p, d))
    requires NormalizeRecord(p, ChainRecord(p, c)) == NormalizeRecord(p, ChainRecord(p, d))
    requires (c.PolicyChain? <==> d.PolicyChain?) && (c.DecisionChain? <==> d.DecisionChain?)
    ensures Agree(p, c.packet, d.packet) && c.policy.evaluatedAt == d.policy.evaluatedAt
    ensures !c.PolicyChain? ==> c.request.requestedAt == d.request.requestedAt
    ensures c.DecisionChain? ==> InputOf(c.decision) == InputOf(d.decision)
  {
    ChainMembers(p, c);
    ChainMembers(p, d);
    var x, y := ChainRecord(p, c), ChainRecord(p, d);
    SameAt(p, x, y, F.Packet);
    PacketTextBinds(p, c.packet, d.packet);
    PolicyPlain(p, c.policy);
    PolicyPlain(p, d.policy);
    SamePlain(p, x, y, F.PolicyDecision);
    PolicyJsonTime(p, c.policy, d.policy);
    if !c.PolicyChain? {
      FullRequestPlain(p, c.request);
      FullRequestPlain(p, d.request);
      SamePlain(p, x, y, F.ApprovalRequest);
      RequestJsonTime(p, c.request, d.request);
    }
    if c.DecisionChain? {
      DecisionPlain(p, c.decision);
      DecisionPlain(p, d.decision);
      SamePlain(p, x, y, F.ApprovalDecision);
      DecisionJsonInput(p, c.decision, d.decision);
    }
  }

  lemma SameChainNormalizes(p: Primitives, c: Chain, d: Chain)
    requires Hashable(p, c.packet) && Hashable(p, d.packet) && c.policy.riskLevel <= 8
    requires SameChain(p, c, d)
    ensures AllCanonicalizable(p, ChainRecord(p, c)) && AllCanonicalizable(p, ChainRecord(p, d))
    ensures NormalizeRecord(p, ChainRecord(p, c)) == NormalizeRecord(p, ChainRecord(p, d))
  {
    ChainCanonicalizable(p, c);
    ChainCanonicalizable(p, d);
    ChainMembers(p, c);
    PacketTextBinds(p, c.packet, d.packet);
    var x := ChainRecord(p, c);
    SourceSwap(TypeName(c), PacketJson(p, c.packet), PacketJson(p, d.packet), PolicyJson(p, c.policy),
               if c.PolicyChain? then None else Some(FullRequestJson(p, c.request)),
               if c.DecisionChain? then Some(DecisionJson(p, c.decision)) else None);
    assert ChainRecord(p, d) == x[F.Packet := PacketJson(p, d.packet)];
    SwapNormal(p, x, F.Packet, PacketJson(p, d.packet));
  }

  lemma SourceSwap(name: Text, packet: Json, other: Json, policy: Json, request: Option<Json>, decision: Option<Json>)
    ensures SourceRecord(name, other, policy, request, decision)
         == SourceRecord(name, packet, policy, request, decision)[F.Packet := other]
  {
  }

  /** Two verified chains have the same source text exactly when they are the same chain. */
  lemma EvidenceBinds(p: Primitives, t: Tables, c: Chain, d: Chain)
    requires VerifyChain(p, t, c) && VerifyChain(p, t, d)
    ensures Hashable(p, c.packet) && Hashable(p, d.packet)
    ensures Canonicalize(p, SourceJson(p, c)) == Canonicalize(p, SourceJson(p, d)) <==> SameChain(p, c, d)
  {
    VerifiedHashable(p, t, c);
    VerifiedHashable(p, t, d);
    if Canonicalize(p, SourceJson(p, c)) == Canonicalize(p, SourceJson(p, d)) {
      TextsGiveMembers(p, c, d);
      SameShape(p, c, d);
      SameLinks(p, c, d);
      SamePolicy(p, t, c, d);
    }
    if SameChain(p, c, d) {
      SameChainNormalizes(p, c, d);
      MembersGiveTexts(p, c, d);
    }
  }
}
