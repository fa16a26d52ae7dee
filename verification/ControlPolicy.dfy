/**
 The policy function of the local control plane (`packages/policy`): which reasons a packet
 draws, which decision follows from them, and the identity the decision carries. The
 approval service accepts a list of reason codes only in a fixed shape; the theorem says
 which decisions have that shape.
 */
module ControlPolicy {
  import opened Texts
  import opened Json

  datatype Packet = Packet(
    packetId: Text, packetType: Text, actorId: Text, sessionId: Text, resourceRefs: seq<Text>,
    allow: seq<Text>, block: seq<Text>, riskLevel: nat, requiresApproval: bool, synthetic: bool, rest: Json)

  datatype Kind = Allow | Deny | ApprovalRequired

  datatype Decision = Decision(
    decisionId: Text, packetId: Text, actorId: Text, sessionId: Text, resourceRefs: seq<Text>,
    capability: Text, riskLevel: nat, kind: Kind, requiresApproval: bool, reasonCodes: seq<Text>,
    createdAt: int)

  const FORBIDDEN: set<Text> := {
    Ascii("secret.read.never"), Ascii("ssh"), Ascii("root"), Ascii("database.write"),
    Ascii("database.prod.write"), Ascii("billing.write"), Ascii("security.write"), Ascii("destructive.execute")}

  const APPROVAL_GATED: set<Text> := {
    Ascii("service.restart.request"), Ascii("runbook.execute.approved"), Ascii("secret.use.brokered"),
    Ascii("deploy.request"), Ascii("deploy.execute.approved"), Ascii("database.migration.approved")}

  const BLOCKED: Text := Ascii("policy.capability_blocked")
  const FORBIDDEN_REASON: Text := Ascii("policy.capability_forbidden")
  const PACKET_APPROVAL: Text := Ascii("policy.packet_requires_approval")
  const RISK_APPROVAL: Text := Ascii("policy.risk_requires_approval")
  const CAPABILITY_APPROVAL: Text := Ascii("policy.capability_requires_approval")

  predicate Touches(requested: seq<Text>, capabilities: set<Text>) {
    exists i :: 0 <= i < |requested| && requested[i] in capabilities
  }

  function Optional(b: bool, reason: Text): seq<Text> { if b then [reason] else [] }

  function DenyReasons(blocked: bool, forbidden: bool): seq<Text> {
    Optional(blocked, BLOCKED) + Optional(forbidden, FORBIDDEN_REASON)
  }

  function ReviewReasons(packet: bool, risk: bool, capability: bool): seq<Text> {
    Optional(packet, PACKET_APPROVAL) + Optional(risk, RISK_APPROVAL) + Optional(capability, CAPABILITY_APPROVAL)
  }

  ghost function Reasons(p: Packet): seq<Text> {
    var blocked := Touches(p.allow, Members(p.block));
    var forbidden := Touches(p.allow, FORBIDDEN);
    if blocked || forbidden then DenyReasons(blocked, forbidden)
    else ReviewReasons(p.requiresApproval, p.riskLevel >= 5, Touches(p.allow, APPROVAL_GATED))
  }

  function SelectKind(reasons: seq<Text>): Kind {
    if BLOCKED in reasons || FORBIDDEN_REASON in reasons then Deny
    else if reasons != [] then ApprovalRequired
    else Allow
  }

  /** `pol_` and the packet id without its own prefix. */
  function DecisionId(packetId: Text): Text {
    var prefix := Ascii("pkt_");
    Ascii("pol_") + (if prefix <= packetId then packetId[|prefix|..] else packetId)
  }

  /** `decideUniversalPacketPolicy`; the reason list never repeats, so nothing is left to dedupe. */
  ghost function Decide(p: Packet, now: int): (d: Decision)
    ensures d.packetId == p.packetId && d.createdAt == now
    ensures d.requiresApproval <==> d.kind == ApprovalRequired
  {
    var reasons := Reasons(p);
    var kind := SelectKind(reasons);
    Decision(DecisionId(p.packetId), p.packetId, p.actorId, p.sessionId, p.resourceRefs,
             if p.allow == [] then Ascii("none") else p.allow[0], p.riskLevel, kind,
             kind == ApprovalRequired, reasons, now)
  }

  // ---------------------------------------------------------------- the shape of reason codes

  predicate IsCodeUnit(u: Unit) { IsLower(u) || IsDigit(u) }

  predicate IsCodeSeparator(u: Unit) { u in {0x2E, 0x5F, 0x2D} }

  /** A letter, then letters and digits with single separators between them. */
  predicate ReasonCode(t: Text) {
    && t != [] && |t| <= 96 && IsLower(t[0])
    && (forall i :: 0 <= i < |t| ==> IsCodeUnit(t[i]) || IsCodeSeparator(t[i]))
    && (forall i :: 0 <= i < |t| && IsCodeSeparator(t[i]) ==> i + 1 < |t| && IsCodeUnit(t[i + 1]))
  }

  /** `isReasonCodes`: between 1 and 16 codes, none twice. */
  predicate IsReasonCodes(codes: seq<Text>) {
    && 1 <= |codes| <= 16
    && (forall i :: 0 <= i < |codes| ==> ReasonCode(codes[i]))
    && Distinct(codes)
  }

  /** Enough to look at where the separators are. */
  lemma CodeFromSeparators(t: Text, separators: set<nat>)
    requires t != [] && |t| <= 96 && IsLower(t[0])
    requires forall i :: 0 <= i < |t| && i !in separators ==> IsCodeUnit(t[i])
    requires forall i :: i in separators ==> i + 1 < |t| && IsCodeSeparator(t[i]) && i + 1 !in separators
    ensures ReasonCode(t)
  {
  }

  lemma BlockedCode()
    ensures ReasonCode(BLOCKED)
  {
    var t := BLOCKED;
    assert forall i :: 0 <= i < |t| && i !in {6, 17} ==> IsCodeUnit(t[i]);
    CodeFromSeparators(t, {6, 17});
  }

  lemma ForbiddenCode()
    ensures ReasonCode(FORBIDDEN_REASON)
  {
    var t := FORBIDDEN_REASON;
    assert forall i :: 0 <= i < |t| && i !in {6, 17} ==> IsCodeUnit(t[i]);
    CodeFromSeparators(t, {6, 17});
  }

  lemma PacketApprovalCode()
    ensures ReasonCode(PACKET_APPROVAL)
  {
    var t := PACKET_APPROVAL;
    assert forall i :: 0 <= i < |t| && i !in {6, 13, 22} ==> IsCodeUnit(t[i]);
    CodeFromSeparators(t, {6, 13, 22});
  }

  lemma RiskApprovalCode()
    ensures ReasonCode(RISK_APPROVAL)
  {
    var t := RISK_APPROVAL;
    assert forall i :: 0 <= i < |t| && i !in {6, 11, 20} ==> IsCodeUnit(t[i]);
    CodeFromSeparators(t, {6, 11, 20});
  }

  lemma CapabilityApprovalCode()
    ensures ReasonCode(CAPABILITY_APPROVAL)
  {
    var t := CAPABILITY_APPROVAL;
    assert forall i :: 0 <= i < |t| && i !in {6, 17, 26} ==> IsCodeUnit(t[i]);
    CodeFromSeparators(t, {6, 17, 26});
  }

  lemma CodesDiffer()
    ensures Distinct([BLOCKED, FORBIDDEN_REASON])
    ensures Distinct([PACKET_APPROVAL, RISK_APPROVAL, CAPABILITY_APPROVAL])
    ensures {BLOCKED, FORBIDDEN_REASON} !! {PACKET_APPROVAL, RISK_APPROVAL, CAPABILITY_APPROVAL}
  {
  }

  lemma DenyShape(blocked: bool, forbidden: bool)
    requires blocked || forbidden
    ensures IsReasonCodes(DenyReasons(blocked, forbidden))
    ensures SelectKind(DenyReasons(blocked, forbidden)) == Deny
  {
    BlockedCode();
    ForbiddenCode();
    CodesDiffer();
  }

  lemma ReviewShape(packet: bool, risk: bool, capability: bool)
    ensures packet || risk || capability ==> IsReasonCodes(ReviewReasons(packet, risk, capability))
    ensures SelectKind(ReviewReasons(packet, risk, capability))
         == if packet || risk || capability then ApprovalRequired else Allow
    ensures !packet && !risk && !capability ==> ReviewReasons(packet, risk, capability) == []
  {
    PacketApprovalCode();
    RiskApprovalCode();
    CapabilityApprovalCode();
    CodesDiffer();
  }

  /**
   A packet is denied exactly when it asks for a blocked or forbidden capability, needs
   approval exactly when it is not denied and asks, is risky or touches a gated capability,
   and its reason codes have the shape the approval service reads exactly when it is not
   allowed outright.
   */
  lemma DecideMeaning(p: Packet, now: int)
    ensures var d := Decide(p, now);
            var refused := Touches(p.allow, Members(p.block)) || Touches(p.allow, FORBIDDEN);
            var gated := p.requiresApproval || p.riskLevel >= 5 || Touches(p.allow, APPROVAL_GATED);
            && d.kind == (if refused then Deny else if gated then ApprovalRequired else Allow)
            && (IsReasonCodes(d.reasonCodes) <==> d.kind != Allow)
  {
    var blocked := Touches(p.allow, Members(p.block));
    var forbidden := Touches(p.allow, FORBIDDEN);
    if blocked || forbidden {
      DenyShape(blocked, forbidden);
    } else {
      ReviewShape(p.requiresApproval, p.riskLevel >= 5, Touches(p.allow, APPROVAL_GATED));
    }
  }

  // ---------------------------------------------------------------- which codes

  predicate Asked(p: Packet, capability: Text) { capability in p.allow }

  /** What each code says about the packet; the last three are only looked at when nothing is refused. */
  ghost predicate Cause(p: Packet, n: nat) {
    var refused := exists c :: Asked(p, c) && (c in p.block || c in FORBIDDEN);
    match n
    case 0 => exists c :: Asked(p, c) && c in p.block
    case 1 => exists c :: Asked(p, c) && c in FORBIDDEN
    case 2 => !refused && p.requiresApproval
    case 3 => !refused && p.riskLevel >= 5
    case 4 => !refused && exists c :: Asked(p, c) && c in APPROVAL_GATED
    case _ => false
  }

  lemma TouchesMeaning(p: Packet, capabilities: set<Text>)
    ensures Touches(p.allow, capabilities) <==> exists c :: Asked(p, c) && c in capabilities
  {
    if i :| 0 <= i < |p.allow| && p.allow[i] in capabilities { assert Asked(p, p.allow[i]); }
    if c :| Asked(p, c) && c in capabilities { var i :| 0 <= i < |p.allow| && p.allow[i] == c; }
  }

  lemma CausesMeaning(p: Packet)
    ensures Touches(p.allow, Members(p.block)) <==> Cause(p, 0)
    ensures Touches(p.allow, FORBIDDEN) <==> Cause(p, 1)
    ensures (Cause(p, 0) || Cause(p, 1)) <==> exists c :: Asked(p, c) && (c in p.block || c in FORBIDDEN)
    ensures !Cause(p, 0) && !Cause(p, 1) ==>
      && (Cause(p, 2) <==> p.requiresApproval) && (Cause(p, 3) <==> p.riskLevel >= 5)
      && (Cause(p, 4) <==> Touches(p.allow, APPROVAL_GATED))
    ensures Cause(p, 0) || Cause(p, 1) ==> !Cause(p, 2) && !Cause(p, 3) && !Cause(p, 4)
  {
    TouchesMeaning(p, Members(p.block));
    TouchesMeaning(p, FORBIDDEN);
    TouchesMeaning(p, APPROVAL_GATED);
  }

  /** The reason codes of a decision are exactly those whose cause holds, in this order. */
  lemma DecideReasons(p: Packet, now: int)
    ensures Decide(p, now).reasonCodes
         == Optional(Cause(p, 0), BLOCKED) + Optional(Cause(p, 1), FORBIDDEN_REASON) + Optional(Cause(p, 2), PACKET_APPROVAL)
            + Optional(Cause(p, 3), RISK_APPROVAL) + Optional(Cause(p, 4), CAPABILITY_APPROVAL)
  {
    CausesMeaning(p);
  }

  /** Everything else a decision carries. */
  lemma DecideFields(p: Packet, now: int)
    ensures var d := Decide(p, now);
            && d.packetId == p.packetId && d.actorId == p.actorId && d.sessionId == p.sessionId
            && d.resourceRefs == p.resourceRefs && d.riskLevel == p.riskLevel && d.createdAt == now
            && (p.allow == [] ==> d.capability == Ascii("none"))
            && (p.allow != [] ==> d.capability == p.allow[0])
            && (forall id :: p.packetId == Ascii("pkt_") + id ==> d.decisionId == Ascii("pol_") + id)
            && (!(Ascii("pkt_") <= p.packetId) ==> d.decisionId == Ascii("pol_") + p.packetId)
  {
    forall id | p.packetId == Ascii("pkt_") + id ensures Decide(p, now).decisionId == Ascii("pol_") + id {
      assert p.packetId[|Ascii("pkt_")|..] == id;
    }
  }
}
