/**
 The contracts crate's policy function (`policy.rs`): per-capability classification, ordered
 reasons, and a decision whose identity is a digest of packet hash and evaluation time. The
 theory is generic in the capability tables; `TABLES` holds the crate's own.
 */
module ContractPolicy {
  import opened Texts
  import opened Bytes
  import opened ContractJson
  import opened Grammar
  import opened Timestamps
  import opened Packet

  datatype Kind = Allow | Deny | ApprovalRequired

  datatype Reason =
    | ProfileUnsupported | NoCapabilityRequested | CapabilityForbidden | CapabilityUnknown
    | PacketRequiresApproval | RiskRequiresApproval | CapabilityRequiresApproval

  datatype CapabilityDecision = CapabilityDecision(capability: Text, decision: Kind, reason: Option<Reason>)

  datatype PacketRef = PacketRef(packetId: Text, schemaId: Text, packetHash: Text, idempotencyKey: Text)

  datatype Policy = Policy(
    contractVersion: Text, schemaId: Text, decisionId: Text, packetRef: PacketRef, actorRef: Text,
    sessionRef: Text, projectRef: Text, resourceRefs: seq<Text>, profileRef: Text, riskLevel: nat,
    capabilities: seq<CapabilityDecision>, decision: Kind, requiresApproval: bool, reasons: seq<Reason>,
    evaluatedAt: Text, expiresAt: Text)

  datatype PolicyError = InvalidPacket | InvalidEvaluationTime | PacketExpired

  datatype PolicyResult = Decided(policy: Policy) | Undecided(error: PolicyError)

  datatype Tables = Tables(profile: Text, allowed: set<Text>, approval: set<Text>, forbidden: set<Text>)

  const TABLES: Tables := Tables(
    Ascii("policy:agent_sandbox"),
    {Ascii("context.read"), Ascii("repository.read"), Ascii("tests.run.sandbox")},
    {Ascii("database.migration.request"), Ascii("deploy.request"), Ascii("runbook.execute.request"),
     Ascii("secret.use.brokered"), Ascii("service.restart.request")},
    {Ascii("billing.write"), Ascii("database.prod.write"), Ascii("database.write"), Ascii("deploy.execute"),
     Ascii("destructive.execute"), Ascii("network.open"), Ascii("root"), Ascii("secret.read"),
     Ascii("security.write"), Ascii("ssh")})

  const LF: Unit := 0x0A

  // ---------------------------------------------------------------- classification and reasons

  function Classify(t: Tables, capability: Text, supported: bool): CapabilityDecision {
    if !supported then CapabilityDecision(capability, Deny, Some(ProfileUnsupported))
    else if capability in t.forbidden then CapabilityDecision(capability, Deny, Some(CapabilityForbidden))
    else if capability in t.approval then
      CapabilityDecision(capability, ApprovalRequired, Some(CapabilityRequiresApproval))
    else if capability in t.allowed then CapabilityDecision(capability, Allow, None)
    else CapabilityDecision(capability, Deny, Some(CapabilityUnknown))
  }

  function ClassifyAll(t: Tables, names: seq<Text>, supported: bool): (cs: seq<CapabilityDecision>)
    ensures |cs| == |names| && forall i :: 0 <= i < |names| ==> cs[i] == Classify(t, names[i], supported)
  {
    seq(|names|, i requires 0 <= i < |names| => Classify(t, names[i], supported))
  }

  function Names(cs: seq<CapabilityDecision>): (names: seq<Text>)
    ensures |names| == |cs| && forall i :: 0 <= i < |cs| ==> names[i] == cs[i].capability
  {
    seq(|cs|, i requires 0 <= i < |cs| => cs[i].capability)
  }

  predicate AnyReason(cs: seq<CapabilityDecision>, r: Reason) {
    exists i :: 0 <= i < |cs| && cs[i].reason == Some(r)
  }

  function Rank(r: Reason): nat {
    match r
    case ProfileUnsupported => 0
    case NoCapabilityRequested => 1
    case CapabilityForbidden => 2
    case CapabilityUnknown => 3
    case PacketRequiresApproval => 4
    case RiskRequiresApproval => 5
    case CapabilityRequiresApproval => 6
  }

  predicate Ranked(rs: seq<Reason>) { forall i :: 0 <= i < |rs| - 1 ==> Rank(rs[i]) < Rank(rs[i + 1]) }

  predicate IsDenial(r: Reason) { Rank(r) < 4 }

  /** When each reason applies. */
  predicate Applies(r: Reason, asks: bool, risk: nat, supported: bool, cs: seq<CapabilityDecision>) {
    match r
    case ProfileUnsupported => !supported
    case NoCapabilityRequested => cs == []
    case PacketRequiresApproval => asks
    case RiskRequiresApproval => risk >= 5
    case _ => AnyReason(cs, r)
  }

  function WithRank(n: nat): (r: Reason)
    requires n < 7
    ensures Rank(r) == n
  {
    match n
    case 0 => ProfileUnsupported
    case 1 => NoCapabilityRequested
    case 2 => CapabilityForbidden
    case 3 => CapabilityUnknown
    case 4 => PacketRequiresApproval
    case 5 => RiskRequiresApproval
    case _ => CapabilityRequiresApproval
  }

  function Push(rs: seq<Reason>, applies: bool, r: Reason): seq<Reason> { if applies then rs + [r] else rs }

  /** The reasons of rank below `n` that apply, in rank order. */
  function ReasonsBelow(n: nat, asks: bool, risk: nat, supported: bool, cs: seq<CapabilityDecision>): seq<Reason>
    requires n <= 7
  {
    if n == 0 then []
    else Push(ReasonsBelow(n - 1, asks, risk, supported, cs),
              Applies(WithRank(n - 1), asks, risk, supported, cs), WithRank(n - 1))
  }

  function Reasons(asks: bool, risk: nat, supported: bool, cs: seq<CapabilityDecision>): seq<Reason> {
    ReasonsBelow(7, asks, risk, supported, cs)
  }

  /** `ordered_reasons`: each reason that applies is pushed, in rank order. */
  method OrderedReasons(asks: bool, risk: nat, supported: bool, cs: seq<CapabilityDecision>) returns (rs: seq<Reason>)
    ensures rs == Reasons(asks, risk, supported, cs)
    ensures Ranked(rs)
    ensures forall r :: r in rs <==> Applies(r, asks, risk, supported, cs)
  {
    rs := Push([], !supported, ProfileUnsupported);
    assert rs == ReasonsBelow(1, asks, risk, supported, cs);
    rs := Push(rs, cs == [], NoCapabilityRequested);
    assert rs == ReasonsBelow(2, asks, risk, supported, cs);
    rs := Push(rs, AnyReason(cs, CapabilityForbidden), CapabilityForbidden);
    assert rs == ReasonsBelow(3, asks, risk, supported, cs);
    rs := Push(rs, AnyReason(cs, CapabilityUnknown), CapabilityUnknown);
    assert rs == ReasonsBelow(4, asks, risk, supported, cs);
    rs := Push(rs, asks, PacketRequiresApproval);
    assert rs == ReasonsBelow(5, asks, risk, supported, cs);
    rs := Push(rs, risk >= 5, RiskRequiresApproval);
    assert rs == ReasonsBelow(6, asks, risk, supported, cs);
    rs := Push(rs, AnyReason(cs, CapabilityRequiresApproval), CapabilityRequiresApproval);
    ReasonsMeaning(asks, risk, supported, cs);
  }

  lemma {:induction false} ReasonsBelowMeaning(n: nat, asks: bool, risk: nat, supported: bool, cs: seq<CapabilityDecision>)
    requires n <= 7
    ensures var rs := ReasonsBelow(n, asks, risk, supported, cs);
            && Ranked(rs) && (forall i :: 0 <= i < |rs| ==> Rank(rs[i]) < n)
            && forall r :: r in rs <==> Rank(r) < n && Applies(r, asks, risk, supported, cs)
  {
    if n > 0 {
      ReasonsBelowMeaning(n - 1, asks, risk, supported, cs);
      var last := WithRank(n - 1);
      forall r ensures Rank(r) == n - 1 <==> r == last {
        RankInjective(r, last);
      }
    }
  }

  lemma RankInjective(a: Reason, b: Reason)
    ensures Rank(a) == Rank(b) <==> a == b
  {
  }

  /** Ranked, and holding exactly the reasons that apply. */
  lemma ReasonsMeaning(asks: bool, risk: nat, supported: bool, cs: seq<CapabilityDecision>)
    ensures var rs := Reasons(asks, risk, supported, cs);
            Ranked(rs) && forall r :: r in rs <==> Applies(r, asks, risk, supported, cs)
  {
    ReasonsBelowMeaning(7, asks, risk, supported, cs);
    var rs := Reasons(asks, risk, supported, cs);
    forall r ensures r in rs <==> Applies(r, asks, risk, supported, cs) {
      assert Rank(r) < 7;
    }
  }

  predicate AnyDenial(rs: seq<Reason>) { exists i :: 0 <= i < |rs| && IsDenial(rs[i]) }

  function SelectKind(rs: seq<Reason>): Kind {
    if AnyDenial(rs) then Deny else if rs == [] then Allow else ApprovalRequired
  }

  // ---------------------------------------------------------------- the decision

  function Lines(ts: seq<Text>): Text {
    if ts == [] then [] else if |ts| == 1 then ts[0] else ts[0] + [LF] + Lines(ts[1..])
  }

  /** Text made of lines decodes uniquely when no line holds a line feed. */
  lemma {:induction false} LinesInjective(a: seq<Text>, b: seq<Text>)
    requires |a| == |b| && (forall i :: 0 <= i < |a| ==> LF !in a[i]) && (forall i :: 0 <= i < |b| ==> LF !in b[i])
    ensures Lines(a) == Lines(b) <==> a == b
  {
    if |a| > 1 && Lines(a) == Lines(b) {
      JoinInjective(a[0], Lines(a[1..]), b[0], Lines(b[1..]), LF);
      LinesInjective(a[1..], b[1..]);
      assert a == [a[0]] + a[1..] && b == [b[0]] + b[1..];
    } else if |a| == 1 {
      assert a == [a[0]] && b == [b[0]];
    }
  }

  function PolicyId(p: Primitives, packetHash: Text, evaluatedAt: Text): (id: Text)
    ensures PrefixedDigest(id, POL)
  {
    Sha256Text(p, POL, Lines([POLICY_SCHEMA, packetHash, evaluatedAt]))
  }

  function PolicyOf(p: Primitives, t: Tables, k: Envelope, packetHash: Text, evaluatedAt: Text): Policy {
    var supported := k.policyProfileRef == t.profile;
    var cs := ClassifyAll(t, k.permissionAllow, supported);
    var reasons := Reasons(k.requiresApproval, k.riskLevel, supported, cs);
    var kind := SelectKind(reasons);
    Policy(CONTRACT_VERSION, POLICY_SCHEMA, PolicyId(p, packetHash, evaluatedAt),
           PacketRef(k.packetId, k.schemaId, packetHash, k.idempotencyKey),
           k.actorRef, k.sessionRef, k.projectRef, k.resourceRefs, k.policyProfileRef, k.riskLevel, cs,
           kind, kind == ApprovalRequired, reasons, evaluatedAt, k.expiresAt)
  }

  /** `decide_packet_envelope_policy_v1`. */
  ghost function DecidePacket(p: Primitives, t: Tables, k: Envelope, evaluatedAt: Text): PolicyResult {
    DecideHashed(p, t, k, HashPacket(p, k), evaluatedAt)
  }

  /** The order of the checks, given the packet's hash. */
  ghost function DecideHashed(p: Primitives, t: Tables, k: Envelope, hash: Option<Text>, at: Text): PolicyResult {
    if hash.None? then Undecided(InvalidPacket)
    else if Instant(at).None? then Undecided(InvalidEvaluationTime)
    else if !Within(k.createdAt, at, k.expiresAt) then Undecided(PacketExpired)
    else Decided(PolicyOf(p, t, k, hash.value, at))
  }

  /** A time at or after the first and before the last. */
  predicate Within(first: Text, at: Text, last: Text) {
    && Instant(first).Some? && Instant(at).Some? && Instant(last).Some?
    && Instant(first).value <= Instant(at).value < Instant(last).value
  }
}
