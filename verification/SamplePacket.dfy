/**
 A packet that passes every check, in a few variants, to show that the conditions of the
 evidence theorems are met and where the code falls short of them.
 */
module SamplePacket {
  import opened Texts
  import opened Bytes
  import opened Json
  import opened ContractJson
  import opened Grammar
  import opened Timestamps
  import opened Objects
  import opened Packet
  import opened ContractPolicy
  import F = FieldNames

  const A: Unit := 0x61
  const R1: Text := [0x72, 0x3A, 0x61]
  const R2: Text := [0x72, 0x3A, 0x62]
  const DEPLOY: Text := Ascii("deploy.request")
  const CREATED: Text := Ascii("2026-01-01T00:00:00Z")
  const EXPIRES: Text := Ascii("2026-01-02T00:00:00Z")

  // ---------------------------------------------------------------- references

  lemma {:induction false} ScalarsAtMost(t: Text)
    ensures ScalarCount(t) <= |t|
  {
    if t != [] {
      if |t| > 1 && IsHighSurrogate(t[0]) && IsLowSurrogate(t[1]) { ScalarsAtMost(t[2..]); } else { ScalarsAtMost(t[1..]); }
    }
  }

  /** A scheme and its colon. */
  predicate Scheme(prefix: Text) {
    && 2 <= |prefix| <= 16 && prefix[|prefix| - 1] == 0x3A
    && forall i :: 0 <= i < |prefix| - 1 ==> SchemeUnit(prefix[i], i)
  }

  predicate Plainly(t: Text) { forall i :: 0 <= i < |t| ==> !IsWhitespace(t[i]) && 0x1F < t[i] < 0x7F }

  lemma SchemeReference(prefix: Text, rest: Text)
    requires Scheme(prefix) && 1 <= |rest| <= 100 && Plainly(rest)
    ensures ReferenceWith(prefix + rest, prefix)
  {
    var t, n := prefix + rest, |prefix| - 1;
    assert t[n] == 0x3A && forall i :: 0 <= i < n ==> t[i] == prefix[i] && t[i] != 0x3A;
    assert FirstIndex(t, 0x3A) == n;
    assert t[n + 1..] == rest;
    ScalarsAtMost(rest);
    assert forall i :: n < i < |t| ==> t[i] == rest[i - n - 1];
  }

  lemma Schemes()
    ensures Scheme(IDENTITY) && Scheme(SESSION) && Scheme(PROJECT) && Scheme(POLICY)
  {
    assert forall i :: 0 <= i < 8 ==> SchemeUnit(IDENTITY[i], i);
    assert forall i :: 0 <= i < 7 ==> SchemeUnit(SESSION[i], i);
    assert forall i :: 0 <= i < 7 ==> SchemeUnit(PROJECT[i], i);
    assert forall i :: 0 <= i < 6 ==> SchemeUnit(POLICY[i], i);
  }

  lemma ShortReferences()
    ensures Reference(R1) && Reference(R2) && R1 != R2
  {
    SchemeReference([0x72, 0x3A], [0x61]);
    SchemeReference([0x72, 0x3A], [0x62]);
    assert R1 == [0x72, 0x3A] + [0x61] && R2 == [0x72, 0x3A] + [0x62];
  }

  lemma ProfileUnits(profile: Text)
    requires profile == Ascii("policy:agent_sandbox")
    ensures POLICY <= profile && |profile| == 20 && |POLICY| == 7
    ensures forall i :: 7 <= i < 20 ==> IsLower(profile[i]) || profile[i] == 0x5F
  {
    assert forall i :: 0 <= i < 7 ==> profile[i] == POLICY[i];
  }

  lemma ProfileReference()
    ensures ReferenceWith(TABLES.profile, POLICY)
  {
    var profile := TABLES.profile;
    ProfileUnits(profile);
    Schemes();
    var rest := profile[7..];
    assert profile == POLICY + rest;
    assert forall i :: 0 <= i < |rest| ==> rest[i] == profile[i + 7];
    SchemeReference(POLICY, rest);
  }

  // ---------------------------------------------------------------- times

  lemma TwoDigits(t: Text, i: nat)
    requires i + 2 <= |t| && IsDigit(t[i]) && IsDigit(t[i + 1])
    ensures Decimal(t, i, i + 2) == (t[i] - 0x30) * 10 + (t[i + 1] - 0x30)
  {
    assert Decimal(t, i, i + 1) == Decimal(t, i, i) * 10 + (t[i] - 0x30);
  }

  lemma FourDigits(t: Text)
    requires 4 <= |t| && forall i :: 0 <= i < 4 ==> IsDigit(t[i])
    ensures Decimal(t, 0, 4) == ((t[0] - 0x30) * 10 + (t[1] - 0x30)) * 100 + (t[2] - 0x30) * 10 + (t[3] - 0x30)
  {
    TwoDigits(t, 0);
    assert Decimal(t, 0, 3) == Decimal(t, 0, 2) * 10 + (t[2] - 0x30);
  }

  lemma MidnightFields(t: Text, day: nat)
    requires |t| == 20 && Layout(t) && day <= 9
    requires t[0] == 0x32 && t[1] == 0x30 && t[2] == 0x32 && t[3] == 0x36
    requires t[5] == 0x30 && t[6] == 0x31 && t[8] == 0x30 && t[9] == 0x30 + day
    requires forall i :: 10 < i < 19 && i != 13 && i != 16 ==> t[i] == 0x30
    ensures ReadFields(t) == Fields(2026, 1, day, 0, 0, 0, 0)
  {
    FourDigits(t);
    TwoDigits(t, 5);
    TwoDigits(t, 8);
    TwoDigits(t, 11);
    TwoDigits(t, 14);
    TwoDigits(t, 17);
  }

  lemma CreatedFields()
    ensures Layout(CREATED) && ReadFields(CREATED) == Fields(2026, 1, 1, 0, 0, 0, 0)
  {
    MidnightFields(CREATED, 1);
  }

  lemma ExpiresFields()
    ensures Layout(EXPIRES) && ReadFields(EXPIRES) == Fields(2026, 1, 2, 0, 0, 0, 0)
  {
    MidnightFields(EXPIRES, 2);
  }

  lemma TimesOrdered()
    ensures Instant(CREATED).Some? && Instant(EXPIRES).Some? && Instant(CREATED).value < Instant(EXPIRES).value
  {
    CreatedFields();
    ExpiresFields();
    InstantOrder(CREATED, EXPIRES);
  }

  // ---------------------------------------------------------------- capability

  lemma OneSeparator(t: Text, k: nat)
    requires 0 < k && k + 1 < |t| <= 128 && IsLower(t[0]) && IsSeparator(t[k])
    requires forall i :: 0 <= i < |t| && i != k ==> IsAlnum(t[i])
    ensures Capability(t)
  {
    CapabilityIsSpaced(t);
  }

  lemma DeployIsCapability()
    ensures Capability(DEPLOY)
  {
    assert forall i :: 0 <= i < 14 && i != 6 ==> IsAlnum(DEPLOY[i]);
    OneSeparator(DEPLOY, 6);
  }

  lemma DeployNeedsApproval()
    ensures DEPLOY in TABLES.approval && DEPLOY !in TABLES.forbidden
  {
    assert DEPLOY[1] == 0x65 && DEPLOY[7] == 0x72 && |DEPLOY| == 14;
    assert Ascii("database.write")[1] == 0x61 && Ascii("deploy.execute")[7] == 0x65 && Ascii("security.write")[0] == 0x73;
  }

  // ---------------------------------------------------------------- the packet

  function Sample(packetId: Text, resources: seq<Text>, constraints: map<Text, Json>): Envelope {
    Envelope(CONTRACT_VERSION, PACKET_SCHEMA, packetId, PACKET_TYPES[0], IDENTITY + [A], SESSION + [A],
             PROJECT + [A], [A], 0, [], resources, TABLES.profile, [DEPLOY], [], Budget(0, 0, 0, 0, 0),
             constraints, true, IDEM + [A, A, A, A, A, A, A, A], CREATED, EXPIRES)
  }

  /** A packet id of the usual shape that is not a digest, and one that is. */
  const SHORT_ID: Text := PKT + [A, A, A, A, A, A, A, A]
  const DIGEST_ID: Text := PKT + seq(64, _ => A)

  lemma IdsAreIdentifiers()
    ensures Identifier(SHORT_ID, PKT, 12, 68) && !PrefixedDigest(SHORT_ID, PKT)
    ensures Identifier(DIGEST_ID, PKT, 12, 68) && PrefixedDigest(DIGEST_ID, PKT)
    ensures Identifier(IDEM + [A, A, A, A, A, A, A, A], IDEM, 13, 133)
  {
    assert |PKT| == 4 && |IDEM| == 5;
    assert forall i :: 4 <= i < |DIGEST_ID| ==> DIGEST_ID[i] == A;
  }

  predicate NamesValid(k: Envelope) {
    && k.contractVersion == CONTRACT_VERSION && k.schemaId == PACKET_SCHEMA && k.packetType in PACKET_TYPES
    && ReferenceWith(k.actorRef, IDENTITY) && ReferenceWith(k.sessionRef, SESSION)
    && ReferenceWith(k.projectRef, PROJECT) && ReferenceWith(k.policyProfileRef, POLICY)
  }

  lemma SampleNames(packetId: Text, resources: seq<Text>, constraints: map<Text, Json>)
    ensures NamesValid(Sample(packetId, resources, constraints))
  {
    Schemes();
    SchemeReference(IDENTITY, [A]);
    SchemeReference(SESSION, [A]);
    SchemeReference(PROJECT, [A]);
    ProfileReference();
  }

  predicate LimitsValid(k: Envelope) {
    && 0 < |k.intent| <= 4096 && k.riskLevel <= 8 && k.sourceRefs == [] && k.permissionBlock == []
    && SortedCapabilities(k.permissionAllow) && SafeBudget(k.budget)
    && Identifier(k.idempotencyKey, IDEM, 13, 133)
    && Instant(k.createdAt).Some? && Instant(k.expiresAt).Some? && Instant(k.createdAt).value < Instant(k.expiresAt).value
  }

  lemma OneCapability(name: Text)
    requires Capability(name)
    ensures SortedCapabilities([name])
  {
  }

  lemma LimitsFrom(k: Envelope, name: Text)
    requires k.intent == [A] && k.riskLevel == 0 && k.sourceRefs == [] && k.permissionBlock == []
    requires k.permissionAllow == [name] && Capability(name) && k.budget == Budget(0, 0, 0, 0, 0)
    requires Identifier(k.idempotencyKey, IDEM, 13, 133)
    requires Instant(k.createdAt).Some? && Instant(k.expiresAt).Some? && Instant(k.createdAt).value < Instant(k.expiresAt).value
    ensures LimitsValid(k)
  {
    OneCapability(name);
  }

  lemma SampleLimits(packetId: Text, resources: seq<Text>, constraints: map<Text, Json>)
    ensures LimitsValid(Sample(packetId, resources, constraints))
  {
    DeployIsCapability();
    IdsAreIdentifiers();
    TimesOrdered();
    LimitsFrom(Sample(packetId, resources, constraints), DEPLOY);
  }

  // ---------------------------------------------------------------- depth

  lemma StringsDeep(ts: seq<Text>, d: nat)
    requires d > 0
    ensures DepthAtMost(Strings(ts), d)
  {
    forall i | 0 <= i < |ts| ensures DepthAtMost(Strings(ts).items[i], d - 1) {
      assert Strings(ts).items[i] == Str(ts[i]);
    }
  }

  lemma NestedDeep(p: Primitives, k: Envelope, d: nat)
    requires d > 1
    ensures DepthAtMost(Obj(Object(p.spell, PermissionRecord(k))), d)
    ensures DepthAtMost(Obj(Object(p.spell, BudgetRecord(k.budget))), d)
  {
    StringsDeep(k.permissionAllow, d - 1);
    StringsDeep(k.permissionBlock, d - 1);
    PermissionDeep(p, k, d);
    BudgetDeep(p, k.budget, d);
  }

  lemma PermissionDeep(p: Primitives, k: Envelope, d: nat)
    requires d > 0 && DepthAtMost(Strings(k.permissionAllow), d - 1) && DepthAtMost(Strings(k.permissionBlock), d - 1)
    ensures DepthAtMost(Obj(Object(p.spell, PermissionRecord(k))), d)
  {
    var x := PermissionRecord(k);
    assert forall f :: f in x ==> DepthAtMost(x[f], d - 1);
    ObjectDepth(p.spell, x, d);
  }

  lemma BudgetDeep(p: Primitives, b: Budget, d: nat)
    requires d > 0
    ensures DepthAtMost(Obj(Object(p.spell, BudgetRecord(b))), d)
  {
    var x := BudgetRecord(b);
    assert forall f :: f in x ==> DepthAtMost(x[f], d - 1);
    ObjectDepth(p.spell, x, d);
  }

  lemma EnvelopeDeep(k: Envelope, sources: Json, resources: Json, permission: Json, budget: Json, d: nat)
    requires DepthAtMost(sources, d) && DepthAtMost(resources, d) && DepthAtMost(permission, d) && DepthAtMost(budget, d)
    requires DepthAtMost(Obj(k.constraints), d)
    ensures var x := EnvelopeRecord(k, sources, resources, permission, budget); forall f :: f in x ==> DepthAtMost(x[f], d)
  {
  }

  lemma PacketDeep(p: Primitives, k: Envelope, d: nat)
    requires d > 1 && DepthAtMost(Obj(k.constraints), d)
    ensures DepthAtMost(PacketJson(p, k), d + 1)
  {
    StringsDeep(k.sourceRefs, d);
    StringsDeep(k.resourceRefs, d);
    NestedDeep(p, k, d);
    EnvelopeDeep(k, Strings(k.sourceRefs), Strings(k.resourceRefs), Obj(Object(p.spell, PermissionRecord(k))),
                 Obj(Object(p.spell, BudgetRecord(k.budget))), d);
    ObjectDepth(p.spell, PacketRecord(p, k), d + 1);
  }

  // ---------------------------------------------------------------- validity

  lemma ValidFrom(p: Primitives, k: Envelope)
    requires NamesValid(k) && LimitsValid(k) && Identifier(k.packetId, PKT, 12, 68)
    requires (forall i :: 0 <= i < |k.resourceRefs| ==> Reference(k.resourceRefs[i])) && Distinct(k.resourceRefs)
    requires Canonicalizable(p, Obj(k.constraints)) && DepthAtMost(PacketJson(p, k), MAX_DEPTH)
    ensures ValidPacket(p, k)
  {
  }

  lemma SampleValid(p: Primitives, packetId: Text, resources: seq<Text>, constraints: map<Text, Json>)
    requires Identifier(packetId, PKT, 12, 68)
    requires (forall i :: 0 <= i < |resources| ==> Reference(resources[i])) && Distinct(resources)
    requires Canonicalizable(p, Obj(constraints)) && DepthAtMost(Obj(constraints), MAX_DEPTH - 1)
    ensures ValidPacket(p, Sample(packetId, resources, constraints))
  {
    var k := Sample(packetId, resources, constraints);
    SampleNames(packetId, resources, constraints);
    SampleLimits(packetId, resources, constraints);
    PacketDeep(p, k, MAX_DEPTH - 1);
    ValidFrom(p, k);
  }

  // ---------------------------------------------------------------- its policy decision

  lemma SampleReasons()
    ensures var cs := ClassifyAll(TABLES, [DEPLOY], true);
            var rs := Reasons(true, 0, true, cs);
            rs != [] && !AnyDenial(rs)
  {
    var cs := ClassifyAll(TABLES, [DEPLOY], true);
    var rs := Reasons(true, 0, true, cs);
    DeployNeedsApproval();
    assert cs[0] == CapabilityDecision(DEPLOY, ApprovalRequired, Some(CapabilityRequiresApproval));
    ReasonsMeaning(true, 0, true, cs);
    assert PacketRequiresApproval in rs;
    forall i | 0 <= i < |rs| ensures !IsDenial(rs[i]) {
      assert rs[i] in rs && Applies(rs[i], true, 0, true, cs);
    }
  }

  lemma DecidedWithin(p: Primitives, t: Tables, k: Envelope)
    requires ValidPacket(p, k)
    ensures DecidePacket(p, t, k, k.createdAt) == Decided(PolicyOf(p, t, k, HashPacket(p, k).value, k.createdAt))
  {
  }

  lemma PolicyKind(p: Primitives, t: Tables, k: Envelope, hash: Text, at: Text, names: seq<Text>)
    requires k.policyProfileRef == t.profile && k.permissionAllow == names && k.requiresApproval && k.riskLevel == 0
    ensures PolicyOf(p, t, k, hash, at).decision == SelectKind(Reasons(true, 0, true, ClassifyAll(t, names, true)))
  {
  }

  /** The sample asks for approval, whatever its id, resources and constraints. */
  lemma SampleDecided(p: Primitives, k: Envelope)
    requires ValidPacket(p, k) && k == Sample(k.packetId, k.resourceRefs, k.constraints)
    ensures DecidePacket(p, TABLES, k, k.createdAt).Decided?
    ensures DecidePacket(p, TABLES, k, k.createdAt).policy.decision == ApprovalRequired
  {
    DecidedWithin(p, TABLES, k);
    PolicyKind(p, TABLES, k, HashPacket(p, k).value, k.createdAt, [DEPLOY]);
    SampleReasons();
  }
}
