/**
 What a packet's hash stands for: the canonical text determines the packet, except for how
 integers inside its constraints are written.
 */
module PacketIdentity {
  import opened Texts
  import opened Json
  import opened JsonReader
  import opened ContractJson
  import opened Objects
  import opened Packet
  import F = FieldNames

  /** The facts that make a packet's canonical text exist. */
  ghost predicate Hashable(p: Primitives, k: Envelope) {
    SafeBudget(k.budget) && k.riskLevel <= 8 && Canonicalizable(p, Obj(k.constraints))
  }

  /** Equal packets, except that an integer in the constraints may be written `1` in one and `1.0` in the other. */
  ghost predicate Agree(p: Primitives, a: Envelope, b: Envelope)
    requires Hashable(p, a) && Hashable(p, b)
  {
    && a.(constraints := map[]) == b.(constraints := map[])
    && Normalize(p, Obj(a.constraints)) == Normalize(p, Obj(b.constraints))
  }

  lemma SameAt(p: Primitives, x: Record, y: Record, f: F.Field)
    requires AllCanonicalizable(p, x) && AllCanonicalizable(p, y) && NormalizeRecord(p, x) == NormalizeRecord(p, y)
    requires f in x
    ensures f in y && Normalize(p, x[f]) == Normalize(p, y[f])
  {
    assert NormalizeRecord(p, x)[f] == Normalize(p, x[f]);
    assert f in NormalizeRecord(p, y) && NormalizeRecord(p, y)[f] == Normalize(p, y[f]);
  }

  /** Members that are not plain strings, numbers or flags. */
  datatype Nested = Nested(sources: Json, resources: Json, permission: Json, budget: Json)

  function RecordOfPacket(k: Envelope, n: Nested): Record {
    EnvelopeRecord(k, n.sources, n.resources, n.permission, n.budget)
  }

  lemma Names(k: Envelope, n: Nested, x: Record)
    requires x == RecordOfPacket(k, n)
    ensures F.ContractVersion in x && x[F.ContractVersion] == Str(k.contractVersion)
    ensures F.SchemaId in x && x[F.SchemaId] == Str(k.schemaId)
    ensures F.PacketId in x && x[F.PacketId] == Str(k.packetId)
    ensures F.PacketType in x && x[F.PacketType] == Str(k.packetType)
    ensures F.IdempotencyKey in x && x[F.IdempotencyKey] == Str(k.idempotencyKey)
  {
  }

  lemma Scope(k: Envelope, n: Nested, x: Record)
    requires x == RecordOfPacket(k, n)
    ensures F.ActorRef in x && x[F.ActorRef] == Str(k.actorRef)
    ensures F.SessionRef in x && x[F.SessionRef] == Str(k.sessionRef)
    ensures F.ProjectRef in x && x[F.ProjectRef] == Str(k.projectRef)
    ensures F.PolicyProfileRef in x && x[F.PolicyProfileRef] == Str(k.policyProfileRef)
    ensures F.Intent in x && x[F.Intent] == Str(k.intent)
  {
  }

  lemma Rest(k: Envelope, n: Nested, x: Record)
    requires x == RecordOfPacket(k, n)
    ensures F.CreatedAt in x && x[F.CreatedAt] == Str(k.createdAt)
    ensures F.ExpiresAt in x && x[F.ExpiresAt] == Str(k.expiresAt)
    ensures F.RiskLevel in x && x[F.RiskLevel] == Num(Int(k.riskLevel))
    ensures F.RequiresApproval in x && x[F.RequiresApproval] == Bool(k.requiresApproval)
    ensures F.Constraints in x && x[F.Constraints] == Obj(k.constraints)
  {
  }

  lemma NestedMembers(k: Envelope, n: Nested, x: Record)
    requires x == RecordOfPacket(k, n)
    ensures F.SourceRefs in x && x[F.SourceRefs] == n.sources
    ensures F.ResourceRefs in x && x[F.ResourceRefs] == n.resources
    ensures F.PermissionEnvelope in x && x[F.PermissionEnvelope] == n.permission
    ensures F.Budget in x && x[F.Budget] == n.budget
  {
  }

  /** Two packet records that normalize alike. */
  ghost predicate Alike(p: Primitives, a: Envelope, m: Nested, b: Envelope, n: Nested) {
    var x, y := RecordOfPacket(a, m), RecordOfPacket(b, n);
    AllCanonicalizable(p, x) && AllCanonicalizable(p, y) && NormalizeRecord(p, x) == NormalizeRecord(p, y)
  }

  lemma AlikeNames(p: Primitives, a: Envelope, m: Nested, b: Envelope, n: Nested)
    requires Alike(p, a, m, b, n)
    ensures a.contractVersion == b.contractVersion && a.schemaId == b.schemaId && a.packetId == b.packetId
    ensures a.packetType == b.packetType && a.idempotencyKey == b.idempotencyKey
  {
    var x, y := RecordOfPacket(a, m), RecordOfPacket(b, n);
    Names(a, m, x);
    Names(b, n, y);
    SameAt(p, x, y, F.ContractVersion);
    SameAt(p, x, y, F.SchemaId);
    SameAt(p, x, y, F.PacketId);
    SameAt(p, x, y, F.PacketType);
    SameAt(p, x, y, F.IdempotencyKey);
  }

  lemma AlikeScope(p: Primitives, a: Envelope, m: Nested, b: Envelope, n: Nested)
    requires Alike(p, a, m, b, n)
    ensures a.actorRef == b.actorRef && a.sessionRef == b.sessionRef && a.projectRef == b.projectRef
    ensures a.policyProfileRef == b.policyProfileRef && a.intent == b.intent
  {
    var x, y := RecordOfPacket(a, m), RecordOfPacket(b, n);
    Scope(a, m, x);
    Scope(b, n, y);
    SameAt(p, x, y, F.ActorRef);
    SameAt(p, x, y, F.SessionRef);
    SameAt(p, x, y, F.ProjectRef);
    SameAt(p, x, y, F.PolicyProfileRef);
    SameAt(p, x, y, F.Intent);
  }

  lemma AlikeRest(p: Primitives, a: Envelope, m: Nested, b: Envelope, n: Nested)
    requires Alike(p, a, m, b, n) && Hashable(p, a) && Hashable(p, b)
    ensures a.createdAt == b.createdAt && a.expiresAt == b.expiresAt && a.riskLevel == b.riskLevel
    ensures a.requiresApproval == b.requiresApproval
    ensures Normalize(p, Obj(a.constraints)) == Normalize(p, Obj(b.constraints))
  {
    var x, y := RecordOfPacket(a, m), RecordOfPacket(b, n);
    Rest(a, m, x);
    Rest(b, n, y);
    SameAt(p, x, y, F.CreatedAt);
    SameAt(p, x, y, F.ExpiresAt);
    SameAt(p, x, y, F.RiskLevel);
    SameAt(p, x, y, F.RequiresApproval);
    SameAt(p, x, y, F.Constraints);
  }

  lemma AlikeNested(p: Primitives, a: Envelope, m: Nested, b: Envelope, n: Nested)
    requires Alike(p, a, m, b, n)
    requires NoFloats(m.sources) && NoFloats(m.resources) && NoFloats(m.permission) && NoFloats(m.budget)
    requires NoFloats(n.sources) && NoFloats(n.resources) && NoFloats(n.permission) && NoFloats(n.budget)
    ensures m == n
  {
    var x, y := RecordOfPacket(a, m), RecordOfPacket(b, n);
    NestedMembers(a, m, x);
    NestedMembers(b, n, y);
    SamePlain(p, x, y, F.SourceRefs);
    SamePlain(p, x, y, F.ResourceRefs);
    SamePlain(p, x, y, F.PermissionEnvelope);
    SamePlain(p, x, y, F.Budget);
  }

  lemma SamePlain(p: Primitives, x: Record, y: Record, f: F.Field)
    requires AllCanonicalizable(p, x) && AllCanonicalizable(p, y) && NormalizeRecord(p, x) == NormalizeRecord(p, y)
    requires f in x && f in y && NoFloats(x[f]) && NoFloats(y[f])
    ensures x[f] == y[f]
  {
    SameAt(p, x, y, f);
    NormalizeFixes(p, x[f]);
    NormalizeFixes(p, y[f]);
  }

  // ---------------------------------------------------------------- nested members

  ghost function NestedOf(p: Primitives, k: Envelope): Nested {
    Nested(Strings(k.sourceRefs), Strings(k.resourceRefs),
           Obj(Object(p.spell, PermissionRecord(k))), Obj(Object(p.spell, BudgetRecord(k.budget))))
  }

  lemma NestedPlain(p: Primitives, k: Envelope)
    requires SafeBudget(k.budget)
    ensures var n := NestedOf(p, k);
            Plain(p, n.sources) && Plain(p, n.resources) && Plain(p, n.permission) && Plain(p, n.budget)
  {
    StringsPlain(p, k.sourceRefs);
    StringsPlain(p, k.resourceRefs);
    PermissionPlain(p, k);
    BudgetPlain(p, k.budget);
  }

  lemma PermissionPlain(p: Primitives, k: Envelope)
    ensures Plain(p, Obj(Object(p.spell, PermissionRecord(k))))
  {
    StringsPlain(p, k.permissionAllow);
    StringsPlain(p, k.permissionBlock);
    assert PlainRecord(p, PermissionRecord(k));
    PlainObject(p.spell, p, PermissionRecord(k));
  }

  lemma BudgetPlain(p: Primitives, b: Budget)
    requires SafeBudget(b)
    ensures Plain(p, Obj(Object(p.spell, BudgetRecord(b))))
  {
  }

  lemma PermissionInjective(p: Primitives, a: Envelope, b: Envelope)
    requires Object(p.spell, PermissionRecord(a)) == Object(p.spell, PermissionRecord(b))
    ensures a.permissionAllow == b.permissionAllow && a.permissionBlock == b.permissionBlock
  {
    var x, y := PermissionRecord(a), PermissionRecord(b);
    ObjectInjective(p.spell, x, y);
    assert x[F.Allow] == Strings(a.permissionAllow) && y[F.Allow] == Strings(b.permissionAllow);
    assert x[F.Block] == Strings(a.permissionBlock) && y[F.Block] == Strings(b.permissionBlock);
    StringsInjective(a.permissionAllow, b.permissionAllow);
    StringsInjective(a.permissionBlock, b.permissionBlock);
  }

  lemma BudgetInjective(p: Primitives, a: Budget, b: Budget)
    requires Object(p.spell, BudgetRecord(a)) == Object(p.spell, BudgetRecord(b))
    ensures a == b
  {
    var x, y := BudgetRecord(a), BudgetRecord(b);
    ObjectInjective(p.spell, x, y);
    assert x[F.Tokens] == Num(Int(a.tokens)) && y[F.Tokens] == Num(Int(b.tokens));
    assert x[F.RuntimeSeconds] == Num(Int(a.runtimeSeconds)) && y[F.RuntimeSeconds] == Num(Int(b.runtimeSeconds));
    assert x[F.CostMicrousd] == Num(Int(a.costMicrousd)) && y[F.CostMicrousd] == Num(Int(b.costMicrousd));
    assert x[F.CpuMillicores] == Num(Int(a.cpuMillicores)) && y[F.CpuMillicores] == Num(Int(b.cpuMillicores));
    assert x[F.MemoryBytes] == Num(Int(a.memoryBytes)) && y[F.MemoryBytes] == Num(Int(b.memoryBytes));
  }

  lemma NestedInjective(p: Primitives, a: Envelope, b: Envelope)
    requires NestedOf(p, a) == NestedOf(p, b)
    ensures a.sourceRefs == b.sourceRefs && a.resourceRefs == b.resourceRefs && a.budget == b.budget
    ensures a.permissionAllow == b.permissionAllow && a.permissionBlock == b.permissionBlock
  {
    StringsInjective(a.sourceRefs, b.sourceRefs);
    StringsInjective(a.resourceRefs, b.resourceRefs);
    PermissionInjective(p, a, b);
    BudgetInjective(p, a.budget, b.budget);
  }

  // ---------------------------------------------------------------- the theorem

  lemma NormalPacket(p: Primitives, k: Envelope)
    requires Hashable(p, k)
    ensures var x := RecordOfPacket(k, NestedOf(p, k));
            && AllCanonicalizable(p, x) && Canonicalizable(p, PacketJson(p, k))
            && Normalize(p, PacketJson(p, k)) == Obj(Object(p.spell, NormalizeRecord(p, x)))
  {
    PacketCanonicalizable(p, k);
    ObjectCanonicalizable(p.spell, p, PacketRecord(p, k));
    NormalizeObject(p.spell, p, PacketRecord(p, k));
  }

  lemma AlikeAgree(p: Primitives, a: Envelope, b: Envelope)
    requires Hashable(p, a) && Hashable(p, b) && Alike(p, a, NestedOf(p, a), b, NestedOf(p, b))
    ensures Agree(p, a, b)
  {
    var m, n := NestedOf(p, a), NestedOf(p, b);
    AlikeNames(p, a, m, b, n);
    AlikeScope(p, a, m, b, n);
    AlikeRest(p, a, m, b, n);
    NestedPlain(p, a);
    NestedPlain(p, b);
    AlikeNested(p, a, m, b, n);
    NestedInjective(p, a, b);
  }

  lemma RecordSwap(a: Envelope, b: Envelope, n: Nested)
    requires a.(constraints := map[]) == b.(constraints := map[])
    ensures RecordOfPacket(b, n) == RecordOfPacket(a, n)[F.Constraints := Obj(b.constraints)]
  {
  }

  lemma SwapNormal(p: Primitives, x: Record, f: F.Field, v: Json)
    requires AllCanonicalizable(p, x) && f in x && Canonicalizable(p, v) && Normalize(p, x[f]) == Normalize(p, v)
    ensures AllCanonicalizable(p, x[f := v]) && NormalizeRecord(p, x[f := v]) == NormalizeRecord(p, x)
  {
  }

  lemma AgreeAlike(p: Primitives, a: Envelope, b: Envelope)
    requires Hashable(p, a) && Hashable(p, b) && Agree(p, a, b)
    ensures NestedOf(p, a) == NestedOf(p, b)
    ensures Alike(p, a, NestedOf(p, a), b, NestedOf(p, b))
  {
    var n := NestedOf(p, a);
    assert PermissionRecord(a) == PermissionRecord(b);
    NormalPacket(p, a);
    RecordSwap(a, b, n);
    Rest(a, n, RecordOfPacket(a, n));
    SwapNormal(p, RecordOfPacket(a, n), F.Constraints, Obj(b.constraints));
  }

  /** Two packets have the same text to hash exactly when they agree. */
  lemma PacketTextBinds(p: Primitives, a: Envelope, b: Envelope)
    requires Hashable(p, a) && Hashable(p, b)
    ensures Canonicalizable(p, PacketJson(p, a)) && Canonicalizable(p, PacketJson(p, b))
    ensures Canonicalize(p, PacketJson(p, a)) == Canonicalize(p, PacketJson(p, b)) <==> Agree(p, a, b)
    ensures Normalize(p, PacketJson(p, a)) == Normalize(p, PacketJson(p, b)) <==> Agree(p, a, b)
  {
    NormalPacket(p, a);
    NormalPacket(p, b);
    CanonicalTextsAgree(p, PacketJson(p, a), PacketJson(p, b));
    if Normalize(p, PacketJson(p, a)) == Normalize(p, PacketJson(p, b)) {
      ObjectInjective(p.spell, NormalizeRecord(p, RecordOfPacket(a, NestedOf(p, a))),
                      NormalizeRecord(p, RecordOfPacket(b, NestedOf(p, b))));
      AlikeAgree(p, a, b);
    }
    if Agree(p, a, b) { AgreeAlike(p, a, b); }
  }
}
