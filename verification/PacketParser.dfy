/**
 Packet parsing (`parse_packet_envelope_v1`): exact keys, field checks in the source's order
 with the source's errors, and numbers that may be written as floats. Parsing undoes a packet's
 JSON form exactly for the packets that can be hashed, and what is parsed from a text has the
 hash of that text's canonical form.
 */
module PacketParser {
  import opened Texts
  import opened Bytes
  import opened Json
  import opened JsonReader
  import opened ContractJson
  import opened Grammar
  import opened Objects
  import opened Timestamps
  import opened Packet
  import opened PacketIdentity
  import F = FieldNames

  datatype ParseError =
    | InvalidJson | InvalidType | UnexpectedField | MissingRequiredField | UnsupportedContractVersion
    | UnsupportedSchema | InvalidField | InvalidTimeWindow | NoncanonicalCollection

  datatype Outcome<+T> = Ok(value: T) | Err(error: ParseError)

  const PACKET_FIELDS: set<F.Field> := {
    F.ContractVersion, F.SchemaId, F.PacketId, F.PacketType, F.ActorRef, F.SessionRef, F.ProjectRef, F.Intent,
    F.RiskLevel, F.SourceRefs, F.ResourceRefs, F.PolicyProfileRef, F.PermissionEnvelope, F.Budget, F.Constraints,
    F.RequiresApproval, F.IdempotencyKey, F.CreatedAt, F.ExpiresAt}

  const PERMISSION_FIELDS: set<F.Field> := {F.Allow, F.Block}

  const BUDGET_FIELDS: set<F.Field> := {F.Tokens, F.RuntimeSeconds, F.CostMicrousd, F.CpuMillicores, F.MemoryBytes}

  // ---------------------------------------------------------------- reading fields

  /** `validate_exact_keys`: a foreign key is worse than a missing one. */
  ghost function ReadFieldsOf(p: Primitives, m: map<Text, Json>, fields: set<F.Field>): (r: Outcome<Record>)
    ensures r.Ok? ==> r.value.Keys == fields
  {
    if exists k :: k in m && k !in Spellings(p.spell, fields) then Err(UnexpectedField)
    else if exists f :: f in fields && p.spell(f) !in m then Err(MissingRequiredField)
    else
      var x := RecordOf(p.spell, m, fields);
      assert x.Keys == fields;
      Ok(x)
  }

  function TextsOf(items: seq<Json>): Option<seq<Text>> {
    if forall i :: 0 <= i < |items| ==> items[i].Str?
    then Some(seq(|items|, i requires 0 <= i < |items| => items[i].text)) else None
  }

  function ArrayIn(x: Record, f: F.Field): Option<seq<Text>> {
    if f in x && x[f].Arr? then TextsOf(x[f].items) else None
  }

  predicate ReferenceList(ts: seq<Text>) { (forall i :: 0 <= i < |ts| ==> Reference(ts[i])) && Distinct(ts) }

  /** `required_string_array` as the loop it is: a set of what was seen, given up at the first bad item. */
  method RequiredStringArray(items: seq<Json>) returns (output: Option<seq<Text>>)
    ensures output == if TextsOf(items).Some? && ReferenceList(TextsOf(items).value) then TextsOf(items) else None
  {
    var texts: seq<Text> := [];
    var unique: set<Text> := {};
    var i := 0;
    while i < |items|
      invariant 0 <= i <= |items| && |texts| == i
      invariant forall j :: 0 <= j < i ==> items[j] == Str(texts[j])
      invariant ReferenceList(texts) && unique == Members(texts)
    {
      if !items[i].Str? || !Reference(items[i].text) || items[i].text in unique {
        assert TextsOf(items).Some? ==>
          TextsOf(items).value[i] == items[i].text && forall j :: 0 <= j < i ==> TextsOf(items).value[j] == texts[j];
        return None;
      }
      texts := texts + [items[i].text];
      unique := unique + {items[i].text};
      i := i + 1;
    }
    assert TextsOf(items).Some? && TextsOf(items).value == texts;
    return Some(texts);
  }

  /** `required_safe_integer`: a nonnegative safe integer, however it is written. */
  function NatOf(p: Primitives, v: Json): Option<nat> {
    if v.Num? && SafeInteger(p, v.number).Some? && SafeInteger(p, v.number).value >= 0
    then Some(SafeInteger(p, v.number).value) else None
  }

  function NatIn(p: Primitives, x: Record, f: F.Field): Option<nat> { if f in x then NatOf(p, x[f]) else None }

  ghost function ParsePermission(p: Primitives, v: Json): Outcome<(seq<Text>, seq<Text>)> {
    if !v.Obj? then Err(InvalidField)
    else
      var x := ReadFieldsOf(p, v.members, PERMISSION_FIELDS);
      if x.Err? then Err(x.error) else PermissionOf(ArrayIn(x.value, F.Allow), ArrayIn(x.value, F.Block))
  }

  predicate Capabilities(ts: seq<Text>) { forall i :: 0 <= i < |ts| ==> Capability(ts[i]) }

  function PermissionOf(allow: Option<seq<Text>>, block: Option<seq<Text>>): Outcome<(seq<Text>, seq<Text>)> {
    if allow.None? || !Capabilities(allow.value) || block.None? || !Capabilities(block.value) then Err(InvalidField)
    else if !AdjacentAscending(allow.value) || !AdjacentAscending(block.value) then Err(NoncanonicalCollection)
    else if exists i :: 0 <= i < |allow.value| && allow.value[i] in block.value then Err(InvalidField)
    else Ok((allow.value, block.value))
  }

  ghost function ParseBudget(p: Primitives, v: Json): Outcome<Budget> {
    if !v.Obj? then Err(InvalidField)
    else
      var x := ReadFieldsOf(p, v.members, BUDGET_FIELDS);
      if x.Err? then Err(x.error)
      else
        var tokens, seconds, cost := NatIn(p, x.value, F.Tokens), NatIn(p, x.value, F.RuntimeSeconds), NatIn(p, x.value, F.CostMicrousd);
        var cpu, memory := NatIn(p, x.value, F.CpuMillicores), NatIn(p, x.value, F.MemoryBytes);
        if tokens.None? || seconds.None? || cost.None? || cpu.None? || memory.None? then Err(InvalidField)
        else Ok(Budget(tokens.value, seconds.value, cost.value, cpu.value, memory.value))
  }

  /** A string field, or the empty text where there is none. */
  function HeadText(x: Record, f: F.Field): Text { if f in x && x[f].Str? then x[f].text else [] }

  predicate AllStrings(x: Record, fields: set<F.Field>) { forall f :: f in fields ==> f in x && x[f].Str? }

  /** The checks before the permission envelope. */
  predicate HeadChecks(p: Primitives, x: Record) {
    && AllStrings(x, {F.PacketId, F.PacketType, F.ActorRef, F.SessionRef, F.ProjectRef, F.Intent, F.PolicyProfileRef})
    && Identifier(HeadText(x, F.PacketId), PKT, 12, 68) && HeadText(x, F.PacketType) in PACKET_TYPES
    && ReferenceWith(HeadText(x, F.ActorRef), IDENTITY) && ReferenceWith(HeadText(x, F.SessionRef), SESSION)
    && ReferenceWith(HeadText(x, F.ProjectRef), PROJECT) && ReferenceWith(HeadText(x, F.PolicyProfileRef), POLICY)
    && 0 < |HeadText(x, F.Intent)| <= 4096
    && NatIn(p, x, F.RiskLevel).Some? && NatIn(p, x, F.RiskLevel).value <= 8
    && ArrayIn(x, F.SourceRefs).Some? && ReferenceList(ArrayIn(x, F.SourceRefs).value)
    && ArrayIn(x, F.ResourceRefs).Some? && ReferenceList(ArrayIn(x, F.ResourceRefs).value)
  }

  /** The checks after the budget. */
  ghost predicate TailChecks(p: Primitives, x: Record) {
    && F.Constraints in x && x[F.Constraints].Obj? && Canonicalizable(p, x[F.Constraints])
    && F.RequiresApproval in x && x[F.RequiresApproval].Bool?
    && AllStrings(x, {F.IdempotencyKey, F.CreatedAt, F.ExpiresAt})
    && Identifier(HeadText(x, F.IdempotencyKey), IDEM, 13, 133)
    && Instant(HeadText(x, F.CreatedAt)).Some? && Instant(HeadText(x, F.ExpiresAt)).Some?
  }

  ghost function ParseRecord(p: Primitives, x: Record): Outcome<Envelope>
    requires x.Keys == PACKET_FIELDS
  {
    if StringIn(x, F.ContractVersion) != Some(CONTRACT_VERSION) then Err(UnsupportedContractVersion)
    else if StringIn(x, F.SchemaId) != Some(PACKET_SCHEMA) then Err(UnsupportedSchema)
    else if !HeadChecks(p, x) then Err(InvalidField)
    else Finish(p, x, ParsePermission(p, x[F.PermissionEnvelope]), ParseBudget(p, x[F.Budget]))
  }

  ghost function Finish(p: Primitives, x: Record, permission: Outcome<(seq<Text>, seq<Text>)>, budget: Outcome<Budget>): Outcome<Envelope>
    requires x.Keys == PACKET_FIELDS && HeadChecks(p, x)
  {
    if permission.Err? then Err(permission.error)
    else if budget.Err? then Err(budget.error)
    else if !TailChecks(p, x) then Err(InvalidField)
    else if Instant(HeadText(x, F.ExpiresAt)).value <= Instant(HeadText(x, F.CreatedAt)).value then Err(InvalidTimeWindow)
    else Ok(Envelope(
      CONTRACT_VERSION, PACKET_SCHEMA, HeadText(x, F.PacketId), HeadText(x, F.PacketType), HeadText(x, F.ActorRef),
      HeadText(x, F.SessionRef), HeadText(x, F.ProjectRef), HeadText(x, F.Intent), NatIn(p, x, F.RiskLevel).value,
      ArrayIn(x, F.SourceRefs).value, ArrayIn(x, F.ResourceRefs).value, HeadText(x, F.PolicyProfileRef),
      permission.value.0, permission.value.1, budget.value, x[F.Constraints].members, x[F.RequiresApproval].flag,
      HeadText(x, F.IdempotencyKey), HeadText(x, F.CreatedAt), HeadText(x, F.ExpiresAt)))
  }

  /** `parse_packet_envelope_v1` after the JSON has been read. */
  ghost function ParseValue(p: Primitives, v: Json): Outcome<Envelope> {
    if !v.Obj? then Err(InvalidType)
    else
      var x := ReadFieldsOf(p, v.members, PACKET_FIELDS);
      if x.Err? then Err(x.error) else ParseRecord(p, x.value)
  }

  ghost function ParsePacket(p: Primitives, text: Text): Outcome<Envelope> {
    var v := FromStr(text);
    if v.None? then Err(InvalidJson) else ParseValue(p, v.value)
  }

  // ---------------------------------------------------------------- reading what was written

  lemma FieldsBack(p: Primitives, x: Record, fields: set<F.Field>)
    requires x.Keys == fields
    ensures ReadFieldsOf(p, Object(p.spell, x), fields) == Ok(x)
  {
    RecordWritten(p.spell, x);
    ExactKeysIsEquality(p.spell, Object(p.spell, x), fields);
  }

  lemma FieldsWritten(p: Primitives, m: map<Text, Json>, fields: set<F.Field>)
    requires ReadFieldsOf(p, m, fields).Ok?
    ensures m == Object(p.spell, ReadFieldsOf(p, m, fields).value)
  {
    assert m.Keys == Spellings(p.spell, fields);
    ExactKeysIsEquality(p.spell, m, fields);
    ObjectRead(p.spell, m, fields);
  }

  lemma TextsBack(ts: seq<Text>)
    ensures TextsOf(Packet.Strings(ts).items) == Some(ts)
  {
    assert TextsOf(Packet.Strings(ts).items).value == ts;
  }

  lemma TextsWritten(v: Json, ts: seq<Text>)
    requires v.Arr? && TextsOf(v.items) == Some(ts)
    ensures v == Packet.Strings(ts)
  {
    assert v.items == Packet.Strings(ts).items;
  }

  function PermissionFields(allow: seq<Text>, block: seq<Text>): Record {
    map[F.Allow := Packet.Strings(allow), F.Block := Packet.Strings(block)]
  }

  lemma PermissionBack(p: Primitives, allow: seq<Text>, block: seq<Text>)
    ensures ParsePermission(p, Obj(Object(p.spell, PermissionFields(allow, block)))) == PermissionOf(Some(allow), Some(block))
  {
    FieldsBack(p, PermissionFields(allow, block), PERMISSION_FIELDS);
    TextsBack(allow);
    TextsBack(block);
  }

  lemma PermissionWritten(p: Primitives, v: Json, allow: seq<Text>, block: seq<Text>)
    requires ParsePermission(p, v) == Ok((allow, block))
    ensures v == Obj(Object(p.spell, PermissionFields(allow, block)))
    ensures PermissionOf(Some(allow), Some(block)) == Ok((allow, block))
  {
    FieldsWritten(p, v.members, PERMISSION_FIELDS);
    var x := ReadFieldsOf(p, v.members, PERMISSION_FIELDS).value;
    TextsWritten(x[F.Allow], allow);
    TextsWritten(x[F.Block], block);
    assert x == PermissionFields(allow, block);
  }

  /** Well-formed, sorted, and nothing both allowed and blocked. */
  lemma PermissionMeaning(allow: seq<Text>, block: seq<Text>)
    ensures PermissionOf(Some(allow), Some(block)) == Ok((allow, block)) <==>
      && SortedCapabilities(allow) && SortedCapabilities(block)
      && forall i :: 0 <= i < |allow| ==> allow[i] !in block
    ensures PermissionOf(Some(allow), Some(block)).Ok? ==> PermissionOf(Some(allow), Some(block)) == Ok((allow, block))
  {
  }

  lemma NatBack(p: Primitives, n: nat)
    ensures NatOf(p, Num(Int(n))) == if n <= MAX_SAFE_INTEGER then Some(n) else None
  {
  }

  lemma NatWritten(p: Primitives, v: Json, n: nat)
    requires NatOf(p, v) == Some(n)
    ensures n <= MAX_SAFE_INTEGER && Canonicalizable(p, v) && Normalize(p, v) == Num(Int(n))
  {
  }

  lemma BudgetBack(p: Primitives, b: Budget)
    ensures ParseBudget(p, Obj(Object(p.spell, BudgetRecord(b)))) == if SafeBudget(b) then Ok(b) else Err(InvalidField)
  {
    FieldsBack(p, BudgetRecord(b), BUDGET_FIELDS);
    NatBack(p, b.tokens);
    NatBack(p, b.runtimeSeconds);
    NatBack(p, b.costMicrousd);
    NatBack(p, b.cpuMillicores);
    NatBack(p, b.memoryBytes);
  }

  lemma BudgetNormal(p: Primitives, x: Record, b: Budget)
    requires x.Keys == BUDGET_FIELDS && NatOf(p, x[F.Tokens]) == Some(b.tokens)
    requires NatOf(p, x[F.RuntimeSeconds]) == Some(b.runtimeSeconds) && NatOf(p, x[F.CostMicrousd]) == Some(b.costMicrousd)
    requires NatOf(p, x[F.CpuMillicores]) == Some(b.cpuMillicores) && NatOf(p, x[F.MemoryBytes]) == Some(b.memoryBytes)
    ensures SafeBudget(b) && AllCanonicalizable(p, x) && NormalizeRecord(p, x) == BudgetRecord(b)
  {
    NatWritten(p, x[F.Tokens], b.tokens);
    NatWritten(p, x[F.RuntimeSeconds], b.runtimeSeconds);
    NatWritten(p, x[F.CostMicrousd], b.costMicrousd);
    NatWritten(p, x[F.CpuMillicores], b.cpuMillicores);
    NatWritten(p, x[F.MemoryBytes], b.memoryBytes);
  }

  lemma BudgetRead(p: Primitives, v: Json, b: Budget)
    requires ParseBudget(p, v) == Ok(b)
    ensures v.Obj? && ReadFieldsOf(p, v.members, BUDGET_FIELDS).Ok?
    ensures var x := ReadFieldsOf(p, v.members, BUDGET_FIELDS).value;
            && NatOf(p, x[F.Tokens]) == Some(b.tokens) && NatOf(p, x[F.RuntimeSeconds]) == Some(b.runtimeSeconds)
            && NatOf(p, x[F.CostMicrousd]) == Some(b.costMicrousd)
            && NatOf(p, x[F.CpuMillicores]) == Some(b.cpuMillicores) && NatOf(p, x[F.MemoryBytes]) == Some(b.memoryBytes)
  {
  }

  lemma BudgetWritten(p: Primitives, v: Json, b: Budget)
    requires ParseBudget(p, v) == Ok(b)
    ensures SafeBudget(b) && Canonicalizable(p, v) && Normalize(p, v) == Obj(Object(p.spell, BudgetRecord(b)))
  {
    BudgetRead(p, v, b);
    FieldsWritten(p, v.members, BUDGET_FIELDS);
    var x := ReadFieldsOf(p, v.members, BUDGET_FIELDS).value;
    BudgetNormal(p, x, b);
    NormalizeObject(p.spell, p, x);
  }

  lemma PacketKeys(k: Envelope, n: Nested)
    ensures RecordOfPacket(k, n).Keys == PACKET_FIELDS
  {
  }

  /** The checks on a packet's own record are the checks on its fields. */
  lemma HeadBack(p: Primitives, k: Envelope, n: Nested, x: Record)
    requires x == RecordOfPacket(k, n) && n.sources == Packet.Strings(k.sourceRefs) && n.resources == Packet.Strings(k.resourceRefs)
    ensures HeadText(x, F.PacketId) == k.packetId && HeadText(x, F.PacketType) == k.packetType
    ensures HeadText(x, F.ActorRef) == k.actorRef && HeadText(x, F.SessionRef) == k.sessionRef
    ensures HeadText(x, F.ProjectRef) == k.projectRef && HeadText(x, F.Intent) == k.intent
    ensures HeadText(x, F.PolicyProfileRef) == k.policyProfileRef
    ensures AllStrings(x, {F.PacketId, F.PacketType, F.ActorRef, F.SessionRef, F.ProjectRef, F.Intent, F.PolicyProfileRef})
    ensures NatIn(p, x, F.RiskLevel) == if k.riskLevel <= MAX_SAFE_INTEGER then Some(k.riskLevel) else None
    ensures ArrayIn(x, F.SourceRefs) == Some(k.sourceRefs) && ArrayIn(x, F.ResourceRefs) == Some(k.resourceRefs)
  {
    Names(k, n, x);
    Scope(k, n, x);
    Rest(k, n, x);
    NestedMembers(k, n, x);
    NatBack(p, k.riskLevel);
    TextsBack(k.sourceRefs);
    TextsBack(k.resourceRefs);
  }

  lemma TailBack(k: Envelope, n: Nested, x: Record)
    requires x == RecordOfPacket(k, n)
    ensures HeadText(x, F.IdempotencyKey) == k.idempotencyKey
    ensures HeadText(x, F.CreatedAt) == k.createdAt && HeadText(x, F.ExpiresAt) == k.expiresAt
    ensures F.Constraints in x && x[F.Constraints] == Obj(k.constraints)
    ensures F.RequiresApproval in x && x[F.RequiresApproval] == Bool(k.requiresApproval)
    ensures AllStrings(x, {F.IdempotencyKey, F.CreatedAt, F.ExpiresAt})
  {
    Names(k, n, x);
    Rest(k, n, x);
  }

  lemma TailsAgree(p: Primitives, k: Envelope, n: Nested, x: Record)
    requires x == RecordOfPacket(k, n)
    ensures TailChecks(p, x) <==>
      && Canonicalizable(p, Obj(k.constraints)) && Identifier(k.idempotencyKey, IDEM, 13, 133)
      && Instant(k.createdAt).Some? && Instant(k.expiresAt).Some?
  {
    TailBack(k, n, x);
  }

  ghost predicate HeadValid(k: Envelope) {
    && Identifier(k.packetId, PKT, 12, 68) && k.packetType in PACKET_TYPES
    && ReferenceWith(k.actorRef, IDENTITY) && ReferenceWith(k.sessionRef, SESSION)
    && ReferenceWith(k.projectRef, PROJECT) && ReferenceWith(k.policyProfileRef, POLICY)
    && 0 < |k.intent| <= 4096 && k.riskLevel <= 8 && ReferenceList(k.sourceRefs) && ReferenceList(k.resourceRefs)
  }

  lemma HeadsAgree(p: Primitives, k: Envelope, n: Nested, x: Record)
    requires x == RecordOfPacket(k, n) && n.sources == Packet.Strings(k.sourceRefs) && n.resources == Packet.Strings(k.resourceRefs)
    ensures HeadChecks(p, x) <==> HeadValid(k)
  {
    HeadBack(p, k, n, x);
  }

  ghost predicate TailValid(p: Primitives, k: Envelope) {
    && Canonicalizable(p, Obj(k.constraints)) && Identifier(k.idempotencyKey, IDEM, 13, 133)
    && Instant(k.createdAt).Some? && Instant(k.expiresAt).Some?
    && Instant(k.createdAt).value < Instant(k.expiresAt).value
  }

  lemma ValidInParts(p: Primitives, k: Envelope)
    ensures FieldsValid(p, k) <==>
      && k.contractVersion == CONTRACT_VERSION && k.schemaId == PACKET_SCHEMA && HeadValid(k)
      && PermissionOf(Some(k.permissionAllow), Some(k.permissionBlock)).Ok? && SafeBudget(k.budget) && TailValid(p, k)
  {
    PermissionMeaning(k.permissionAllow, k.permissionBlock);
  }

  lemma FinishBack(p: Primitives, k: Envelope, x: Record, permission: Outcome<(seq<Text>, seq<Text>)>, budget: Outcome<Budget>)
    requires x == RecordOfPacket(k, NestedOf(p, k)) && x.Keys == PACKET_FIELDS && HeadChecks(p, x)
    requires k.contractVersion == CONTRACT_VERSION && k.schemaId == PACKET_SCHEMA
    requires permission.Ok? ==> permission.value == (k.permissionAllow, k.permissionBlock)
    requires budget.Ok? ==> budget.value == k.budget
    ensures Finish(p, x, permission, budget).Ok? <==> permission.Ok? && budget.Ok? && TailValid(p, k)
    ensures Finish(p, x, permission, budget).Ok? ==> Finish(p, x, permission, budget).value == k
  {
    HeadBack(p, k, NestedOf(p, k), x);
    TailBack(k, NestedOf(p, k), x);
    TailsAgree(p, k, NestedOf(p, k), x);
  }

  lemma RecordPieces(p: Primitives, k: Envelope, x: Record)
    requires x == RecordOfPacket(k, NestedOf(p, k))
    ensures x.Keys == PACKET_FIELDS && (HeadChecks(p, x) <==> HeadValid(k))
    ensures StringIn(x, F.ContractVersion) == Some(k.contractVersion) && StringIn(x, F.SchemaId) == Some(k.schemaId)
    ensures ParsePermission(p, x[F.PermissionEnvelope]) == PermissionOf(Some(k.permissionAllow), Some(k.permissionBlock))
    ensures ParseBudget(p, x[F.Budget]) == if SafeBudget(k.budget) then Ok(k.budget) else Err(InvalidField)
  {
    var n := NestedOf(p, k);
    PacketKeys(k, n);
    Names(k, n, x);
    NestedMembers(k, n, x);
    HeadsAgree(p, k, n, x);
    PermissionBack(p, k.permissionAllow, k.permissionBlock);
    BudgetBack(p, k.budget);
    assert PermissionRecord(k) == PermissionFields(k.permissionAllow, k.permissionBlock);
  }

  /** A packet's own record is accepted exactly when its fields are valid, and as the packet itself. */
  lemma RecordBack(p: Primitives, k: Envelope, x: Record)
    requires x == RecordOfPacket(k, NestedOf(p, k))
    ensures x.Keys == PACKET_FIELDS && (ParseRecord(p, x).Ok? <==> FieldsValid(p, k))
    ensures ParseRecord(p, x).Ok? ==> ParseRecord(p, x).value == k
  {
    RecordPieces(p, k, x);
    ValidInParts(p, k);
    PermissionMeaning(k.permissionAllow, k.permissionBlock);
    if k.contractVersion == CONTRACT_VERSION && k.schemaId == PACKET_SCHEMA && HeadChecks(p, x) {
      FinishBack(p, k, x, PermissionOf(Some(k.permissionAllow), Some(k.permissionBlock)),
                 if SafeBudget(k.budget) then Ok(k.budget) else Err(InvalidField));
    }
  }

  /** Parsing undoes the JSON form of a packet, and accepts it exactly when the packet can be hashed. */
  lemma PacketParses(p: Primitives, k: Envelope)
    ensures ParseValue(p, PacketJson(p, k)) == Ok(k) <==> FieldsValid(p, k)
    ensures ParseValue(p, PacketJson(p, k)).Ok? ==> ParseValue(p, PacketJson(p, k)) == Ok(k)
  {
    RecordBack(p, k, PacketRecord(p, k));
    FieldsBack(p, PacketRecord(p, k), PACKET_FIELDS);
  }

  // ---------------------------------------------------------------- parsing anything

  /** The record holds the packet's fields, numbers as they were written. */
  ghost predicate Holds(x: Record, k: Envelope)
    requires x.Keys == PACKET_FIELDS
  {
    && x[F.ContractVersion] == Str(k.contractVersion) && x[F.SchemaId] == Str(k.schemaId)
    && x[F.PacketId] == Str(k.packetId) && x[F.PacketType] == Str(k.packetType) && x[F.ActorRef] == Str(k.actorRef)
    && x[F.SessionRef] == Str(k.sessionRef) && x[F.ProjectRef] == Str(k.projectRef) && x[F.Intent] == Str(k.intent)
    && x[F.SourceRefs] == Packet.Strings(k.sourceRefs) && x[F.ResourceRefs] == Packet.Strings(k.resourceRefs)
    && x[F.PolicyProfileRef] == Str(k.policyProfileRef) && x[F.Constraints] == Obj(k.constraints)
    && x[F.RequiresApproval] == Bool(k.requiresApproval) && x[F.IdempotencyKey] == Str(k.idempotencyKey)
    && x[F.CreatedAt] == Str(k.createdAt) && x[F.ExpiresAt] == Str(k.expiresAt)
  }

  lemma HoldsRecord(x: Record, k: Envelope, n: Nested)
    requires x.Keys == PACKET_FIELDS && Holds(x, k)
    requires n == Nested(x[F.SourceRefs], x[F.ResourceRefs], x[F.PermissionEnvelope], x[F.Budget])
    ensures x == RecordOfPacket(k, n)[F.RiskLevel := x[F.RiskLevel]]
  {
  }

  lemma ListsHeld(x: Record, k: Envelope)
    requires ArrayIn(x, F.SourceRefs) == Some(k.sourceRefs) && ArrayIn(x, F.ResourceRefs) == Some(k.resourceRefs)
    ensures F.SourceRefs in x && x[F.SourceRefs] == Packet.Strings(k.sourceRefs)
    ensures F.ResourceRefs in x && x[F.ResourceRefs] == Packet.Strings(k.resourceRefs)
  {
    TextsWritten(x[F.SourceRefs], k.sourceRefs);
    TextsWritten(x[F.ResourceRefs], k.resourceRefs);
  }

  lemma ParsedHolds(p: Primitives, x: Record, k: Envelope)
    requires x.Keys == PACKET_FIELDS && ParseRecord(p, x) == Ok(k)
    ensures Holds(x, k) && NatOf(p, x[F.RiskLevel]) == Some(k.riskLevel)
    ensures ParsePermission(p, x[F.PermissionEnvelope]) == Ok((k.permissionAllow, k.permissionBlock))
    ensures ParseBudget(p, x[F.Budget]) == Ok(k.budget)
  {
    ListsHeld(x, k);
  }

  lemma ParsedValid(p: Primitives, x: Record, k: Envelope)
    requires x.Keys == PACKET_FIELDS && ParseRecord(p, x) == Ok(k)
    ensures k.contractVersion == CONTRACT_VERSION && k.schemaId == PACKET_SCHEMA && HeadValid(k) && TailValid(p, k)
  {
  }

  /** A value that parses normalizes as the JSON form of the packet it parses to, which is valid. */
  lemma ParsedRecordAgrees(p: Primitives, x: Record, k: Envelope)
    requires x.Keys == PACKET_FIELDS && ParseRecord(p, x) == Ok(k)
    ensures FieldsValid(p, k)
    ensures AllCanonicalizable(p, x) && AllCanonicalizable(p, PacketRecord(p, k))
    ensures NormalizeRecord(p, x) == NormalizeRecord(p, PacketRecord(p, k))
  {
    ParsedHolds(p, x, k);
    ParsedValid(p, x, k);
    PermissionWritten(p, x[F.PermissionEnvelope], k.permissionAllow, k.permissionBlock);
    BudgetWritten(p, x[F.Budget], k.budget);
    NatWritten(p, x[F.RiskLevel], k.riskLevel);
    ValidInParts(p, k);
    SwapBack(p, x, k);
  }

  /** The packet's own record with risk level and budget as they were written is the record that was read. */
  lemma HeldIsRecord(p: Primitives, x: Record, k: Envelope, n: Nested)
    requires x.Keys == PACKET_FIELDS && Holds(x, k) && n == NestedOf(p, k)
    requires x[F.PermissionEnvelope] == Obj(Object(p.spell, PermissionFields(k.permissionAllow, k.permissionBlock)))
    ensures x == RecordOfPacket(k, n)[F.Budget := x[F.Budget]][F.RiskLevel := x[F.RiskLevel]]
  {
    assert PermissionRecord(k) == PermissionFields(k.permissionAllow, k.permissionBlock);
    HoldsRecord(x, k, n.(budget := x[F.Budget]));
    BudgetSwap(k, n, x[F.Budget]);
  }

  lemma SwapBack(p: Primitives, x: Record, k: Envelope)
    requires x.Keys == PACKET_FIELDS && Holds(x, k) && Hashable(p, k)
    requires x[F.PermissionEnvelope] == Obj(Object(p.spell, PermissionFields(k.permissionAllow, k.permissionBlock)))
    requires Canonicalizable(p, x[F.Budget]) && Normalize(p, x[F.Budget]) == Obj(Object(p.spell, BudgetRecord(k.budget)))
    requires Canonicalizable(p, x[F.RiskLevel]) && Normalize(p, x[F.RiskLevel]) == Num(Int(k.riskLevel))
    ensures AllCanonicalizable(p, x) && AllCanonicalizable(p, PacketRecord(p, k))
    ensures NormalizeRecord(p, x) == NormalizeRecord(p, PacketRecord(p, k))
  {
    var y := RecordOfPacket(k, NestedOf(p, k));
    HeldIsRecord(p, x, k, NestedOf(p, k));
    NumbersOf(p, k, y);
    TwoSwaps(p, y, x[F.Budget], x[F.RiskLevel]);
  }

  /** The two members that hold numbers, in the packet's own record. */
  lemma NumbersOf(p: Primitives, k: Envelope, y: Record)
    requires Hashable(p, k) && y == RecordOfPacket(k, NestedOf(p, k))
    ensures AllCanonicalizable(p, y) && F.Budget in y && F.RiskLevel in y
    ensures Normalize(p, y[F.Budget]) == Obj(Object(p.spell, BudgetRecord(k.budget)))
    ensures Normalize(p, y[F.RiskLevel]) == Num(Int(k.riskLevel))
  {
    var n := NestedOf(p, k);
    AllNormal(p, k, y);
    Rest(k, n, y);
    NestedMembers(k, n, y);
    BudgetNormalizes(p, k.budget, n.budget);
  }

  lemma AllNormal(p: Primitives, k: Envelope, y: Record)
    requires Hashable(p, k) && y == RecordOfPacket(k, NestedOf(p, k))
    ensures AllCanonicalizable(p, y)
  {
    NormalPacket(p, k);
  }

  lemma BudgetNormalizes(p: Primitives, b: Budget, v: Json)
    requires SafeBudget(b) && v == Obj(Object(p.spell, BudgetRecord(b)))
    ensures Canonicalizable(p, v) && Normalize(p, v) == v
  {
    BudgetPlain(p, b);
    PlainText(p, v);
  }

  lemma TwoSwaps(p: Primitives, y: Record, budget: Json, risk: Json)
    requires AllCanonicalizable(p, y) && F.Budget in y && F.RiskLevel in y
    requires Canonicalizable(p, budget) && Normalize(p, budget) == Normalize(p, y[F.Budget])
    requires Canonicalizable(p, risk) && Normalize(p, risk) == Normalize(p, y[F.RiskLevel])
    ensures AllCanonicalizable(p, y[F.Budget := budget][F.RiskLevel := risk])
    ensures NormalizeRecord(p, y[F.Budget := budget][F.RiskLevel := risk]) == NormalizeRecord(p, y)
  {
    SwapNormal(p, y, F.Budget, budget);
    SwapNormal(p, y[F.Budget := budget], F.RiskLevel, risk);
  }

  lemma BudgetSwap(k: Envelope, n: Nested, budget: Json)
    ensures RecordOfPacket(k, n.(budget := budget)) == RecordOfPacket(k, n)[F.Budget := budget]
  {
  }

  /** A value that parses has the canonical text of the packet it parses to, and that packet is valid. */
  lemma ParsedAgrees(p: Primitives, v: Json, k: Envelope)
    requires ParseValue(p, v) == Ok(k)
    ensures FieldsValid(p, k) && Canonicalizable(p, v) && Canonicalizable(p, PacketJson(p, k))
    ensures Normalize(p, v) == Normalize(p, PacketJson(p, k))
  {
    var x := ReadFieldsOf(p, v.members, PACKET_FIELDS).value;
    FieldsWritten(p, v.members, PACKET_FIELDS);
    ParsedRecordAgrees(p, x, k);
    NormalizeObject(p.spell, p, x);
    NormalizeObject(p.spell, p, PacketRecord(p, k));
  }

  // ---------------------------------------------------------------- texts

  lemma StringsDepth(ts: seq<Text>, d: nat)
    requires d >= 1
    ensures DepthAtMost(Packet.Strings(ts), d)
  {
  }

  lemma PermissionDepth(p: Primitives, k: Envelope, d: nat)
    requires d >= 2
    ensures DepthAtMost(Obj(Object(p.spell, PermissionRecord(k))), d)
  {
    StringsDepth(k.permissionAllow, d - 1);
    StringsDepth(k.permissionBlock, d - 1);
    ObjectDepth(p.spell, PermissionRecord(k), d);
  }

  lemma BudgetDepth(p: Primitives, b: Budget, d: nat)
    requires d >= 1
    ensures DepthAtMost(Obj(Object(p.spell, BudgetRecord(b))), d)
  {
    ObjectDepth(p.spell, BudgetRecord(b), d);
  }

  lemma NestedDepth(p: Primitives, k: Envelope, n: Nested, d: nat)
    requires n == NestedOf(p, k) && d >= 2
    ensures DepthAtMost(n.sources, d) && DepthAtMost(n.resources, d) && DepthAtMost(n.permission, d) && DepthAtMost(n.budget, d)
  {
    StringsDepth(k.sourceRefs, d);
    StringsDepth(k.resourceRefs, d);
    PermissionDepth(p, k, d);
    BudgetDepth(p, k.budget, d);
  }

  lemma FieldsDepth(k: Envelope, n: Nested, x: Record, d: nat)
    requires x == RecordOfPacket(k, n) && DepthAtMost(Obj(k.constraints), d)
    requires DepthAtMost(n.sources, d) && DepthAtMost(n.resources, d) && DepthAtMost(n.permission, d) && DepthAtMost(n.budget, d)
    ensures forall f :: f in x ==> DepthAtMost(x[f], d)
  {
  }

  /** Only the constraints of a packet can be nested deeply. */
  lemma PacketDepth(p: Primitives, k: Envelope)
    requires DepthAtMost(Obj(k.constraints), MAX_DEPTH - 1)
    ensures DepthAtMost(PacketJson(p, k), MAX_DEPTH)
  {
    NestedDepth(p, k, NestedOf(p, k), MAX_DEPTH - 1);
    FieldsDepth(k, NestedOf(p, k), PacketRecord(p, k), MAX_DEPTH - 1);
    ObjectDepth(p.spell, PacketRecord(p, k), MAX_DEPTH);
  }

  lemma ParsedDepth(p: Primitives, v: Json, k: Envelope)
    requires ParseValue(p, v) == Ok(k) && DepthAtMost(v, MAX_DEPTH)
    ensures DepthAtMost(PacketJson(p, k), MAX_DEPTH)
  {
    var x := ReadFieldsOf(p, v.members, PACKET_FIELDS).value;
    FieldsWritten(p, v.members, PACKET_FIELDS);
    ParsedHolds(p, x, k);
    ObjectDepth(p.spell, x, MAX_DEPTH);
    PacketDepth(p, k);
  }

  /**
   Every packet parsed from a text can be hashed, and its hash is the digest of the canonical
   form of that very text: parsing neither loses nor changes anything that is hashed.
   */
  lemma ParsedPacketHashes(p: Primitives, t: Text, k: Envelope)
    requires ParsePacket(p, t) == Ok(k)
    ensures ValidPacket(p, k) && FromStr(t).Some? && Canonicalizable(p, FromStr(t).value)
    ensures HashPacket(p, k) == Some(SHA256_PREFIX + EncodeHex(p.sha256(Utf8(Print(Normalize(p, FromStr(t).value))))))
  {
    var v := FromStr(t).value;
    ReadValueDepth(t, MAX_DEPTH);
    ParsedDepth(p, v, k);
    ParsedAgrees(p, v, k);
    HashIs(p, k);
  }

  lemma HashIs(p: Primitives, k: Envelope)
    requires ValidPacket(p, k) && Canonicalizable(p, PacketJson(p, k))
    ensures HashPacket(p, k) == Some(SHA256_PREFIX + EncodeHex(p.sha256(Utf8(Print(Normalize(p, PacketJson(p, k)))))))
  {
  }

  /** The packet with every number in its constraints written as an integer. */
  ghost function NormalConstraints(p: Primitives, k: Envelope): Envelope
    requires Canonicalizable(p, Obj(k.constraints))
  {
    k.(constraints := Normalize(p, Obj(k.constraints)).members)
  }

  lemma NormalStillValid(p: Primitives, k: Envelope)
    requires FieldsValid(p, k)
    ensures FieldsValid(p, NormalConstraints(p, k)) && NoFloats(Obj(NormalConstraints(p, k).constraints))
    ensures Agree(p, k, NormalConstraints(p, k))
  {
    var n := NormalConstraints(p, k);
    NormalizeIdempotent(p, Obj(k.constraints));
    NormalizeNoFloats(p, Obj(k.constraints));
    assert Obj(n.constraints) == Normalize(p, Obj(k.constraints));
    ValidInParts(p, k);
    ValidInParts(p, n);
  }

  lemma PacketFieldsPlain(p: Primitives, k: Envelope, n: Nested, x: Record)
    requires x == RecordOfPacket(k, n) && k.riskLevel <= 8 && Plain(p, Obj(k.constraints))
    requires Plain(p, n.sources) && Plain(p, n.resources) && Plain(p, n.permission) && Plain(p, n.budget)
    ensures PlainRecord(p, x)
  {
  }

  /** A packet whose constraints hold integers only is its own normal form. */
  lemma PacketPlain(p: Primitives, k: Envelope)
    requires Hashable(p, k) && NoFloats(Obj(k.constraints))
    ensures Canonicalizable(p, PacketJson(p, k)) && Normalize(p, PacketJson(p, k)) == PacketJson(p, k)
  {
    NestedPlain(p, k);
    PacketFieldsPlain(p, k, NestedOf(p, k), PacketRecord(p, k));
    PlainObject(p.spell, p, PacketRecord(p, k));
    PlainText(p, PacketJson(p, k));
  }

  /** Parsing the canonical text of a valid packet gives the packet back, constraints in normal form. */
  lemma CanonicalPacketParses(p: Primitives, k: Envelope)
    requires ValidPacket(p, k) && ScalarText(PacketJson(p, k))
    ensures Canonicalize(p, PacketJson(p, k)).Some?
    ensures ParsePacket(p, Canonicalize(p, PacketJson(p, k)).value) == Ok(NormalConstraints(p, k))
  {
    var n := NormalConstraints(p, k);
    PacketCanonicalizable(p, k);
    CanonicalTextDecodes(p, PacketJson(p, k));
    NormalStillValid(p, k);
    PacketTextBinds(p, k, n);
    PacketPlain(p, n);
    PacketParses(p, n);
  }
}
