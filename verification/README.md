# LNSAT contracts and control plane, verified

A Dafny 4.11 model of the parts of LNSAT that carry state, recursion or canonical forms, and
proofs about it. `dafny verify dfyconfig.toml` checks everything.

- **The local control plane** (`ControlPlane`, `ControlInvariant`, `ControlSteps`, `ControlRuns`,
  `ControlHistory`, `ControlReplay`, `ControlReads`, `ControlCalls`, `ControlStore`, `ControlPolicy`,
  `ControlExamples`) is a concurrent protocol: any number of clients run packet intake, policy evaluation, approval
  requests, reads and session revocation as transactions of several statements that interleave
  freely and may be cut off at any point, also between commit and answer. Tables are one
  append-ordered list with no key constraint, and advisory lock keys come from an arbitrary
  function, so uniqueness is proved from locking although keys may collide within and across
  services. The constraints and relational triggers of the SQL migrations are not used as
  premises; only the trigger that repeats the live-session query is modelled.
- **The intake inspector** (`Inspector`, `InspectorRefusals`, `IntakeBody`) walks an arbitrary heap
  graph; its loops and its mutable state are proved to compute a declarative property of the graph,
  and each refusal is traced to the first fault in document order.
- **Canonical JSON** (`Json`, `JsonReader`, `LedgerCanonicalJson`, `ContractJson`, `Objects`,
  `FieldNames`) has one printer and a full reader, with unique decoding proved for both languages'
  callers. Rust's `f64` tokens are kept, because the contracts crate prints `1.0` as `1`.
- **Packets and execution requests** (`Packet`, `PacketIdentity`, `PacketParser`, `Execution`,
  `ExecutionJson`, `ExecutionProofs`, `ExecutionParse`, `ExecutionFields`, `SamplePacket`,
  `DerivationExamples`): packet parsing and hashing, and the derive, parse and verify triangle over
  canonical text.
- **Approval and audit evidence** (`ContractPolicy`, `PolicyMeaning`, `Approval`, `ApprovalProofs`,
  `ApprovalIdentity`, `AuditJson`, `Audit`, `AuditEvidence`, `EvidenceFields`, `EvidenceJson`,
  `EvidenceExamples`): the chain from policy decision to request, human decision and audit event.
- **Codecs and small machines** (`Auth`, `Bytes`, `Grammar`, `Timestamps`, `Texts`, `Gateway`,
  `Identities`).

Text is a sequence of UTF-16 code units. SHA-256, the value of an `f64` token and the spelling of
JSON field names are parameters (`ContractJson.Primitives`). Fields are the constructors of
`FieldNames.Field`, named after the repository's fields, and the theorems hold for every spelling
of them without collisions. Statements about digests are statements about the bytes that are hashed.

The control plane is generic in packet validation, canonical length, hashing and policy
(`ControlPlane.Oracle`). Its theorems assume, by name, that reading a packet back from `jsonb` gives
an equal packet (`StorageFaithful`), that the canonical text of a packet is no longer than the JSON
text it was read from (`CanonicalBounded`), and three facts about decisions (`PolicySound`) that the
repository's own policy function is proved to have. Other columns read back as written. Database
and application read one clock, each at its own statement: a revocation takes its time in one step
and updates the session in a later one.

## Where code and intent differ

Each difference has an exact condition and a lemma that exhibits a failing input.

- A stored revocation time does not bound the rows of its session: `revoke` takes its time before its
  update can get the session's lock, so a row inserted in between ends up later
  (`RevokedBeforeItsRow`). `LateRowsExactly` says which rows do. What does hold of every row is that
  its own insert saw the session live, and that no row is committed after the update
  (`RowsWereAuthorized`, `NothingAfterRevocation`).
- A derived execution request does not always survive its own canonical text: the packet id must be
  `pkt_` and 64 lowercase hex digits, or the text is rejected, and arguments or identity holding an
  integer written as a float come back rewritten. `DeriveParseIdentity` is the exact condition,
  `DerivedTextRejected` a rejected derivation.
- Verification accepts a request in which `1` was replaced by `1.0` (`OnePointZeroSwapVerifies`, at a
  concrete record `SwappedRecordVerifies`); `TamperedRequestRejected` shows that this is the only
  kind of change it accepts.
- Policy decisions of packets whose resource references are distinct but unsorted can never be
  turned into approval requests (`DecidedPolicyShape`, `ForwardRequest`, and a valid packet in
  `UnsortedPacketRejected`).
- Asking approval for a packet that policy allows is answered with a storage error, not with
  `not_reviewable` (`AllowedPacketBreaksRequest`, and a whole run in `AllowedRequestBreaks`).

## Model

| member | source | states |
|---|---|---|
| `ControlRuns.ReachableInvariant` | apps/api/src/local-control-plane-approval-request.ts:123-189 | the protocol's invariant holds in every state of every run, over all interleavings, aborts and colliding lock keys |
| `ControlRuns.StepKeeps` | apps/api/src/local-control-plane-policy-decision.ts:112-186 | every statement of every client keeps rows unique, linked and authorized, in-flight transactions consistent, locks exclusive and answers true, and shows a row only to a session of its own operator |
| `ControlRuns.OneRowPerPacket` | apps/api/src/local-control-plane-packet-intake.ts:112-157 | in every run each of the three tables holds at most one row per packet id |
| `ControlRuns.RowsAreForever` | apps/api/migrations/postgresql/0003_local_packet_intake_v0_1.sql:97-116 | committed rows and given answers never change; later states only append |
| `ControlSteps.CommitKeeps` | apps/api/src/local-control-plane-packet-intake.ts:130-151 | committing a row under a held lock keeps the invariant, and the service's own check of that row passes |
| `ControlSteps.WriteKeeps` | apps/api/src/local-control-plane-policy-decision.ts:151-180 | appending a row disturbs no other transaction, because only the lock holder relies on the row's absence |
| `ControlSteps.JoinSeesDecision` | apps/api/src/local-control-plane-policy-decision.ts:368-398 | the joined lookup of a decision finds exactly the packet's decision row, with its intake |
| `ControlSteps.GuardPasses` | apps/api/src/local-control-plane-policy-decision.ts:138-149 | the re-read of the input inside `put` never conflicts for intake or policy, and what it passes is linked |
| `ControlSteps.ReadVerifies` | apps/api/src/local-control-plane-policy-decision.ts:428-452 | a stored decision read with its intake always equals the policy function on the stored packet |
| `ControlSteps.FindAppended` | apps/api/src/local-control-plane-packet-intake.ts:296-308 | appending a row changes a lookup only under that row's own key |
| `ControlRuns.RequestsRestOnDecisions` | apps/api/src/local-control-plane-approval-request.ts:132-182 | each request row has an intake and a decision of the same packet, digest and operator; the decision asks for approval, has the same id and reasons, and is the policy function's on the stored packet at its acceptance time |
| `ControlRuns.PolicyNeverConflicts` | apps/api/src/local-control-plane-policy-decision.ts:216-286 | no evaluate or read call is ever answered with a conflict, and no intake or policy row proves unreadable |
| `ControlRuns.CreatedOnce` | apps/api/src/local-control-plane-packet-intake.ts:220-230 | per packet and service at most one call returns created, and all successes return the same row |
| `ControlHistory.RowsWereAuthorized` | apps/api/src/local-control-plane-approval-request.ts:313-335 | every row of every run was inserted by a statement that saw its session unrevoked, in its window, with the capability and an enabled operator, carries that statement's time, and session and operator stayed good until the row was committed |
| `ControlHistory.LateRowsExactly` | apps/api/src/local-control-plane-session.ts:327-340 | in every run a row is later than its session's stored revocation time exactly when it was inserted, and committed, between the step that took that time and the update |
| `ControlHistory.RevocationHappened` | apps/api/src/local-control-plane-session.ts:327-340 | a session found revoked was so from the start, or one call of the run took that time and later updated the session |
| `ControlExamples.RevokedBeforeItsRow` | apps/api/src/local-control-plane-session.ts:327-340 | a run from an initial state that ends with a row later than its session's revocation time |
| `ControlRuns.NothingAfterRevocation` | apps/api/src/local-control-plane-session.ts:183-191 | after a session is revoked no run commits another row under it, including transactions already under way |
| `ControlRuns.NothingAfterDisabling` | apps/api/src/local-control-plane-packet-intake.ts:271-294 | after an operator is disabled no run commits another row of that operator |
| `ControlRuns.WritesAreLive` | apps/api/src/local-control-plane-policy-decision.ts:309-331 | a step that commits a row does so under a session unrevoked and an operator enabled at that step |
| `ControlRuns.RevokedOnce` | apps/api/src/local-control-plane-session.ts:327-340 | in every run at most one revocation of a session succeeds |
| `ControlRuns.EventsStay` | apps/api/src/local-control-plane-session.ts:183-191 | no step undoes or moves a revocation or the disabling of an operator |
| `ControlStore.Store.Put` | apps/api/src/local-control-plane-approval-request.ts:123-189 | the transaction as code changes only the rows, and answers and writes as the sequential specification says |
| `ControlStore.Store.Issue` | apps/api/src/local-control-plane-session.ts:254-309 | a session is added exactly for an unused id, a known enabled operator and a lifetime of 60 to 3600 seconds, and then as the protocol's issue step does |
| `ControlStore.Store.RevokeSession` | apps/api/src/local-control-plane-session.ts:183-191 | true exactly for a session not yet revoked, which then carries the time the caller brings; the effect is the protocol's update |
| `ControlStore.AloneIsPut` | apps/api/src/local-control-plane-policy-decision.ts:130-186 | one client's statements run back to back do exactly what the sequential transaction does |
| `ControlStore.FirstPutSucceeds` | apps/api/src/local-control-plane-packet-intake.ts:112-157 | under a live session, a call that passes its guard and finds no row writes exactly its own row and answers created |
| `ControlReplay.ReplayInRuns` | apps/api/src/local-control-plane-approval-request.ts:501-516 | once a packet has a row, every later statement of any write to it, in any interleaving, waits for the lock, moves the call on, finds the session no longer good, or gives the owed answer; it adds no row |
| `ControlReplay.ReplayAnswered` | apps/api/src/local-control-plane-packet-intake.ts:220-230 | over a whole run, such a call ends only with the answer it is owed or with a session no longer good |
| `ControlReplay.ReplayStep` | apps/api/src/local-control-plane-policy-decision.ts:439-452 | the owed answer for each service in every state of the invariant: a request repeats by all fields and session, else conflict, or not found for another operator; an intake repeats by digest and operator; an evaluation always repeats |
| `ControlReplay.SuccessNamesSession` | apps/api/src/local-control-plane-approval-request.ts:501-516 | every successful approval answer, and every created answer, of every run goes to the session in the row |
| `ControlReads.ReadStep` | apps/api/src/local-control-plane-packet-intake.ts:159-181 | one statement of a read in any state of the invariant finds its session gone, moves on, or answers with the operator's own row if the operator has one and with not found exactly otherwise |
| `ControlReads.ReadAnswered` | apps/api/src/local-control-plane-approval-request.ts:191-209 | over a whole run a read ends only with its own operator's row, with a session no longer good, or with not found, the last only if the operator had no such row when the read began |
| `ControlReads.AnswersGoToOwners` | apps/api/src/local-control-plane-approval-request.ts:381-399 | every row that any call of any run hands out goes to a session of the row's operator that has the service's capability |
| `ControlReads.DecisionNeedsIntake` | apps/api/src/local-control-plane-policy-decision.ts:188-205 | whoever owns a decision owns the intake, so the two-step read of a decision misses none |
| `ControlReads.CallsStayAuthorized` | apps/api/src/local-control-plane-policy-decision.ts:309-331 | in every run, from its live-session query to its end, a call's session stays unrevoked and its operator enabled |
| `ControlCalls.CallTakenUp` | apps/api/src/local-control-plane-packet-intake.ts:193-204 | every call is taken up or turned away, for the stated reasons and no other; a submission is judged by the packet its JSON text reads as |
| `ControlCalls.TasksWereCalled` | apps/api/src/local-control-plane-policy-decision.ts:216-264 | in every run whatever a client is doing goes back to a call it made, with that call's packet, operator and session |
| `ControlCalls.RowsWereAskedFor` | apps/api/src/local-control-plane-packet-intake.ts:193-217 | every row was asked for by an earlier call: an intake by a body that reads as the packet hashed and stored, a request by a call naming each field, a decision by an evaluation |
| `ControlCalls.RepliesWereAskedFor` | apps/api/src/local-control-plane-approval-request.ts:217-260 | every answer of every run answers a call of the run, addressed as the call was, or turned it away for a stated reason |
| `ControlCalls.SessionsWereIssued` | apps/api/src/local-control-plane-session.ts:254-309 | every session was there at the start or was issued with the operator's capabilities and the lifetime asked for, and what it grants never changes |
| `ControlCalls.RevokedByItsHolder` | apps/api/src/local-control-plane-session.ts:342-366 | no session is revoked in a run unless its token and proof were presented while it was unrevoked, unexpired and of an enabled operator |
| `ControlCalls.AskGuarded` | apps/api/src/local-control-plane-approval-request.ts:337-379 | a request is answered from the operator's own decision: none is not found, allow is broken storage, deny is not reviewable, a mismatch is conflict, else it goes on |
| `ControlCalls.EvaluationLoads` | apps/api/src/local-control-plane-policy-decision.ts:114-128 | an evaluation is refused exactly when the operator has not submitted the packet, else it carries the policy function's decision on the stored packet at its acceptance time |
| `ControlStore.ApprovalReplay` | apps/api/src/local-control-plane-approval-request.ts:501-516 | the sequential case: a repeated request succeeds exactly when every field and the session repeat; the owner's other sessions get conflict, other operators not found |
| `ControlStore.IntakeReplay` | apps/api/src/local-control-plane-packet-intake.ts:220-230 | the sequential case: a repeated submission succeeds from any live session exactly for the same digest and operator |
| `ControlStore.PolicyReplay` | apps/api/src/local-control-plane-policy-decision.ts:439-452 | the sequential case: a repeated evaluation by the owner succeeds from any live session and returns the stored row |
| `ControlStore.AllowedPacketBreaksRequest` | apps/api/src/local-control-plane-approval-request.ts:337-379 | a request on an allowed packet fails as unreadable storage and writes nothing; not reviewable is answered exactly for denials |
| `ControlExamples.AllowedRequestBreaks` | apps/api/src/local-control-plane-approval-request.ts:337-379 | a run from an initial state in which a packet is accepted and allowed, and the request for approval is answered with a storage error |
| `ControlPolicy.DecideMeaning` | packages/policy/src/index.ts:342-393 | denied, approval or allowed exactly by blocked, forbidden, gated, risk and packet flags; reason codes are readable by the approval service exactly when not allowed |
| `ControlPolicy.DecideReasons` | packages/policy/src/index.ts:342-393 | the reason codes are exactly those whose cause holds of the packet, in their fixed order |
| `ControlPolicy.DecideFields` | packages/policy/src/index.ts:376-392 | every other field of a decision, its identity from the packet's included |
| `ControlInvariant.RepositoryPolicySound` | packages/policy/src/index.ts:342-393 | the repository's policy function satisfies every assumption the protocol makes about policy |
| `ControlInvariant.AssumptionsConsistent` | apps/api/src/local-control-plane-policy-decision.ts:428-437 | the assumptions hold together of the repository's policy function with any packet accepted and any digest |
| `Inspector.InspectionExact` | apps/api/src/local-control-plane-packet-intake.ts:391-435 | the walk accepts exactly the graphs that unfold to a tree of at most 2048 values, depth 12, no object twice, all limits kept; it visits at most 2049 values on any graph |
| `Inspector.InspectionCounts` | apps/api/src/local-control-plane-packet-intake.ts:391-400 | on acceptance the counter is the tree's size and the set its objects |
| `Inspector.VisitExplained` | apps/api/src/local-control-plane-packet-intake.ts:391-435 | every successful visit yields the finite unfolding that justifies it, disjoint from what was seen before |
| `Inspector.VisitSucceeds` | apps/api/src/local-control-plane-packet-intake.ts:391-435 | every acceptable unfolding is visited successfully from any compatible state, with exact counter and set |
| `Inspector.Inspection.Inspect` | apps/api/src/local-control-plane-packet-intake.ts:391-435 | the recursive method with loops and three mutable fields computes the pure walk, including the too-large flag |
| `InspectorRefusals.BlamedRefused` | apps/api/src/local-control-plane-packet-intake.ts:391-435 | whatever value or key is the first fault, the walk refuses, and sets the too-large flag exactly if the fault is a limit |
| `InspectorRefusals.RefusedBlamed` | apps/api/src/local-control-plane-packet-intake.ts:391-435 | every refusal has a first fault, everything before it in document order being acceptable |
| `InspectorRefusals.RefusalsExactly` | apps/api/src/local-control-plane-packet-intake.ts:365-389 | too large exactly for a first fault that is a limit or a text beyond 65536 bytes, malformed exactly for any other first fault or a body that wraps no packet |
| `IntakeBody.InspectBoundedRequest` | apps/api/src/local-control-plane-packet-intake.ts:365-389 | the method answers as the bounded-request function on every heap: packet, too large or malformed |
| `IntakeBody.BoundedExactly` | apps/api/src/local-control-plane-packet-intake.ts:365-389 | a body is passed on exactly when it unfolds acceptably, wraps one packet and its whole JSON text has at most 65536 bytes |
| `IntakeBody.PacketTextFits` | apps/api/src/local-control-plane-packet-intake.ts:365-389 | the packet inside an accepted body has a JSON text within the same bound |
| `IntakeBody.ReadSerialized` | apps/api/src/local-control-plane-packet-intake.ts:365-389 | reading the JSON text of any value of any heap, cut off at any level, gives the JSON value cut off there |
| `IntakeBody.PacketTextReads` | apps/api/src/local-control-plane-packet-intake.ts:193-199 | what the validator is given is what the packet's JSON text says, lists and members included |
| `LedgerCanonicalJson.CanonicalJsonInjective` | apps/api/src/audit-ledger-writer-interface.ts:448-464 | two JavaScript values print alike exactly when they are equal JSON values, whatever the key order |
| `LedgerCanonicalJson.CanonicalIsPrint` | apps/api/src/audit-ledger-writer-interface.ts:448-464 | the recursive writer over any key enumeration equals the canonical printer of the value |
| `JsonReader.ReadPrint` | crates/lnsat-contracts/src/packet.rs:324-365 | reading a canonical text gives back the value it was printed from |
| `JsonReader.PrintInjective` | crates/lnsat-contracts/src/packet.rs:324-365 | equal canonical texts come only from equal values |
| `ContractJson.CanonicalTextsAgree` | crates/lnsat-contracts/src/packet.rs:251-256 | canonical texts agree exactly when values agree up to how integers are written |
| `ContractJson.CanonicalTextDecodes` | crates/lnsat-contracts/src/packet.rs:251-256 | reading a canonical text gives the value with every number as an integer |
| `ContractJson.CanonicalTextReads` | crates/lnsat-contracts/src/execution.rs:373-379 | a text equal to the canonical form of what it reads as holds no float and is its value's print |
| `ContractJson.NormalizeFixes` | crates/lnsat-contracts/src/packet.rs:367-387 | normalizing changes a value exactly when it holds a number that is not an integer token |
| `Texts.AdjacentIsGlobal` | crates/lnsat-contracts/src/approval.rs:652-657 | the adjacent-pair check is the check of all pairs and excludes duplicates |
| `Texts.AscendingIsCanonical` | crates/lnsat-contracts/src/approval.rs:652-657 | two accepted lists with the same members are the same list |
| `Grammar.ValidCapability` | crates/lnsat-contracts/src/approval.rs:635-650 | the loop accepts exactly the capability grammar |
| `Grammar.CapabilityIsSpaced` | crates/lnsat-contracts/src/packet.rs:594-609 | the grammar by groups and the unit-by-unit rule describe the same names |
| `Timestamps.InstantOrder` | crates/lnsat-contracts/src/packet.rs:611-704 | comparing parsed timestamps is comparing calendar fields, and equal instants have equal fields |
| `Timestamps.ReadPrintedTimestamp` | crates/lnsat-contracts/src/packet.rs:611-704 | reading a printed timestamp gives its fields back, for every number of fraction digits that can hold them |
| `Timestamps.PrintReadTimestamp` | crates/lnsat-contracts/src/packet.rs:611-704 | every accepted timestamp is the print of its fields |
| `Bytes.HexRoundTrip` | crates/lnsat-auth/src/lib.rs:707-714 | decoding an encoding gives the bytes back |
| `Bytes.HexCanonical` | crates/lnsat-contracts/src/execution.rs:708-728 | encoding a decoding gives the text back |
| `Bytes.AppendLowerHex` | crates/lnsat-auth/src/lib.rs:707-714 | the appending loop computes the encoding |
| `Bytes.FillSha256` | crates/lnsat-contracts/src/execution.rs:708-720 | the buffer-filling loop decodes exactly the well-formed digests |
| `Bytes.FrameInjective` | crates/lnsat-auth/src/lib.rs:716-722 | domain-separated preimages are equal exactly for equal domain and value |
| `Bytes.LengthFrameInjective` | crates/lnsat-contracts/src/execution.rs:619-632 | the same for the framing with a saturated length |
| `Bytes.Utf8RoundTrip` | crates/lnsat-contracts/src/packet.rs:264-273 | the hashed bytes of any text decode to that text |
| `Packet.HashPacket` | crates/lnsat-contracts/src/packet.rs:264-273 | helper: a packet has a hash exactly when it passes the packet checks |
| `PacketIdentity.PacketTextBinds` | crates/lnsat-contracts/src/packet.rs:251-311 | two packets have the same text to hash exactly when they agree in everything up to integer spelling in their constraints |
| `PacketParser.RequiredStringArray` | crates/lnsat-contracts/src/packet.rs:470-489 | the loop with its set accepts exactly lists of distinct well-formed references |
| `PacketParser.PacketParses` | crates/lnsat-contracts/src/packet.rs:120-235 | parsing undoes a packet's JSON form, exactly for the packets whose fields are valid |
| `PacketParser.ParsedAgrees` | crates/lnsat-contracts/src/packet.rs:120-235 | a value that parses normalizes as the JSON form of the packet it parses to, which is valid |
| `PacketParser.ParsedPacketHashes` | crates/lnsat-contracts/src/packet.rs:239-273 | every packet parsed from a text can be hashed, and its hash is the digest of that text's canonical form |
| `PacketParser.CanonicalPacketParses` | crates/lnsat-contracts/src/packet.rs:239-249 | parsing the canonical text of a valid packet gives the packet back with integers in its constraints written plainly |
| `ExecutionJson.ExtractReads` | crates/lnsat-contracts/src/execution.rs:380-545 | extraction undoes a request's JSON form, except for packet ids that are not digests |
| `ExecutionJson.ExtractWrites` | crates/lnsat-contracts/src/execution.rs:380-545 | the form of an extracted request is the very object it came from, and the request passes every field check |
| `ExecutionProofs.RequestNormalizes` | crates/lnsat-contracts/src/execution.rs:563-617 | normalizing a request's form is the form of the normalized request; only arguments and identity matter |
| `ExecutionProofs.RequestJsonInjective` | crates/lnsat-contracts/src/execution.rs:563-617 | the JSON form of a request leaves nothing of it out |
| `ExecutionProofs.VerifyMeansRebuilt` | crates/lnsat-contracts/src/execution.rs:329-357 | helper: verification accepts exactly the records equal to what their request rebuilds to |
| `ExecutionProofs.TamperedRequestRejected` | crates/lnsat-contracts/src/execution.rs:329-357 | replacing the request of a verified record is accepted exactly when only integer spelling changed |
| `ExecutionProofs.TamperedIntegersRejected` | crates/lnsat-contracts/src/execution.rs:329-357 | with integers only, every change of a verified record's request is rejected |
| `ExecutionProofs.OnePointZeroSwapVerifies` | crates/lnsat-contracts/src/execution.rs:329-357 | the accepted exception: an argument 1 replaced by a float token that denotes 1 |
| `DerivationExamples.SwappedRecordVerifies` | crates/lnsat-contracts/src/execution.rs:329-357 | for every token denoting 1 there are a derived record and a different request under which it still verifies |
| `ExecutionParse.ProposalChecks` | crates/lnsat-contracts/src/execution.rs:154-243 | what every accepted proposal satisfies, including that its resource is one of the packet's |
| `ExecutionFields.DerivedFields` | crates/lnsat-contracts/src/execution.rs:252-321 | every field of a derived request: people, sessions, chain ids and times from the input, project from the packet, and action, target, adapter, digests and audience read by name from the proposal in the packet's constraints |
| `ExecutionFields.DerivedWhen` | crates/lnsat-contracts/src/execution.rs:252-321 | a derivation succeeds exactly when the packet hashes as claimed and chain, times and proposal are well formed; canonicalization never fails |
| `ExecutionFields.DeriveRefusals` | crates/lnsat-contracts/src/execution.rs:252-321 | what each failed check is answered with |
| `ExecutionFields.RebuiltDigests` | crates/lnsat-contracts/src/execution.rs:619-632 | what each digest of a record is a digest of: request text, action and target under their own domains with lengths, configuration and executable as named |
| `ExecutionFields.OrderedMeaning` | crates/lnsat-contracts/src/execution.rs:252-321 | the time bounds are in order exactly when the first is earlier on the calendar |
| `ExecutionParse.ParseAccepts` | crates/lnsat-contracts/src/execution.rs:370-561 | the parser accepts exactly the canonical texts of requests it can carry and returns what they rebuild to; its final self-check never rejects |
| `ExecutionParse.AcceptedTextVerifies` | crates/lnsat-contracts/src/execution.rs:370-561 | every accepted text is returned byte for byte in a record that verifies |
| `ExecutionParse.ParseInjective` | crates/lnsat-contracts/src/execution.rs:370-561 | texts that parse to the same request are the same text |
| `ExecutionParse.DerivedDepth` | crates/lnsat-contracts/src/execution.rs:252-321 | the reader's nesting limit never rejects a derived text |
| `ExecutionParse.DeriveThenParse` | crates/lnsat-contracts/src/execution.rs:252-321 | parsing a derived text returns the record with numbers as integers, or rejects it when the packet id is not a digest; what the record holds is stated by `ExecutionFields.DerivedFields` |
| `ExecutionParse.DeriveParseIdentity` | crates/lnsat-contracts/src/execution.rs:252-321 | the identical record comes back exactly for a digest packet id and no floats |
| `DerivationExamples.ShortIdRejected` | crates/lnsat-contracts/src/execution.rs:370-561 | every derivation whose packet id is not a digest has a canonical text that the parser rejects |
| `DerivationExamples.DerivedTextRejected` | crates/lnsat-contracts/src/execution.rs:370-561 | such a derivation exists |
| `ContractPolicy.OrderedReasons` | crates/lnsat-contracts/src/policy.rs:245-301 | the pushes produce a ranked list holding exactly the reasons that apply |
| `ContractPolicy.ReasonsMeaning` | crates/lnsat-contracts/src/policy.rs:245-301 | helper: the reason list for a given classification is ranked and complete |
| `PolicyMeaning.DecidedMeaning` | crates/lnsat-contracts/src/policy.rs:150-311 | from packet and tables alone: one verdict per capability, the reasons whose causes hold in order, denial exactly for a foreign profile, an empty request, a forbidden or unknown capability, approval exactly for what is not denied and asks, is risky or gated |
| `PolicyMeaning.DecidedFields` | crates/lnsat-contracts/src/policy.rs:180-208 | every other field of a decision from the packet, and what packet hash and identity are digests of |
| `PolicyMeaning.DecidedWhen` | crates/lnsat-contracts/src/policy.rs:150-180 | a packet is decided exactly when it is valid and its lifetime holds the evaluation time, with each error exactly when it applies |
| `PolicyMeaning.WithinMeaning` | crates/lnsat-contracts/src/policy.rs:150-180 | lying within a lifetime is not being before its start and being before its end, on the calendar |
| `ApprovalProofs.CreateExactly` | crates/lnsat-contracts/src/approval.rs:216-273 | a decision becomes a request exactly when shape, kind, time window and identity hold; conversion and hash failures are unreachable |
| `EvidenceFields.CreatedFields` | crates/lnsat-contracts/src/approval.rs:216-273 | every field of a request from its policy decision, and an identity that is the digest of the request's own JSON form |
| `EvidenceFields.CreatedChecks` | crates/lnsat-contracts/src/approval.rs:335-438 | what every decision that became a request had to satisfy, verdict by verdict |
| `EvidenceFields.CreateRefusals` | crates/lnsat-contracts/src/approval.rs:216-273 | each error of request creation exactly when it applies |
| `ApprovalProofs.CreatedPassesDecide` | crates/lnsat-contracts/src/approval.rs:471-492 | every created request passes the shape and identity checks of the deciding step |
| `ApprovalProofs.CreatedIsDecidable` | crates/lnsat-contracts/src/approval.rs:281-333 | for a created request only human input, time window and self-approval can still reject |
| `ApprovalProofs.CreatedCapabilities` | crates/lnsat-contracts/src/approval.rs:363-469 | a request names at least one capability, all from the allowed or approval lists, under the supported profile |
| `ApprovalProofs.DecideExactly` | crates/lnsat-contracts/src/approval.rs:281-333 | helper: when a human decision is recorded, and as what |
| `EvidenceFields.DecisionFields` | crates/lnsat-contracts/src/approval.rs:281-333 | every field of a human decision from request and input, and the lines its identity is the digest of |
| `EvidenceFields.DecidedChecks` | crates/lnsat-contracts/src/approval.rs:471-492 | what every decided request and every deciding human input had to satisfy |
| `EvidenceFields.DecideRefusals` | crates/lnsat-contracts/src/approval.rs:281-333 | each error of the deciding step exactly when it applies |
| `ApprovalProofs.DecidedPolicyShape` | crates/lnsat-contracts/src/approval.rs:335-438 | the decision function's result passes approval's shape check exactly when the packet lists its resources in ascending order |
| `ApprovalProofs.ForwardRequest` | crates/lnsat-contracts/src/approval.rs:216-273 | exactly when the policy decision of a packet can become a request at a given time |
| `EvidenceExamples.UnsortedPacketRejected` | crates/lnsat-contracts/src/approval.rs:335-361 | a valid packet with distinct resources that policy sends to approval and whose decision is rejected at every time |
| `ApprovalIdentity.RequestTextBinds` | crates/lnsat-contracts/src/approval.rs:494-520 | two requests have the same text to hash exactly when they agree on everything but the identity |
| `ApprovalIdentity.ListsAreSets` | crates/lnsat-contracts/src/approval.rs:494-520 | lists with the same members contribute the same text |
| `ApprovalIdentity.DecisionTextBinds` | crates/lnsat-contracts/src/approval.rs:522-533 | the hashed lines determine the request and the whole human input |
| `ApprovalIdentity.PolicyTextBinds` | crates/lnsat-contracts/src/policy.rs:313-322 | the hashed lines determine packet hash and evaluation time |
| `Audit.VerifiedIsProducible` | crates/lnsat-contracts/src/audit.rs:224-284 | rebuilding from recorded times and inputs accepts exactly the chains the forward functions can produce |
| `Audit.AuditExactly` | crates/lnsat-contracts/src/audit.rs:198-222 | an event is recorded exactly for a valid observation time, a producible chain and an end not after it; hash failure is unreachable |
| `Audit.RecordedDecision` | crates/lnsat-contracts/src/audit.rs:198-284 | evaluated, requested, decided and observed in order, one shared expiry, approver not the requester, gate exactly when approved; the event's own fields are stated by `EvidenceFields.RecordedFields` |
| `EvidenceFields.RecordedFields` | crates/lnsat-contracts/src/audit.rs:286-397 | every field of a recorded event for each kind of chain, and what source hash and event id are digests of |
| `EvidenceJson.EventReads` | crates/lnsat-contracts/src/audit.rs:527-584 | the hashed body of an event holds exactly the listed names, each with the value it stands for, in the parts that are objects too |
| `EvidenceJson.PolicyReads` | crates/lnsat-contracts/src/audit.rs:449-480 | the JSON form of a policy decision, name by name |
| `EvidenceJson.FullRequestReads` | crates/lnsat-contracts/src/audit.rs:482-503 | in evidence a request is its hashed form and its identity, nothing else |
| `EvidenceJson.RequestReads` | crates/lnsat-contracts/src/approval.rs:494-520 | the hashed form of a request, name by name |
| `EvidenceJson.DecisionReads` | crates/lnsat-contracts/src/audit.rs:505-525 | the JSON form of a human decision, name by name |
| `EvidenceExamples.ChainRecorded` | crates/lnsat-contracts/src/audit.rs:198-284 | a complete chain of packet, policy decision, request and approval exists and is recorded |
| `Audit.KeyBinds` | crates/lnsat-contracts/src/audit.rs:286-390 | idempotency keys are equal exactly for the same event type and terminal identity |
| `Audit.SealSucceeds` | crates/lnsat-contracts/src/audit.rs:414-584 | neither the source text nor the event body of a checked chain can fail to hash |
| `AuditEvidence.EvidenceBinds` | crates/lnsat-contracts/src/audit.rs:414-525 | two verified chains have the same source text exactly when all links are equal, the packet up to integer spelling |
| `Auth.TokenExact` | crates/lnsat-auth/src/lib.rs:521-529 | tokens are accepted exactly as id, dot and secret, and give back their id |
| `Auth.TokenRoundTrip` | crates/lnsat-auth/src/lib.rs:488-518 | every issued token is accepted and its bytes can be read back from it |
| `Auth.DigestVerifies` | crates/lnsat-auth/src/lib.rs:724-736 | evidence verifies exactly when it is the text of this value's digest |
| `Auth.ParseControlCookie` | crates/lnsat-auth/src/lib.rs:387-419 | the loop over pieces computes the specified answer, error cases included |
| `Auth.CookieAccepted` | crates/lnsat-auth/src/lib.rs:387-419 | a token is returned exactly for a header of 1 to 4096 bytes made of well-formed pairs with one session cookie holding a well-formed token |
| `Auth.SplitMeaning` | crates/lnsat-auth/src/lib.rs:395-396 | splitting cuts at every semicolon and nowhere else |
| `Auth.SplitPairMeaning` | crates/lnsat-auth/src/lib.rs:396-402 | a piece reads as a pair exactly when, without its blanks, it is a name, an equals sign and a value |
| `Auth.TrimMeaning` | crates/lnsat-auth/src/lib.rs:395-396 | trimming removes blanks at both ends and nothing else |
| `Auth.PrintedCookieParses` | crates/lnsat-auth/src/lib.rs:685-705 | parsing any printed list of pairs answers from its session cookies alone |
| `Gateway.SearchErrors` | apps/api/src/knowledge-gateway.ts:565-590 | the report, messages included, is the de-duplication of one envelope validation followed by id and limit errors, although the envelope is validated and the list de-duplicated twice |
| `Gateway.SearchFaults` | apps/api/src/knowledge-gateway.ts:644-736 | there is an error, with its code, path and message, exactly where a field of the request is at fault |
| `Gateway.Errors.ValidateEnvelope` | apps/api/src/knowledge-gateway.ts:676-736 | validation appends exactly the envelope's errors with their messages to the shared list |
| `Gateway.RepeatedErrorsVanish` | apps/api/src/knowledge-gateway.ts:644-656 | repeating errors already in the list changes nothing |
| `Gateway.DedupeErrors` | apps/api/src/knowledge-gateway.ts:1055-1067 | the loop with its set of keys computes first-occurrence de-duplication |
| `Gateway.DedupeTwice` | apps/api/src/knowledge-gateway.ts:1010-1026 | the failure builder's second de-duplication changes nothing |
| `Gateway.DedupeKeepsFirsts` | apps/api/src/knowledge-gateway.ts:1055-1067 | an error survives exactly when no earlier one has its key |
| `Gateway.KeyMeaning` | apps/api/src/knowledge-gateway.ts:1055-1067 | keys of colon-free codes are equal exactly for equal code and path |
| `Gateway.SelectSections` | apps/api/src/knowledge-gateway.ts:855-877 | a line is kept exactly when its last heading is wanted and the line is not forbidden; the number of lines stays |
| `Identities.Allocator.IssueIdentity` | crates/lnsat-store/src/headless_operation_identity.rs:37-49 | one call updates the allocator and answers as the issue function says |
| `Identities.IdentitiesNeverRepeat` | crates/lnsat-store/src/headless_operation_identity.rs:28-55 | in any run over any allocators no two identities are the same operation, ordinals increase within 1 to 2^64 - 2, and refusal is final |
| `Identities.ControlRoots.Create` | crates/lnsat-store/src/headless_operation_identity.rs:28-36 | a new allocator has a domain object that no earlier one has |
| `Identities.ControlRoots.Ask` | crates/lnsat-store/src/headless_operation_identity.rs:37-49 | the answers of real allocators are those of the written-down run, with domain objects for indices |
| `Identities.ControlRoots.NoTwoAlike` | crates/lnsat-store/src/headless_operation_identity.rs:37-55 | no two identities issued by whichever allocator objects are the same operation |
| `Identities.OrdinalsConsecutive` | crates/lnsat-store/src/headless_operation_identity.rs:37-49 | an allocator issues every ordinal up to 2^64 - 2 before it first refuses |

## Left out

- Fastify routes, HTTP status mapping, cookies on the wire, the PostgreSQL driver and connection pools: input and output.
- Session `verify` and `authorize`, operator credentials and token digests: revocation takes whether they matched as a parameter, and issue starts after them; the checks are single branches.
- ControlStore.Store.Issue: does not model the credential check and the parsing of capabilities, because they precede the statement and touch no session row.
- Gateway.SelectSections: line splitting and heading matching are parameters, because they are regular expressions on text.
- Packet.HashPacket: does not re-parse the serialized packet, because `PacketParser.PacketParses` shows that the parser accepts exactly the valid packets.
- Column shape checks that the control plane repeats on rows it wrote itself (id and digest patterns, dates): they can only fail on rows written by something else.
- Relational constraints and link checks of the SQL migrations: the model does without them, so that what they would enforce is proved of the services.
- Clocks of application and database that disagree: both read one clock.
- `validateUniversalPacket`, `canonicalizeUniversalPacket` and `hashUniversalPacket`: deterministic functions with the assumptions named above.
- JavaScript values with getters, proxies, holes or prototypes beyond a flag per object and property.
- Packet parsing from bytes that are not UTF-8: the parser starts from text.
- Numbers outside what `f64` and safe integers need, and Unicode beyond surrogate pairing and white space.
- Password hashing, random generation, constant-time comparison and zeroizing.
- The pass-through inspection gateways, the other audit-ledger gateways and the compile request of the knowledge gateway: they forward or repeat what is modelled here.
