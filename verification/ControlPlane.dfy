/**
 The local control plane as a concurrent protocol. Sessions, packet intake, policy decisions
 and approval requests share one database; every service call is a transaction of several
 statements, and statements of different clients interleave freely. A state holds the
 committed rows, the transactions in flight and the answers given so far; `Step` performs one
 statement of one client, or nothing when that client has to wait.

 Rows are kept in one insertion-ordered list that could hold duplicates: that it never does
 is proved from the advisory lock alone, whose key may collide, without any primary key.
 */
module ControlPlane {
  import opened Texts
  import opened Json
  import opened Grammar
  import opened ControlPolicy
  import I = Inspector
  import B = IntakeBody

  datatype Service = Intake | Policy | Approval

  /** What the services take from elsewhere, all deterministic. */
  datatype Oracle = Oracle(
    validate: Json -> Option<Packet>,
    hash: Packet -> Text,
    canonicalLength: Packet -> nat,
    stored: Packet -> Json,
    decide: (Packet, int) -> Decision,
    requestId: (Text, Text, Text, seq<Text>, Text, Text) -> Text,
    lockKey: (Service, Text) -> int)

  const MAX_CANONICAL: nat := 65_536

  // ---------------------------------------------------------------- rows

  datatype Content =
    | Body(stored: Json)
    | Ruling(decision: Decision, createdAt: int)
    | Ask(requestId: Text, decisionId: Text, reasonCodes: seq<Text>)

  datatype Draft = Draft(
    service: Service, packetId: Text, digest: Text, operator: Text, session: Text, content: Content)

  datatype Row = Row(draft: Draft, at: int)

  predicate Keyed(r: Row, service: Service, packetId: Text) {
    r.draft.service == service && r.draft.packetId == packetId
  }

  /** The first row under a key. */
  function Find(rows: seq<Row>, service: Service, packetId: Text): (r: Option<Row>)
    ensures r.Some? ==> r.value in rows && Keyed(r.value, service, packetId)
    ensures r.None? ==> forall x :: x in rows ==> !Keyed(x, service, packetId)
  {
    if rows == [] then None
    else if Keyed(rows[0], service, packetId) then Some(rows[0])
    else Find(rows[1..], service, packetId)
  }

  /** A query for a packet's row that also names the owner. */
  function FindOwned(rows: seq<Row>, service: Service, packetId: Text, operator: Text): (r: Option<Row>)
    ensures r.Some? ==> r.value in rows && Keyed(r.value, service, packetId) && r.value.draft.operator == operator
    ensures r.None? ==> forall x :: x in rows && Keyed(x, service, packetId) ==> x.draft.operator != operator
  {
    if rows == [] then None
    else if Keyed(rows[0], service, packetId) && rows[0].draft.operator == operator then Some(rows[0])
    else FindOwned(rows[1..], service, packetId, operator)
  }

  /** The intake row a decision row joins with: same packet, same digest. */
  function Partner(rows: seq<Row>, d: Row): (r: Option<Row>)
    ensures r.Some? ==> r.value in rows && Keyed(r.value, Intake, d.draft.packetId) && r.value.draft.digest == d.draft.digest
    ensures r.None? ==> forall x :: x in rows && Keyed(x, Intake, d.draft.packetId) ==> x.draft.digest != d.draft.digest
  {
    if rows == [] then None
    else if Keyed(rows[0], Intake, d.draft.packetId) && rows[0].draft.digest == d.draft.digest then Some(rows[0])
    else Partner(rows[1..], d)
  }

  /** `selectDecision`: the query is a join, so a decision without an intake stays invisible. */
  function JoinedDecision(rows: seq<Row>, all: seq<Row>, packetId: Text): (r: Option<(Row, Row)>)
    ensures r.Some? ==> r.value.0 in rows && Keyed(r.value.0, Policy, packetId) && Partner(all, r.value.0) == Some(r.value.1)
    ensures r.None? ==> forall x :: x in rows && Keyed(x, Policy, packetId) ==> Partner(all, x) == None
  {
    if rows == [] then None
    else if Keyed(rows[0], Policy, packetId) && Partner(all, rows[0]).Some?
    then Some((rows[0], Partner(all, rows[0]).value))
    else JoinedDecision(rows[1..], all, packetId)
  }

  // ---------------------------------------------------------------- sessions

  datatype Operator = Operator(capabilities: set<Service>, disabledAt: Option<int>)

  datatype Session = Session(
    operator: Text, capabilities: set<Service>, issued: int, expires: int, revokedAt: Option<int>)

  // ---------------------------------------------------------------- transactions

  datatype Phase =
    | Waiting
    | Locked
    | Authorized
    | Guarded(input: Option<Row>)
    | Fresh(input: Option<Row>)
    | Found(row: Row, input: Option<Row>)
    | Inserted(row: Row, input: Option<Row>)

  datatype Stage = Opened | Checked | Loaded(input: Row)

  datatype Task =
    | Put(draft: Draft, phase: Phase)
    | Load(packetId: Text, operator: Text, session: Text, checked: bool)
    | Get(service: Service, packetId: Text, operator: Text, session: Text, stage: Stage)
    | Revoke(session: Text, at: Option<int>)
    | Answering(reply: Reply)

  datatype Code =
    | InvalidRequest | RequestTooLarge | InvalidPacket | SyntheticRequired | NotFound | NotReviewable
    | AuthorizationChanged | Conflict | Broken | InvalidSession | ExpiredSession | RevokedSession

  datatype Reply =
    | Done(service: Service, packetId: Text, session: Text, created: bool, row: Row)
    | Seen(service: Service, packetId: Text, operator: Text, session: Text, row: Row)
    | Refused(service: Service, packetId: Text, code: Code)
    | RevokeDone(session: Text)
    | RevokeRefused(session: Text, code: Code)

  datatype State = State(
    clock: int, operators: map<Text, Operator>, sessions: map<Text, Session>,
    rows: seq<Row>, tasks: map<int, Task>, log: seq<Reply>)

  /** The live-session query every transaction starts with, at the time of its statement. */
  predicate IsAuthorized(s: State, session: Text, operator: Text, service: Service) {
    && session in s.sessions && operator in s.operators
    && s.sessions[session].operator == operator
    && s.operators[operator].disabledAt.None?
    && s.sessions[session].revokedAt.None?
    && s.sessions[session].issued <= s.clock < s.sessions[session].expires
    && service in s.sessions[session].capabilities
  }

  /** A transaction keeps its advisory lock until it ends. */
  predicate HoldsLock(t: Task) { t.Put? && !t.phase.Waiting? }

  function LockKey(o: Oracle, t: Task): int
    requires t.Put?
  {
    o.lockKey(t.draft.service, t.draft.packetId)
  }

  /** After its live-session query a transaction also keeps both rows locked for sharing. */
  predicate Shares(t: Task) {
    match t
    case Put(_, phase) => !phase.Waiting? && !phase.Locked?
    case Load(_, _, _, checked) => checked
    case Get(_, _, _, _, stage) => !stage.Opened?
    case _ => false
  }

  function SessionOf(t: Task): Text
    requires Shares(t)
  {
    match t case Put(draft, _) => draft.session case Load(_, _, s, _) => s case Get(_, _, _, s, _) => s
  }

  function OperatorOf(t: Task): Text
    requires Shares(t)
  {
    match t case Put(draft, _) => draft.operator case Load(_, op, _, _) => op case Get(_, _, op, _, _) => op
  }

  function ServiceOf(t: Task): Service
    requires Shares(t)
  {
    match t case Put(draft, _) => draft.service case Load(_, _, _, _) => Policy case Get(service, _, _, _, _) => service
  }

  ghost predicate SessionShared(s: State, session: Text) {
    exists c :: c in s.tasks && Shares(s.tasks[c]) && SessionOf(s.tasks[c]) == session
  }

  ghost predicate OperatorShared(s: State, operator: Text) {
    exists c :: c in s.tasks && Shares(s.tasks[c]) && OperatorOf(s.tasks[c]) == operator
  }

  ghost predicate LockHeld(o: Oracle, s: State, key: int) {
    exists c :: c in s.tasks && HoldsLock(s.tasks[c]) && LockKey(o, s.tasks[c]) == key
  }

  // ---------------------------------------------------------------- checks on stored values

  /** `parseRow` of the intake service and `verifyPolicyInput`: the stored packet still hashes to its digest. */
  function StoredPacket(o: Oracle, r: Row): Option<Packet> {
    if !r.draft.content.Body? then None
    else
      var p := o.validate(r.draft.content.stored);
      if p.Some? && p.value.synthetic && o.hash(p.value) == r.draft.digest then p else None
  }

  function PolicyInput(o: Oracle, r: Row): Option<Packet> {
    var p := StoredPacket(o, r);
    if p.Some? && o.canonicalLength(p.value) <= MAX_CANONICAL then p else None
  }

  /** The checks each service makes on a row it reads back; a failure is an exception. */
  predicate Readable(o: Oracle, r: Row) {
    match r.draft.service
    case Intake => StoredPacket(o, r).Some?
    case Policy => r.draft.content.Ruling?
    case Approval => r.draft.content.Ask? && IsReasonCodes(r.draft.content.reasonCodes)
  }

  /** `verifyDecisionRecord`. */
  predicate VerifyDecision(row: Row, input: Row, expected: Decision, operator: Text) {
    && row.draft.content.Ruling?
    && row.draft.packetId == expected.packetId
    && row.draft.digest == input.draft.digest
    && row.draft.content.decision.decisionId == expected.decisionId
    && row.draft.operator == operator
    && row.draft.content.createdAt == input.at
    && row.draft.content.decision == expected
  }

  /** The service's own check of the row its transaction returned. */
  predicate VerifyPut(draft: Draft, row: Row, input: Option<Row>) {
    match draft.service
    case Intake => row.draft.digest == draft.digest && row.draft.operator == draft.operator
    case Policy =>
      draft.content.Ruling? && input.Some? && VerifyDecision(row, input.value, draft.content.decision, draft.operator)
    case Approval => row.draft == draft
  }

  // ---------------------------------------------------------------- statements

  function Move(s: State, c: int, t: Task): State { s.(tasks := s.tasks[c := t]) }

  /** The transaction is over and its locks are gone; the answer is still on its way. */
  function End(s: State, c: int, reply: Reply): State { Move(s, c, Answering(reply)) }

  function Answer(s: State, c: int, reply: Reply): State {
    s.(tasks := s.tasks - {c}, log := s.log + [reply])
  }

  function Outcome(draft: Draft, row: Row, input: Option<Row>, created: bool): Reply {
    if VerifyPut(draft, row, input) then Done(draft.service, draft.packetId, draft.session, created, row)
    else Refused(draft.service, draft.packetId, Conflict)
  }

  /** The checks between authorization and the lookup of an existing row. */
  function Guard(s: State, draft: Draft): (Option<Row>, Option<Code>) {
    match draft.service
    case Intake => (None, None)
    case Policy =>
      var input := FindOwned(s.rows, Intake, draft.packetId, draft.operator);
      if input.None? || input.value.draft.digest != draft.digest then (None, Some(Conflict)) else (input, None)
    case Approval =>
      var input := FindOwned(s.rows, Intake, draft.packetId, draft.operator);
      var ruling := FindOwned(s.rows, Policy, draft.packetId, draft.operator);
      if input.None? || ruling.None? || ruling.value.draft.digest != input.value.draft.digest then (None, Some(NotFound))
      else if !ruling.value.draft.content.Ruling? then (None, Some(Broken))
      else (input, Review(draft, ruling.value.draft.digest, ruling.value.draft.content.decision))
  }

  /** `selectReviewablePolicy` rejects malformed reason codes before anything looks at the decision. */
  function Review(draft: Draft, digest: Text, d: Decision): Option<Code> {
    if !IsReasonCodes(d.reasonCodes) then Some(Broken)
    else if d.kind != ApprovalRequired || !d.requiresApproval then Some(NotReviewable)
    else if !draft.content.Ask? || digest != draft.digest || d.decisionId != draft.content.decisionId
            || d.reasonCodes != draft.content.reasonCodes then Some(Conflict)
    else None
  }

  function Lookup(o: Oracle, s: State, draft: Draft, input: Option<Row>): Phase {
    match draft.service
    case Policy =>
      var joined := JoinedDecision(s.rows, s.rows, draft.packetId);
      if joined.Some? then Found(joined.value.0, Some(joined.value.1)) else Fresh(input)
    case _ =>
      var existing := Find(s.rows, draft.service, draft.packetId);
      if existing.Some? then Found(existing.value, input) else Fresh(input)
  }

  ghost function StepPut(o: Oracle, s: State, c: int, draft: Draft, phase: Phase): State {
    match phase
    case Waiting =>
      if LockHeld(o, s, o.lockKey(draft.service, draft.packetId)) then s else Move(s, c, Put(draft, Locked))
    case Locked =>
      if IsAuthorized(s, draft.session, draft.operator, draft.service) then Move(s, c, Put(draft, Authorized))
      else End(s, c, Refused(draft.service, draft.packetId, AuthorizationChanged))
    case Authorized =>
      var (input, code) := Guard(s, draft);
      if code.Some? then End(s, c, Refused(draft.service, draft.packetId, code.value))
      else Move(s, c, Put(draft, Guarded(input)))
    case Guarded(input) =>
      var next := Lookup(o, s, draft, input);
      if next.Found? && !Readable(o, next.row)
      then End(s, c, Refused(draft.service, draft.packetId, Broken))
      else Move(s, c, Put(draft, next))
    case Fresh(input) =>
      // the insert trigger repeats the live-session query; a rejection rolls back
      if !IsAuthorized(s, draft.session, draft.operator, draft.service) then s.(tasks := s.tasks - {c})
      else if !Readable(o, Row(draft, s.clock)) then End(s, c, Refused(draft.service, draft.packetId, Broken))
      else Move(s, c, Put(draft, Inserted(Row(draft, s.clock), input)))
    case Found(row, input) => End(s, c, Outcome(draft, row, input, false))
    case Inserted(row, input) => End(s, c, Outcome(draft, row, input, true)).(rows := s.rows + [row])
  }

  ghost function StepLoad(o: Oracle, s: State, c: int, packetId: Text, operator: Text, session: Text, checked: bool): State {
    if !checked then
      if IsAuthorized(s, session, operator, Policy) then Move(s, c, Load(packetId, operator, session, true))
      else End(s, c, Refused(Policy, packetId, AuthorizationChanged))
    else
      var input := FindOwned(s.rows, Intake, packetId, operator);
      if input.None? then End(s, c, Refused(Policy, packetId, NotFound))
      else
        var packet := PolicyInput(o, input.value);
        if packet.None? then End(s, c, Refused(Policy, packetId, Conflict))
        else Move(s, c, Put(RulingDraft(o, input.value, packet.value, operator, session), Waiting))
  }

  function RulingDraft(o: Oracle, input: Row, packet: Packet, operator: Text, session: Text): Draft {
    Draft(Policy, input.draft.packetId, input.draft.digest, operator, session,
          Ruling(o.decide(packet, input.at), input.at))
  }

  ghost function StepGet(o: Oracle, s: State, c: int, service: Service, packetId: Text, operator: Text, session: Text, stage: Stage): State {
    match stage
    case Opened =>
      if IsAuthorized(s, session, operator, service)
      then Move(s, c, Get(service, packetId, operator, session, Checked))
      else End(s, c, Refused(service, packetId, AuthorizationChanged))
    case Checked =>
      var found := FindOwned(s.rows, if service == Policy then Intake else service, packetId, operator);
      if found.None? then End(s, c, Refused(service, packetId, NotFound))
      else if service == Policy then Move(s, c, Get(service, packetId, operator, session, Loaded(found.value)))
      else if !Readable(o, found.value) then End(s, c, Refused(service, packetId, Broken))
      else End(s, c, Seen(service, packetId, operator, session, found.value))
    case Loaded(input) =>
      var joined := JoinedDecision(s.rows, s.rows, packetId);
      if joined.None? then End(s, c, Refused(service, packetId, NotFound))
      else
        var packet := PolicyInput(o, input);
        if packet.Some? && VerifyDecision(joined.value.0, input, o.decide(packet.value, input.at), operator)
        then End(s, c, Seen(service, packetId, operator, session, joined.value.0))
        else End(s, c, Refused(service, packetId, Conflict))
  }

  function RevokeRow(s: State, session: Text, at: int): State {
    if session in s.sessions && s.sessions[session].revokedAt.None?
    then s.(sessions := s.sessions[session := s.sessions[session].(revokedAt := Some(at))])
    else s
  }

  /** `revoke` takes the time first; its update then waits until nobody shares the session row. */
  ghost function StepRevoke(s: State, c: int, session: Text, at: Option<int>): State {
    if at.None? then Move(s, c, Revoke(session, Some(s.clock)))
    else if SessionShared(s, session) then s
    else if session !in s.sessions || s.sessions[session].revokedAt.Some?
    then End(s, c, RevokeRefused(session, RevokedSession))
    else End(RevokeRow(s, session, at.value), c, RevokeDone(session))
  }

  // ---------------------------------------------------------------- calls

  function Deny(s: State, service: Service, packetId: Text, code: Code): State {
    s.(log := s.log + [Refused(service, packetId, code)])
  }

  /** `submit`, up to its transaction. */
  function StartSubmit(o: Oracle, s: State, c: int, heap: I.Heap, body: I.Value, operator: Text, session: Text): State {
    StartBounded(o, s, c, heap, B.BoundedRequest(heap, body), operator, session)
  }

  function StartBounded(o: Oracle, s: State, c: int, heap: I.Heap, bounded: B.Bounded, operator: Text, session: Text): State {
    if bounded.TooLarge? then Deny(s, Intake, [], RequestTooLarge)
    else if bounded.Malformed? then Deny(s, Intake, [], InvalidRequest)
    else
      var packet := o.validate(PacketJson(heap, bounded.packet));
      if packet.None? then Deny(s, Intake, [], InvalidPacket)
      else if !packet.value.synthetic then Deny(s, Intake, packet.value.packetId, SyntheticRequired)
      else Move(s, c, Put(IntakeDraft(o, packet.value, operator, session), Waiting))
  }

  /** The packet as the validator sees it. */
  function PacketJson(heap: I.Heap, packet: I.Value): Json { B.ToJson(heap, packet, I.MAX_DEPTH) }

  function IntakeDraft(o: Oracle, p: Packet, operator: Text, session: Text): Draft {
    Draft(Intake, p.packetId, o.hash(p), operator, session, Body(o.stored(p)))
  }

  predicate PacketIdShape(t: Text) { Identifier(t, Ascii("pkt_"), 12, 68) }

  /** `create`, up to its transaction; `shaped` tells whether the body had exactly its four
   fields, a well-formed digest and decision id, and the one allowed action. */
  function StartCreate(o: Oracle, s: State, c: int, packetId: Text, shaped: bool, digest: Text, decisionId: Text,
                       reasonCodes: seq<Text>, operator: Text, session: Text): State {
    if !PacketIdShape(packetId) || !shaped || !IsReasonCodes(reasonCodes)
    then Deny(s, Approval, packetId, InvalidRequest)
    else Move(s, c, Put(AskDraft(o, packetId, digest, decisionId, reasonCodes, operator, session), Waiting))
  }

  function AskDraft(o: Oracle, packetId: Text, digest: Text, decisionId: Text, reasonCodes: seq<Text>,
                    operator: Text, session: Text): Draft {
    Draft(Approval, packetId, digest, operator, session,
          Ask(o.requestId(packetId, digest, decisionId, reasonCodes, operator, session), decisionId, reasonCodes))
  }

  /** `verifyToken` for `revoke`; `presented` tells whether token and proof match the stored digests. */
  function StartRevoke(s: State, c: int, session: Text, presented: bool): State {
    if !presented || session !in s.sessions || s.sessions[session].operator !in s.operators
       || s.operators[s.sessions[session].operator].disabledAt.Some?
    then s.(log := s.log + [RevokeRefused(session, InvalidSession)])
    else if s.sessions[session].revokedAt.Some? then s.(log := s.log + [RevokeRefused(session, RevokedSession)])
    else if s.clock >= s.sessions[session].expires then s.(log := s.log + [RevokeRefused(session, ExpiredSession)])
    else Move(s, c, Revoke(session, None))
  }

  /** The insert of `issue`. */
  function IssueSession(s: State, session: Text, operator: Text, seconds: int): State {
    if session in s.sessions || operator !in s.operators || !(60 <= seconds <= 3600) then s
    else s.(sessions := s.sessions[session :=
              Session(operator, s.operators[operator].capabilities, s.clock, s.clock + seconds * 1000, None)])
  }

  datatype Action =
    | Tick(to: int)
    | Issue(session: Text, operator: Text, seconds: int)
    | Disable(operator: Text, at: int)
    | Submit(client: int, heap: I.Heap, body: I.Value, operator: Text, session: Text)
    | Evaluate(client: int, packetId: Text, operator: Text, session: Text)
    | Create(client: int, packetId: Text, shaped: bool, digest: Text, decisionId: Text, reasonCodes: seq<Text>,
             operator: Text, session: Text)
    | Read(client: int, service: Service, packetId: Text, operator: Text, session: Text)
    | AskRevoke(client: int, session: Text, presented: bool)
    | Advance(client: int)
    | Abort(client: int)

  predicate IsCall(a: Action) { a.Submit? || a.Evaluate? || a.Create? || a.Read? || a.AskRevoke? }

  /** A client without a call in flight starts one. */
  function StartCall(o: Oracle, s: State, a: Action): State
    requires IsCall(a)
  {
    match a
    case Submit(c, heap, body, operator, session) => StartSubmit(o, s, c, heap, body, operator, session)
    case Evaluate(c, packetId, operator, session) =>
      if !PacketIdShape(packetId) then Deny(s, Policy, packetId, InvalidRequest)
      else Move(s, c, Load(packetId, operator, session, false))
    case Create(c, packetId, shaped, digest, decisionId, reasonCodes, operator, session) =>
      StartCreate(o, s, c, packetId, shaped, digest, decisionId, reasonCodes, operator, session)
    case Read(c, service, packetId, operator, session) =>
      if !PacketIdShape(packetId) then Deny(s, service, packetId, InvalidRequest)
      else Move(s, c, Get(service, packetId, operator, session, Opened))
    case AskRevoke(c, session, presented) => StartRevoke(s, c, session, presented)
  }

  /** The next statement of a call in flight. */
  ghost function StepTask(o: Oracle, s: State, c: int): State
    requires c in s.tasks
  {
    match s.tasks[c]
    case Put(draft, phase) => StepPut(o, s, c, draft, phase)
    case Load(packetId, operator, session, checked) => StepLoad(o, s, c, packetId, operator, session, checked)
    case Get(service, packetId, operator, session, stage) => StepGet(o, s, c, service, packetId, operator, session, stage)
    case Revoke(session, at) => StepRevoke(s, c, session, at)
    case Answering(reply) => Answer(s, c, reply)
  }

  /** Time, new sessions and disabled operators come from outside. */
  ghost function StepOutside(s: State, a: Action): State
    requires a.Tick? || a.Issue? || a.Disable?
  {
    match a
    case Tick(to) => if to < s.clock then s else s.(clock := to)
    case Issue(session, operator, seconds) =>
      // that the operator is enabled was an earlier statement and may no longer be so
      IssueSession(s, session, operator, seconds)
    case Disable(operator, at) =>
      if operator !in s.operators || s.operators[operator].disabledAt.Some? || OperatorShared(s, operator) then s
      else s.(operators := s.operators[operator := s.operators[operator].(disabledAt := Some(at))])
  }

  /** One step of one client or of the environment. A step that is not possible changes nothing. */
  ghost function Step(o: Oracle, s: State, a: Action): State {
    if IsCall(a) then (if a.client in s.tasks then s else StartCall(o, s, a))
    else if a.Advance? then (if a.client in s.tasks then StepTask(o, s, a.client) else s)
    else if a.Abort? then s.(tasks := s.tasks - {a.client})
    else StepOutside(s, a)
  }

  /** A run: any steps of any clients in any order. */
  ghost function Run(o: Oracle, s: State, actions: seq<Action>): State {
    if actions == [] then s else Step(o, Run(o, s, actions[..|actions| - 1]), actions[|actions| - 1])
  }

  predicate Initial(s: State) { s.rows == [] && s.tasks == map[] && s.log == [] }
}
