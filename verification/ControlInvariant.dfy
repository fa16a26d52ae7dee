/**
 What every reachable state of the control plane satisfies, and the proof that every step
 keeps it.
 */
module ControlInvariant {
  import opened Texts
  import opened Json
  import opened ControlPolicy
  import opened ControlPlane
  import I = Inspector
  import B = IntakeBody

  // ---------------------------------------------------------------- assumptions

  /** Storing a packet as jsonb and reading it back gives a packet equal to it. */
  ghost predicate StorageFaithful(o: Oracle) {
    forall v :: o.validate(v).Some? ==> o.validate(o.stored(o.validate(v).value)) == o.validate(v)
  }

  /** The canonical text of a packet is no longer than the JSON text it was read from. */
  ghost predicate CanonicalBounded(o: Oracle) {
    forall heap, v :: o.validate(PacketJson(heap, v)).Some? ==>
      o.canonicalLength(o.validate(PacketJson(heap, v)).value) <= |B.PacketText(heap, v)|
  }

  ghost predicate DecisionSound(p: Packet, d: Decision) {
    && d.packetId == p.packetId
    && (d.requiresApproval <==> d.kind == ApprovalRequired)
    && (IsReasonCodes(d.reasonCodes) <==> d.kind != Allow)
  }

  ghost predicate PolicySound(o: Oracle) { forall p, t :: DecisionSound(p, o.decide(p, t)) }

  ghost predicate Faithful(o: Oracle) { StorageFaithful(o) && CanonicalBounded(o) && PolicySound(o) }

  /** The repository's own policy function needs no assumption. */
  lemma RepositoryPolicySound(o: Oracle)
    requires forall p, t :: o.decide(p, t) == Decide(p, t)
    ensures PolicySound(o)
  {
    forall p, t ensures DecisionSound(p, o.decide(p, t)) {
      DecideMeaning(p, t);
    }
  }

  /** The assumptions can hold together, with the repository's policy and any one packet accepted. */
  lemma AssumptionsConsistent(p: Packet, digest: Text) returns (o: Oracle)
    ensures Faithful(o) && (forall v :: o.validate(v) == Some(p)) && o.hash(p) == digest
    ensures forall q, t :: o.decide(q, t) == Decide(q, t)
  {
    o := Oracle(_ => Some(p), _ => digest, _ => 0, _ => Null,
                (q, t) => Decide(q, t), (_, _, _, _, _, _) => digest, (_, _) => 0);
    RepositoryPolicySound(o);
  }

  // ---------------------------------------------------------------- rows

  ghost predicate Unique(rows: seq<Row>) {
    forall i, j :: 0 <= i < j < |rows| ==>
      !Keyed(rows[j], rows[i].draft.service, rows[i].draft.packetId)
  }

  /** A stored intake still yields the packet it was made from. */
  ghost predicate IntakeSound(o: Oracle, r: Row) {
    && PolicyInput(o, r).Some?
    && PolicyInput(o, r).value.packetId == r.draft.packetId
  }

  /** `i` is the intake that a draft of a later service is about. */
  ghost predicate About(rows: seq<Row>, d: Draft, i: Row) {
    && Find(rows, Intake, d.packetId) == Some(i)
    && i.draft.digest == d.digest && i.draft.operator == d.operator
  }

  /** The decision is the policy function's on the stored packet at its acceptance time. */
  ghost predicate RulingSound(o: Oracle, rows: seq<Row>, d: Draft) {
    var i := Find(rows, Intake, d.packetId);
    && d.content.Ruling?
    && i.Some? && About(rows, d, i.value)
    && PolicyInput(o, i.value).Some?
    && d.content.decision == o.decide(PolicyInput(o, i.value).value, i.value.at)
    && d.content.createdAt == i.value.at
  }

  ghost predicate AskWritten(o: Oracle, d: Draft) {
    && d.content.Ask?
    && d.content.requestId
       == o.requestId(d.packetId, d.digest, d.content.decisionId, d.content.reasonCodes, d.operator, d.session)
    && IsReasonCodes(d.content.reasonCodes)
  }

  /** The request names a decision that asks for approval, for the same reasons. */
  ghost predicate AskSound(o: Oracle, rows: seq<Row>, d: Draft) {
    var i, r := Find(rows, Intake, d.packetId), Find(rows, Policy, d.packetId);
    && AskWritten(o, d)
    && i.Some? && About(rows, d, i.value)
    && r.Some? && r.value.draft.digest == d.digest && r.value.draft.operator == d.operator
    && r.value.draft.content.Ruling?
    && var ruling := r.value.draft.content.decision;
       && ruling.kind == ApprovalRequired && ruling.requiresApproval
       && ruling.decisionId == d.content.decisionId && ruling.reasonCodes == d.content.reasonCodes
  }

  ghost predicate RowSound(o: Oracle, rows: seq<Row>, r: Row) {
    match r.draft.service
    case Intake => IntakeSound(o, r)
    case Policy => RulingSound(o, rows, r.draft)
    case Approval => AskSound(o, rows, r.draft)
  }

  /** What a row's session has to say about it for good: owner, capability and validity window. */
  ghost predicate RowAuthorized(s: State, r: Row) {
    && r.at <= s.clock
    && r.draft.session in s.sessions && WrittenUnder(s.sessions[r.draft.session], r)
    && r.draft.operator in s.operators
  }

  predicate WrittenUnder(session: Session, r: Row) {
    && session.operator == r.draft.operator
    && r.draft.service in session.capabilities
    && session.issued <= r.at < session.expires
  }

  // ---------------------------------------------------------------- tasks

  /** Rows locked for sharing: the session stays unrevoked and its operator enabled. */
  ghost predicate Held(s: State, session: Text, operator: Text, service: Service) {
    && session in s.sessions && operator in s.operators
    && s.sessions[session].operator == operator && service in s.sessions[session].capabilities
    && s.sessions[session].revokedAt.None? && s.operators[operator].disabledAt.None?
  }

  ghost predicate DraftSound(o: Oracle, rows: seq<Row>, d: Draft) {
    match d.service
    case Intake => IntakeSound(o, Row(d, 0))
    case Policy => RulingSound(o, rows, d)
    case Approval => AskWritten(o, d)
  }

  /** What the guard of a transaction has established. */
  ghost predicate Passed(o: Oracle, rows: seq<Row>, d: Draft, input: Option<Row>) {
    match d.service
    case Intake => true
    case Policy => input == Find(rows, Intake, d.packetId)
    case Approval => AskSound(o, rows, d)
  }

  ghost predicate PhaseSound(o: Oracle, s: State, d: Draft, phase: Phase) {
    match phase
    case Waiting => true
    case Locked => true
    case Authorized => true
    case Guarded(input) => Passed(o, s.rows, d, input)
    case Fresh(input) => Passed(o, s.rows, d, input) && Find(s.rows, d.service, d.packetId) == None
    case Found(row, input) => Passed(o, s.rows, d, input) && Find(s.rows, d.service, d.packetId) == Some(row)
    case Inserted(row, input) =>
      && Passed(o, s.rows, d, input) && Find(s.rows, d.service, d.packetId) == None
      && row.draft == d && RowAuthorized(s, row)
  }

  ghost predicate TaskSound(o: Oracle, s: State, t: Task) {
    && (Shares(t) ==> Held(s, SessionOf(t), OperatorOf(t), ServiceOf(t)))
    && match t
       case Put(draft, phase) => DraftSound(o, s.rows, draft) && PhaseSound(o, s, draft, phase)
       case Load(_, _, _, _) => true
       case Get(service, packetId, operator, _, stage) =>
         stage.Loaded? ==> service == Policy && Find(s.rows, Intake, packetId) == Some(stage.input)
                           && stage.input.draft.operator == operator
       case Revoke(_, at) => at.Some? ==> at.value <= s.clock
       case Answering(reply) => ReplySound(s, reply)
  }

  // ---------------------------------------------------------------- replies

  /** A row is only shown to a session of the operator it belongs to, with the service's capability. */
  predicate OwnerAnswered(s: State, session: Text, service: Service, row: Row) {
    && session in s.sessions && s.sessions[session].operator == row.draft.operator
    && service in s.sessions[session].capabilities
  }

  ghost predicate ReplySound(s: State, r: Reply) {
    match r
    case Done(service, packetId, session, created, row) =>
      && Find(s.rows, service, packetId) == Some(row)
      && OwnerAnswered(s, session, service, row)
      && (service == Approval || created ==> row.draft.session == session)
    case Seen(service, packetId, operator, session, row) =>
      && Find(s.rows, service, packetId) == Some(row) && row.draft.operator == operator
      && OwnerAnswered(s, session, service, row)
    case Refused(service, _, code) =>
      && (service == Policy ==> code != Conflict)
      && (service != Approval ==> code != Broken)
    case RevokeDone(session) => session in s.sessions && s.sessions[session].revokedAt.Some?
    case RevokeRefused(_, _) => true
  }

  predicate Creates(r: Reply, service: Service, packetId: Text) {
    r.Done? && r.created && r.service == service && r.packetId == packetId
  }

  /** Both answers claim what only one call may claim: the same creation or the same revocation. */
  predicate SameClaim(a: Reply, b: Reply) {
    (a.Done? && a.created && Creates(b, a.service, a.packetId)) || (a.RevokeDone? && a == b)
  }

  /** No claim is made twice, be the answers given or still on their way. */
  ghost predicate ClaimsOnce(s: State) {
    && (forall i, j :: 0 <= i < j < |s.log| ==> !SameClaim(s.log[i], s.log[j]))
    && (forall i, c :: 0 <= i < |s.log| && c in s.tasks && s.tasks[c].Answering? ==> !SameClaim(s.log[i], s.tasks[c].reply))
    && (forall c, d :: c in s.tasks && d in s.tasks && c != d && s.tasks[c].Answering? && s.tasks[d].Answering? ==>
          !SameClaim(s.tasks[c].reply, s.tasks[d].reply))
  }

  // ---------------------------------------------------------------- the invariant

  ghost predicate RowsSound(o: Oracle, s: State) {
    && Unique(s.rows)
    && (forall r :: r in s.rows ==> RowSound(o, s.rows, r) && RowAuthorized(s, r))
  }

  ghost predicate TasksSound(o: Oracle, s: State) { forall c :: c in s.tasks ==> TaskSound(o, s, s.tasks[c]) }

  /** Two transactions that hold an advisory lock hold different keys. */
  ghost predicate LocksExclusive(o: Oracle, tasks: map<int, Task>) {
    forall c, d :: c in tasks && d in tasks && c != d && HoldsLock(tasks[c]) && HoldsLock(tasks[d]) ==>
      LockKey(o, tasks[c]) != LockKey(o, tasks[d])
  }

  ghost predicate LogSound(s: State) {
    ClaimsOnce(s) && forall i :: 0 <= i < |s.log| ==> ReplySound(s, s.log[i])
  }

  ghost predicate Invariant(o: Oracle, s: State) {
    RowsSound(o, s) && TasksSound(o, s) && LocksExclusive(o, s.tasks) && LogSound(s)
  }
}
