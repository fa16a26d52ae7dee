/**
 What holds of every run of the control plane: any number of clients, any interleaving of
 their statements, crashes at any point, and advisory lock keys that may collide.
 */
module ControlRuns {
  import opened Texts
  import opened Json
  import opened ControlPolicy
  import opened ControlPlane
  import opened ControlInvariant
  import opened ControlSteps
  import I = Inspector
  import B = IntakeBody

  // ---------------------------------------------------------------- the invariant over runs

  lemma LogEntryKeeps(o: Oracle, s: State, reply: Reply)
    requires Invariant(o, s) && ReplySound(s, reply) && !IsClaim(reply)
    ensures Invariant(o, s.(log := s.log + [reply]))
  {
    var t := s.(log := s.log + [reply]);
    SameTime(s, t);
    forall d | d in t.tasks ensures TaskSound(o, t, t.tasks[d]) { TaskStaysSound(o, s, t, d); }
    forall r | r in t.rows ensures RowAuthorized(t, r) { RowStaysAuthorized(s, t, r); }
    forall i | 0 <= i < |t.log| ensures ReplySound(t, t.log[i]) { ReplyStaysSound(s, t, t.log[i]); }
  }

  lemma SubmittedSound(o: Oracle, rows: seq<Row>, heap: I.Heap, body: I.Value, p: Packet, operator: Text, session: Text)
    requires Faithful(o) && B.BoundedRequest(heap, body).Fits? && p.synthetic
    requires o.validate(PacketJson(heap, B.BoundedRequest(heap, body).packet)) == Some(p)
    ensures DraftSound(o, rows, IntakeDraft(o, p, operator, session))
  {
    B.PacketTextFits(heap, body);
    assert StoredPacket(o, Row(IntakeDraft(o, p, operator, session), 0)) == Some(p);
  }

  lemma SubmitKeeps(o: Oracle, s: State, c: int, heap: I.Heap, body: I.Value, operator: Text, session: Text)
    requires Faithful(o) && Invariant(o, s) && c !in s.tasks
    ensures Invariant(o, StartSubmit(o, s, c, heap, body, operator, session))
  {
    var bounded := B.BoundedRequest(heap, body);
    if bounded.TooLarge? {
      LogEntryKeeps(o, s, Refused(Intake, [], RequestTooLarge));
    } else if bounded.Malformed? {
      LogEntryKeeps(o, s, Refused(Intake, [], InvalidRequest));
    } else if o.validate(PacketJson(heap, bounded.packet)).None? {
      LogEntryKeeps(o, s, Refused(Intake, [], InvalidPacket));
    } else {
      var p := o.validate(PacketJson(heap, bounded.packet)).value;
      if !p.synthetic {
        LogEntryKeeps(o, s, Refused(Intake, p.packetId, SyntheticRequired));
      } else {
        SubmittedSound(o, s.rows, heap, body, p, operator, session);
        MoveKeeps(o, s, c, Put(IntakeDraft(o, p, operator, session), Waiting));
      }
    }
  }

  lemma CreateKeeps(o: Oracle, s: State, c: int, packetId: Text, shaped: bool, digest: Text, decisionId: Text,
                    reasonCodes: seq<Text>, operator: Text, session: Text)
    requires Invariant(o, s) && c !in s.tasks
    ensures Invariant(o, StartCreate(o, s, c, packetId, shaped, digest, decisionId, reasonCodes, operator, session))
  {
    if !PacketIdShape(packetId) || !shaped || !IsReasonCodes(reasonCodes) {
      LogEntryKeeps(o, s, Refused(Approval, packetId, InvalidRequest));
    } else {
      MoveKeeps(o, s, c, Put(AskDraft(o, packetId, digest, decisionId, reasonCodes, operator, session), Waiting));
    }
  }

  lemma AskRevokeKeeps(o: Oracle, s: State, c: int, session: Text, presented: bool)
    requires Invariant(o, s) && c !in s.tasks
    ensures Invariant(o, StartRevoke(s, c, session, presented))
  {
    LogEntryKeeps(o, s, RevokeRefused(session, InvalidSession));
    LogEntryKeeps(o, s, RevokeRefused(session, RevokedSession));
    LogEntryKeeps(o, s, RevokeRefused(session, ExpiredSession));
    MoveKeeps(o, s, c, Revoke(session, None));
  }

  lemma OutsideKeeps(o: Oracle, s: State, a: Action)
    requires Invariant(o, s) && (a.Tick? || a.Issue? || a.Disable?)
    ensures Invariant(o, StepOutside(s, a))
  {
    var t := StepOutside(s, a);
    assert Later(s, t);
    QuietStep(o, s, t);
  }

  lemma TaskKeeps(o: Oracle, s: State, c: int)
    requires Faithful(o) && Invariant(o, s) && c in s.tasks
    ensures Invariant(o, StepTask(o, s, c))
  {
    match s.tasks[c]
    case Put(draft, phase) => PutKeeps(o, s, c, draft, phase);
    case Load(packetId, operator, session, checked) => LoadKeeps(o, s, c, packetId, operator, session, checked);
    case Get(service, packetId, operator, session, stage) => GetKeeps(o, s, c, service, packetId, operator, session, stage);
    case Revoke(session, at) => RevokeKeeps(o, s, c, session, at);
    case Answering(_) => AnswerKeeps(o, s, c);
  }

  lemma CallKeeps(o: Oracle, s: State, a: Action)
    requires Faithful(o) && Invariant(o, s) && IsCall(a) && a.client !in s.tasks
    ensures Invariant(o, StartCall(o, s, a))
  {
    match a
    case Submit(c, heap, body, operator, session) => SubmitKeeps(o, s, c, heap, body, operator, session);
    case Evaluate(c, packetId, operator, session) =>
      LogEntryKeeps(o, s, Refused(Policy, packetId, InvalidRequest));
      MoveKeeps(o, s, c, Load(packetId, operator, session, false));
    case Create(c, packetId, shaped, digest, decisionId, reasonCodes, operator, session) =>
      CreateKeeps(o, s, c, packetId, shaped, digest, decisionId, reasonCodes, operator, session);
    case Read(c, service, packetId, operator, session) =>
      LogEntryKeeps(o, s, Refused(service, packetId, InvalidRequest));
      MoveKeeps(o, s, c, Get(service, packetId, operator, session, Opened));
    case AskRevoke(c, session, presented) => AskRevokeKeeps(o, s, c, session, presented);
  }

  /** Every step of every client keeps the invariant. */
  lemma StepKeeps(o: Oracle, s: State, a: Action)
    requires Faithful(o) && Invariant(o, s)
    ensures Invariant(o, Step(o, s, a))
  {
    if IsCall(a) {
      if a.client !in s.tasks { CallKeeps(o, s, a); }
    } else if a.Advance? {
      if a.client in s.tasks { TaskKeeps(o, s, a.client); }
    } else if a.Abort? {
      AbortKeeps(o, s, a.client);
    } else {
      OutsideKeeps(o, s, a);
    }
  }

  lemma {:induction false} RunKeeps(o: Oracle, s: State, actions: seq<Action>)
    requires Faithful(o) && Invariant(o, s)
    ensures Invariant(o, Run(o, s, actions))
  {
    if actions != [] {
      RunKeeps(o, s, actions[..|actions| - 1]);
      StepKeeps(o, Run(o, s, actions[..|actions| - 1]), actions[|actions| - 1]);
    }
  }

  lemma InitiallyInvariant(o: Oracle, s: State)
    requires Initial(s)
    ensures Invariant(o, s)
  {
  }

  /** Every reachable state satisfies the invariant. */
  lemma ReachableInvariant(o: Oracle, s: State, actions: seq<Action>)
    requires Faithful(o) && Initial(s)
    ensures Invariant(o, Run(o, s, actions))
  {
    InitiallyInvariant(o, s);
    RunKeeps(o, s, actions);
  }

  // ---------------------------------------------------------------- uniqueness and permanence

  ghost predicate Extends(s: State, t: State) { s.rows <= t.rows && s.log <= t.log }

  lemma PutAppends(o: Oracle, s: State, c: int, draft: Draft, phase: Phase)
    ensures Extends(s, StepPut(o, s, c, draft, phase))
  {
  }

  lemma GetAppends(o: Oracle, s: State, c: int, service: Service, packetId: Text, operator: Text, session: Text, stage: Stage)
    ensures Extends(s, StepGet(o, s, c, service, packetId, operator, session, stage))
  {
  }

  lemma TaskAppends(o: Oracle, s: State, c: int)
    requires c in s.tasks
    ensures Extends(s, StepTask(o, s, c))
  {
    match s.tasks[c]
    case Put(draft, phase) => PutAppends(o, s, c, draft, phase);
    case Get(service, packetId, operator, session, stage) => GetAppends(o, s, c, service, packetId, operator, session, stage);
    case _ =>
  }

  lemma SubmitAppends(o: Oracle, s: State, c: int, heap: I.Heap, bounded: B.Bounded, operator: Text, session: Text)
    ensures var t := StartBounded(o, s, c, heap, bounded, operator, session); Extends(s, t) && SameTables(s, t)
  {
  }

  lemma CreateAppends(o: Oracle, s: State, c: int, packetId: Text, shaped: bool, digest: Text, decisionId: Text,
                      reasonCodes: seq<Text>, operator: Text, session: Text)
    ensures var t := StartCreate(o, s, c, packetId, shaped, digest, decisionId, reasonCodes, operator, session);
            Extends(s, t) && SameTables(s, t)
  {
  }

  /** Starting a call touches no table. */
  lemma CallAppends(o: Oracle, s: State, a: Action)
    requires IsCall(a)
    ensures Extends(s, StartCall(o, s, a)) && SameTables(s, StartCall(o, s, a))
  {
    match a
    case Submit(c, heap, body, operator, session) =>
      SubmitAppends(o, s, c, heap, B.BoundedRequest(heap, body), operator, session);
    case Create(c, packetId, shaped, digest, decisionId, reasonCodes, operator, session) =>
      CreateAppends(o, s, c, packetId, shaped, digest, decisionId, reasonCodes, operator, session);
    case _ =>
  }

  /** Rows, sessions and operators are the same. */
  ghost predicate SameTables(s: State, t: State) {
    t.rows == s.rows && t.sessions == s.sessions && t.operators == s.operators
  }

  lemma StepAppends(o: Oracle, s: State, a: Action)
    ensures Extends(s, Step(o, s, a))
  {
    if IsCall(a) { CallAppends(o, s, a); }
    else if a.Advance? && a.client in s.tasks { TaskAppends(o, s, a.client); }
  }

  /** Rows and answers are only ever added at the end; what is there stays as it is. */
  lemma {:induction false} RowsAreForever(o: Oracle, s: State, actions: seq<Action>)
    ensures Extends(s, Run(o, s, actions))
  {
    if actions != [] {
      RowsAreForever(o, s, actions[..|actions| - 1]);
      var m := Run(o, s, actions[..|actions| - 1]);
      StepAppends(o, m, actions[|actions| - 1]);
    }
  }

  /** Each table holds at most one row per packet, whatever the lock keys collide with. */
  lemma OneRowPerPacket(o: Oracle, s: State, actions: seq<Action>)
    requires Faithful(o) && Initial(s)
    ensures var rows := Run(o, s, actions).rows;
            forall i, j :: 0 <= i < j < |rows| && rows[i].draft.service == rows[j].draft.service ==>
              rows[i].draft.packetId != rows[j].draft.packetId
  {
    ReachableInvariant(o, s, actions);
    var rows := Run(o, s, actions).rows;
    forall i, j | 0 <= i < j < |rows| && rows[i].draft.service == rows[j].draft.service
      ensures rows[i].draft.packetId != rows[j].draft.packetId
    {
      assert !Keyed(rows[j], rows[i].draft.service, rows[i].draft.packetId);
    }
  }

  // ---------------------------------------------------------------- the chain behind a request

  /** `r` is an approval request, `d` the decision and `i` the intake it rests on. */
  ghost predicate Chain(o: Oracle, i: Row, d: Row, r: Row) {
    && Keyed(i, Intake, r.draft.packetId) && Keyed(d, Policy, r.draft.packetId)
    && i.draft.digest == d.draft.digest == r.draft.digest
    && i.draft.operator == d.draft.operator == r.draft.operator
    && r.draft.content.Ask? && d.draft.content.Ruling? && i.draft.content.Body?
    && Reviewed(o, i, d.draft.content.decision, r)
  }

  /** The decision is the policy function's on the stored packet, and the request repeats it. */
  ghost predicate Reviewed(o: Oracle, i: Row, decision: Decision, r: Row)
    requires i.draft.content.Body? && r.draft.content.Ask?
  {
    && decision.decisionId == r.draft.content.decisionId
    && decision.reasonCodes == r.draft.content.reasonCodes
    && decision.kind == ApprovalRequired && decision.requiresApproval
    && o.validate(i.draft.content.stored).Some?
    && decision == o.decide(o.validate(i.draft.content.stored).value, i.at)
    && o.hash(o.validate(i.draft.content.stored).value) == r.draft.digest
  }

  /** Every request rests on a decision that asked for approval, made from the stored packet. */
  lemma RequestsRestOnDecisions(o: Oracle, s: State, actions: seq<Action>, r: Row)
    requires Faithful(o) && Initial(s)
    requires r in Run(o, s, actions).rows && r.draft.service == Approval
    ensures exists i, d :: i in Run(o, s, actions).rows && d in Run(o, s, actions).rows && Chain(o, i, d, r)
  {
    ReachableInvariant(o, s, actions);
    var rows := Run(o, s, actions).rows;
    assert RowSound(o, rows, r);
    var i, d := Find(rows, Intake, r.draft.packetId).value, Find(rows, Policy, r.draft.packetId).value;
    assert RowSound(o, rows, d) && RowSound(o, rows, i);
    assert Chain(o, i, d, r);
  }

  // ---------------------------------------------------------------- answers

  /** No call of the policy service is ever answered `conflict`, and no stored row proves unreadable. */
  lemma PolicyNeverConflicts(o: Oracle, s: State, actions: seq<Action>, k: nat)
    requires Faithful(o) && Initial(s) && k < |Run(o, s, actions).log|
    ensures var reply := Run(o, s, actions).log[k];
            reply.Refused? && reply.service == Policy ==> reply.code != Conflict && reply.code != Broken
    ensures var reply := Run(o, s, actions).log[k];
            reply.Refused? && reply.service == Intake ==> reply.code != Broken
  {
    ReachableInvariant(o, s, actions);
    assert ReplySound(Run(o, s, actions), Run(o, s, actions).log[k]);
  }

  predicate Succeeds(r: Reply, service: Service, packetId: Text) {
    (r.Done? || r.Seen?) && r.service == service && r.packetId == packetId
  }

  /** At most one call per packet and service creates, and all successes return the same row. */
  lemma CreatedOnce(o: Oracle, s: State, actions: seq<Action>, j: nat, k: nat, service: Service, packetId: Text)
    requires Faithful(o) && Initial(s) && j < k < |Run(o, s, actions).log|
    requires Succeeds(Run(o, s, actions).log[j], service, packetId)
    requires Succeeds(Run(o, s, actions).log[k], service, packetId)
    ensures var log := Run(o, s, actions).log;
            log[j].row == log[k].row && !(Creates(log[j], service, packetId) && Creates(log[k], service, packetId))
  {
    ReachableInvariant(o, s, actions);
    var t := Run(o, s, actions);
    assert ReplySound(t, t.log[j]) && ReplySound(t, t.log[k]);
  }

  // ---------------------------------------------------------------- authorization

  /** Events that have happened in `s` stand unchanged in `t`. */
  ghost predicate EventsKept(s: State, t: State) {
    && (forall x :: x in s.sessions && s.sessions[x].revokedAt.Some? ==>
          x in t.sessions && t.sessions[x] == s.sessions[x])
    && (forall x :: x in s.operators && s.operators[x].disabledAt.Some? ==>
          x in t.operators && t.operators[x] == s.operators[x])
  }

  lemma PutEvents(o: Oracle, s: State, c: int, draft: Draft, phase: Phase)
    ensures EventsKept(s, StepPut(o, s, c, draft, phase))
  {
  }

  lemma GetEvents(o: Oracle, s: State, c: int, service: Service, packetId: Text, operator: Text, session: Text, stage: Stage)
    ensures EventsKept(s, StepGet(o, s, c, service, packetId, operator, session, stage))
  {
  }

  lemma TaskEvents(o: Oracle, s: State, c: int)
    requires c in s.tasks
    ensures EventsKept(s, StepTask(o, s, c))
  {
    match s.tasks[c]
    case Put(draft, phase) => PutEvents(o, s, c, draft, phase);
    case Get(service, packetId, operator, session, stage) => GetEvents(o, s, c, service, packetId, operator, session, stage);
    case _ =>
  }

  /** A revocation is final, and so is disabling an operator. */
  lemma EventsStay(o: Oracle, s: State, a: Action)
    ensures EventsKept(s, Step(o, s, a))
  {
    if IsCall(a) { CallAppends(o, s, a); }
    else if a.Advance? && a.client in s.tasks { TaskEvents(o, s, a.client); }
  }

  lemma PutWrites(o: Oracle, s: State, c: int, draft: Draft, phase: Phase)
    ensures StepPut(o, s, c, draft, phase).rows == if phase.Inserted? then s.rows + [phase.row] else s.rows
  {
  }

  lemma OthersWriteNothing(o: Oracle, s: State, c: int)
    requires c in s.tasks && !s.tasks[c].Put?
    ensures StepTask(o, s, c).rows == s.rows
  {
  }

  /** A step that writes a row writes it under a session that is unrevoked at that very step. */
  lemma WritesAreLive(o: Oracle, s: State, a: Action)
    requires Invariant(o, s)
    ensures var t := Step(o, s, a);
            || t.rows == s.rows
            || exists r :: t.rows == s.rows + [r] && Held(s, r.draft.session, r.draft.operator, r.draft.service)
  {
    if IsCall(a) {
      CallAppends(o, s, a);
    } else if a.Advance? && a.client in s.tasks {
      var k := s.tasks[a.client];
      assert TaskSound(o, s, k);
      if k.Put? { PutWrites(o, s, a.client, k.draft, k.phase); } else { OthersWriteNothing(o, s, a.client); }
    }
  }

  /**
   Once a session is revoked, no transaction commits a row under it, including those that
   were already under way when it was revoked.
   */
  lemma {:induction false} NothingAfterRevocation(o: Oracle, s: State, actions: seq<Action>, session: Text)
    requires Faithful(o) && Invariant(o, s)
    requires session in s.sessions && s.sessions[session].revokedAt.Some?
    ensures var t := Run(o, s, actions);
            && session in t.sessions && t.sessions[session] == s.sessions[session]
            && forall i :: |s.rows| <= i < |t.rows| ==> t.rows[i].draft.session != session
  {
    if actions != [] {
      var before := actions[..|actions| - 1];
      var m := Run(o, s, before);
      NothingAfterRevocation(o, s, before, session);
      RunKeeps(o, s, before);
      RowsAreForever(o, s, before);
      EventsStay(o, m, actions[|actions| - 1]);
      WritesAreLive(o, m, actions[|actions| - 1]);
    }
  }

  lemma {:induction false} NothingAfterDisabling(o: Oracle, s: State, actions: seq<Action>, operator: Text)
    requires Faithful(o) && Invariant(o, s)
    requires operator in s.operators && s.operators[operator].disabledAt.Some?
    ensures var t := Run(o, s, actions);
            && operator in t.operators && t.operators[operator] == s.operators[operator]
            && forall i :: |s.rows| <= i < |t.rows| ==> t.rows[i].draft.operator != operator
  {
    if actions != [] {
      var before := actions[..|actions| - 1];
      var m := Run(o, s, before);
      NothingAfterDisabling(o, s, before, operator);
      RunKeeps(o, s, before);
      RowsAreForever(o, s, before);
      EventsStay(o, m, actions[|actions| - 1]);
      WritesAreLive(o, m, actions[|actions| - 1]);
    }
  }

  /** At most one revocation of a session succeeds. */
  lemma RevokedOnce(o: Oracle, s: State, actions: seq<Action>, j: nat, k: nat, session: Text)
    requires Faithful(o) && Initial(s) && j < k < |Run(o, s, actions).log|
    ensures !(Run(o, s, actions).log[j] == RevokeDone(session) && Run(o, s, actions).log[k] == RevokeDone(session))
  {
    ReachableInvariant(o, s, actions);
  }
}
