/**
 Where everything comes from: every row, every answer and every session of a run goes back to
 the call that asked for it, with what that call brought along.
 */
module ControlCalls {
  import opened Texts
  import opened ControlPolicy
  import opened ControlPlane
  import opened ControlInvariant
  import opened ControlSteps
  import opened ControlRuns
  import opened ControlHistory
  import opened ControlReplay
  import opened ControlReads
  import I = Inspector
  import B = IntakeBody
  import R = JsonReader

  // ---------------------------------------------------------------- what a call brings

  /** The packet a submitted body holds: what the validator makes of the JSON text of its one property. */
  function SubmittedPacket(o: Oracle, heap: I.Heap, body: I.Value): Option<Packet> {
    var bounded := B.BoundedRequest(heap, body);
    if !bounded.Fits? then None
    else
      var value := R.Read(B.PacketText(heap, bounded.packet), I.MAX_DEPTH);
      if value.Some? then o.validate(value.value) else None
  }

  lemma SubmittedIsValidated(o: Oracle, heap: I.Heap, body: I.Value)
    requires B.BoundedRequest(heap, body).Fits?
    ensures SubmittedPacket(o, heap, body) == o.validate(PacketJson(heap, B.BoundedRequest(heap, body).packet))
  {
    B.PacketTextReads(heap, B.BoundedRequest(heap, body).packet);
  }

  /** The call asks for this row, apart from what the policy service adds itself. */
  predicate Asks(o: Oracle, a: Action, d: Draft) {
    match a
    case Submit(_, heap, body, operator, session) =>
      var p := SubmittedPacket(o, heap, body);
      && p.Some? && p.value.synthetic
      && d.service == Intake && d.packetId == p.value.packetId && d.digest == o.hash(p.value)
      && d.content == Body(o.stored(p.value)) && d.operator == operator && d.session == session
    case Evaluate(_, packetId, operator, session) =>
      d.service == Policy && d.packetId == packetId && d.operator == operator && d.session == session
    case Create(_, packetId, shaped, digest, decisionId, reasonCodes, operator, session) =>
      && shaped && PacketIdShape(packetId) && IsReasonCodes(reasonCodes)
      && d.service == Approval && d.packetId == packetId && d.digest == digest
      && d.operator == operator && d.session == session
      && d.content == Ask(o.requestId(packetId, digest, decisionId, reasonCodes, operator, session), decisionId, reasonCodes)
    case _ => false
  }

  /** A session whose token is worth presenting: known, unrevoked, unexpired, of an enabled operator. */
  predicate Presentable(s: State, session: Text) {
    && session in s.sessions && s.sessions[session].operator in s.operators
    && s.operators[s.sessions[session].operator].disabledAt.None?
    && s.sessions[session].revokedAt.None? && s.clock < s.sessions[session].expires
  }

  predicate ReplyTo(reply: Reply, service: Service, packetId: Text, session: Text) {
    match reply
    case Done(sv, id, ss, _, _) => sv == service && id == packetId && ss == session
    case Seen(sv, id, _, ss, _) => sv == service && id == packetId && ss == session
    case Refused(sv, id, _) => sv == service && id == packetId
    case _ => false
  }

  /** An answer to a call that got as far as the database. */
  ghost predicate Answers(o: Oracle, s: State, a: Action, reply: Reply) {
    match a
    case Read(_, service, packetId, operator, session) =>
      PacketIdShape(packetId) && ReplyTo(reply, service, packetId, session) && (reply.Seen? ==> reply.operator == operator)
    case Evaluate(_, packetId, _, session) => PacketIdShape(packetId) && ReplyTo(reply, Policy, packetId, session)
    case AskRevoke(_, session, presented) =>
      && presented && Presentable(s, session)
      && (reply == RevokeDone(session) || reply == RevokeRefused(session, RevokedSession))
    case _ => exists d :: Asks(o, a, d) && ReplyTo(reply, d.service, d.packetId, d.session)
  }

  /** The call was turned away at once, and this is why. */
  predicate TurnedAway(o: Oracle, s: State, a: Action, reply: Reply) {
    match a
    case Submit(_, heap, body, _, _) => SubmitDenial(o, heap, body, reply)
    case Evaluate(_, packetId, _, _) => !PacketIdShape(packetId) && reply == Refused(Policy, packetId, InvalidRequest)
    case Create(_, packetId, shaped, _, _, reasonCodes, _, _) =>
      !(PacketIdShape(packetId) && shaped && IsReasonCodes(reasonCodes)) && reply == Refused(Approval, packetId, InvalidRequest)
    case Read(_, service, packetId, _, _) => !PacketIdShape(packetId) && reply == Refused(service, packetId, InvalidRequest)
    case AskRevoke(_, session, presented) => !(presented && Presentable(s, session)) && RevokeDenial(s, session, presented, reply)
    case _ => false
  }

  predicate SubmitDenial(o: Oracle, heap: I.Heap, body: I.Value, reply: Reply) {
    var bounded, p := B.BoundedRequest(heap, body), SubmittedPacket(o, heap, body);
    || (bounded.TooLarge? && reply == Refused(Intake, [], RequestTooLarge))
    || (bounded.Malformed? && reply == Refused(Intake, [], InvalidRequest))
    || (bounded.Fits? && p.None? && reply == Refused(Intake, [], InvalidPacket))
    || (p.Some? && !p.value.synthetic && reply == Refused(Intake, p.value.packetId, SyntheticRequired))
  }

  /** An unknown session or a disabled operator counts as invalid before revocation and expiry are looked at. */
  predicate RevokeDenial(s: State, session: Text, presented: bool, reply: Reply) {
    var known := presented && session in s.sessions && s.sessions[session].operator in s.operators
                 && s.operators[s.sessions[session].operator].disabledAt.None?;
    reply == RevokeRefused(session, if !known then InvalidSession
                                    else if s.sessions[session].revokedAt.Some? then RevokedSession else ExpiredSession)
  }

  /** The task goes back to call `a`, made in state `s`. */
  ghost predicate CameFrom(o: Oracle, s: State, a: Action, k: Task) {
    match k
    case Put(d, _) => Asks(o, a, d) && (a.Evaluate? ==> PacketIdShape(a.packetId))
    case Load(packetId, operator, session, _) =>
      a.Evaluate? && PacketIdShape(packetId) && a.packetId == packetId && a.operator == operator && a.session == session
    case Get(service, packetId, operator, session, _) =>
      && a.Read? && PacketIdShape(packetId) && a.service == service && a.packetId == packetId
      && a.operator == operator && a.session == session
    case Revoke(session, _) => a.AskRevoke? && a.session == session && a.presented && Presentable(s, session)
    case Answering(reply) => Answers(o, s, a, reply)
  }

  // ---------------------------------------------------------------- one step

  /** A call is taken up or turned away, for the reasons above and no other. */
  lemma CallTakenUp(o: Oracle, s: State, a: Action)
    requires IsCall(a) && a.client !in s.tasks
    ensures var t := StartCall(o, s, a);
            if a.client in t.tasks then t.log == s.log && CameFrom(o, s, a, t.tasks[a.client])
            else |t.log| == |s.log| + 1 && t.log[..|s.log|] == s.log && TurnedAway(o, s, a, t.log[|s.log|])
  {
    match a
    case Submit(c, heap, body, operator, session) => SubmitTakenUp(o, s, c, heap, body, operator, session);
    case Create(c, packetId, shaped, digest, decisionId, reasonCodes, operator, session) =>
      CreateTakenUp(o, s, c, packetId, shaped, digest, decisionId, reasonCodes, operator, session);
    case _ =>
  }

  lemma SubmitTakenUp(o: Oracle, s: State, c: int, heap: I.Heap, body: I.Value, operator: Text, session: Text)
    requires c !in s.tasks
    ensures var a, t := Submit(c, heap, body, operator, session), StartSubmit(o, s, c, heap, body, operator, session);
            if c in t.tasks then t.log == s.log && CameFrom(o, s, a, t.tasks[c])
            else |t.log| == |s.log| + 1 && t.log[..|s.log|] == s.log && SubmitDenial(o, heap, body, t.log[|s.log|])
  {
    if B.BoundedRequest(heap, body).Fits? { SubmittedIsValidated(o, heap, body); }
  }

  lemma CreateTakenUp(o: Oracle, s: State, c: int, packetId: Text, shaped: bool, digest: Text, decisionId: Text,
                      reasonCodes: seq<Text>, operator: Text, session: Text)
    requires c !in s.tasks
    ensures var a := Create(c, packetId, shaped, digest, decisionId, reasonCodes, operator, session);
            var t := StartCreate(o, s, c, packetId, shaped, digest, decisionId, reasonCodes, operator, session);
            if c in t.tasks then t.log == s.log && CameFrom(o, s, a, t.tasks[c])
            else |t.log| == |s.log| + 1 && t.log[..|s.log|] == s.log && TurnedAway(o, s, a, t.log[|s.log|])
  {
  }

  /** The state of client `c` still goes back to the same call, if the client is still busy. */
  ghost predicate StillFrom(o: Oracle, s0: State, a: Action, t: State, c: int) {
    c in t.tasks ==> CameFrom(o, s0, a, t.tasks[c])
  }

  /** A write stays the same write until its answer is ready. */
  lemma PutReplies(o: Oracle, s: State, c: int, d: Draft, phase: Phase)
    ensures var t := StepPut(o, s, c, d, phase);
            c in t.tasks && c in s.tasks && s.tasks[c] == Put(d, phase) ==>
              || (t.tasks[c].Put? && t.tasks[c].draft == d)
              || (t.tasks[c].Answering? && ReplyTo(t.tasks[c].reply, d.service, d.packetId, d.session))
  {
  }

  lemma PutGoesOn(o: Oracle, s0: State, a: Action, s: State, c: int, d: Draft, phase: Phase)
    requires c in s.tasks && s.tasks[c] == Put(d, phase) && CameFrom(o, s0, a, s.tasks[c])
    ensures StillFrom(o, s0, a, StepPut(o, s, c, d, phase), c)
  {
    PutReplies(o, s, c, d, phase);
  }

  lemma LoadGoesOn(o: Oracle, s0: State, a: Action, s: State, c: int, packetId: Text, operator: Text, session: Text, checked: bool)
    requires c in s.tasks && s.tasks[c] == Load(packetId, operator, session, checked) && CameFrom(o, s0, a, s.tasks[c])
    ensures StillFrom(o, s0, a, StepLoad(o, s, c, packetId, operator, session, checked), c)
  {
  }

  lemma GetGoesOn(o: Oracle, s0: State, a: Action, s: State, c: int, service: Service, packetId: Text, operator: Text, session: Text, stage: Stage)
    requires c in s.tasks && s.tasks[c] == Get(service, packetId, operator, session, stage) && CameFrom(o, s0, a, s.tasks[c])
    ensures StillFrom(o, s0, a, StepGet(o, s, c, service, packetId, operator, session, stage), c)
  {
  }

  lemma RevokeGoesOn(o: Oracle, s0: State, a: Action, s: State, c: int, session: Text, at: Option<int>)
    requires c in s.tasks && s.tasks[c] == Revoke(session, at) && CameFrom(o, s0, a, s.tasks[c])
    ensures StillFrom(o, s0, a, StepRevoke(s, c, session, at), c)
  {
  }

  lemma TaskGoesOn(o: Oracle, s0: State, a: Action, s: State, c: int)
    requires c in s.tasks && CameFrom(o, s0, a, s.tasks[c])
    ensures StillFrom(o, s0, a, StepTask(o, s, c), c)
  {
    match s.tasks[c]
    case Put(d, phase) => PutGoesOn(o, s0, a, s, c, d, phase);
    case Load(packetId, operator, session, checked) => LoadGoesOn(o, s0, a, s, c, packetId, operator, session, checked);
    case Get(service, packetId, operator, session, stage) => GetGoesOn(o, s0, a, s, c, service, packetId, operator, session, stage);
    case Revoke(session, at) => RevokeGoesOn(o, s0, a, s, c, session, at);
    case Answering(_) =>
  }

  // ---------------------------------------------------------------- a whole run

  /** What client `c` is doing at step `n` goes back to its call at step `j`. */
  ghost predicate CalledAt(o: Oracle, states: Trace, actions: seq<Action>, j: nat, n: nat, c: int) {
    && j < n < |states| && j < |actions| && IsCall(actions[j]) && actions[j].client == c
    && c in states[n].tasks && CameFrom(o, states[j], actions[j], states[n].tasks[c])
  }

  lemma CalledNext(o: Oracle, states: Trace, actions: seq<Action>, j: nat, n: nat, c: int)
    requires IsTrace(o, states, actions) && n < |actions| && CalledAt(o, states, actions, j, n, c)
    requires c in states[n + 1].tasks
    ensures CalledAt(o, states, actions, j, n + 1, c)
  {
    assert Linked(o, states, actions, n);
    if actions[n] == Advance(c) { TaskGoesOn(o, states[j], actions[j], states[n], c); }
    else if actions[n] != Abort(c) { OthersLeaveAlone(o, states[n], actions[n], c); }
  }

  /** Only a call makes an idle client busy. */
  lemma BusyByCall(o: Oracle, s: State, a: Action, c: int)
    requires c !in s.tasks && c in Step(o, s, a).tasks
    ensures IsCall(a) && a.client == c && CameFrom(o, s, a, Step(o, s, a).tasks[c])
  {
    if IsCall(a) {
      if a.client !in s.tasks { CallTouchesOne(o, s, a); CallTakenUp(o, s, a); }
    } else if a.Advance? && a.client in s.tasks {
      TaskTouchesOne(o, s, a.client);
    }
  }

  lemma CallTouchesOne(o: Oracle, s: State, a: Action)
    requires IsCall(a)
    ensures StartCall(o, s, a).tasks.Keys <= s.tasks.Keys + {a.client}
  {
  }

  lemma PutTouchesOne(o: Oracle, s: State, c: int, draft: Draft, phase: Phase)
    ensures StepPut(o, s, c, draft, phase).tasks.Keys <= s.tasks.Keys + {c}
  {
  }

  lemma GetTouchesOne(o: Oracle, s: State, c: int, service: Service, packetId: Text, operator: Text, session: Text, stage: Stage)
    ensures StepGet(o, s, c, service, packetId, operator, session, stage).tasks.Keys <= s.tasks.Keys + {c}
  {
  }

  lemma TaskTouchesOne(o: Oracle, s: State, c: int)
    requires c in s.tasks
    ensures StepTask(o, s, c).tasks.Keys <= s.tasks.Keys
  {
    match s.tasks[c]
    case Put(draft, phase) => PutTouchesOne(o, s, c, draft, phase);
    case Get(service, packetId, operator, session, stage) => GetTouchesOne(o, s, c, service, packetId, operator, session, stage);
    case _ =>
  }

  /** In every run, whatever a client is doing goes back to a call it made. */
  lemma {:induction false} TasksWereCalled(o: Oracle, states: Trace, actions: seq<Action>, n: nat, c: int) returns (j: nat)
    requires IsTrace(o, states, actions) && n <= |actions| && c in states[n].tasks
    ensures CalledAt(o, states, actions, j, n, c)
    decreases n
  {
    assert n > 0;
    assert Linked(o, states, actions, n - 1);
    if c in states[n - 1].tasks {
      j := TasksWereCalled(o, states, actions, n - 1, c);
      CalledNext(o, states, actions, j, n - 1, c);
    } else {
      j := n - 1;
      BusyByCall(o, states[n - 1], actions[n - 1], c);
    }
  }

  ghost predicate AskedBy(o: Oracle, states: Trace, actions: seq<Action>, j: nat, r: Row) {
    j < |actions| && j < |states| && IsCall(actions[j]) && Asks(o, actions[j], r.draft) && states[j].clock <= r.at
  }

  /**
   Every row of every run was asked for by a call: an intake row by a submission whose body
   reads as the packet that was validated, hashed and stored, a request by a call that named
   each of its fields, a decision by an evaluation of that packet. Operator and session of the
   row are those of the call, which was made no later than the row's time.
   */
  lemma RowsWereAskedFor(o: Oracle, s: State, actions: seq<Action>, r: Row)
    requires Faithful(o) && Initial(s) && r in Run(o, s, actions).rows
    ensures exists j :: AskedBy(o, TraceOf(o, s, actions), actions, j, r)
  {
    RowsWereAuthorized(o, s, actions, r);
    RunsAreTraces(o, s, actions);
    var states := TraceOf(o, s, actions);
    var i: nat, k: nat :| k < |actions| && WrittenBy(states, actions, i, k, r);
    var j := TasksWereCalled(o, states, actions, i, actions[i].client);
    ClockGrows(o, states, actions, j, i);
    assert AskedBy(o, states, actions, j, r);
  }

  // ---------------------------------------------------------------- answers

  ghost predicate Answered(o: Oracle, states: Trace, actions: seq<Action>, j: nat, reply: Reply) {
    && j < |actions| && j < |states| && IsCall(actions[j])
    && (TurnedAway(o, states[j], actions[j], reply) || Answers(o, states[j], actions[j], reply))
  }

  lemma PutKeepsLog(o: Oracle, s: State, c: int, draft: Draft, phase: Phase)
    ensures StepPut(o, s, c, draft, phase).log == s.log
  {
  }

  lemma GetKeepsLog(o: Oracle, s: State, c: int, service: Service, packetId: Text, operator: Text, session: Text, stage: Stage)
    ensures StepGet(o, s, c, service, packetId, operator, session, stage).log == s.log
  {
  }

  /** Only answering adds an answer. */
  lemma TaskLogs(o: Oracle, s: State, c: int)
    requires c in s.tasks
    ensures StepTask(o, s, c).log == if s.tasks[c].Answering? then s.log + [s.tasks[c].reply] else s.log
  {
    match s.tasks[c]
    case Put(draft, phase) => PutKeepsLog(o, s, c, draft, phase);
    case Get(service, packetId, operator, session, stage) => GetKeepsLog(o, s, c, service, packetId, operator, session, stage);
    case _ =>
  }

  lemma CallLogs(o: Oracle, s: State, a: Action, k: nat)
    requires IsCall(a) && a.client !in s.tasks && |s.log| <= k < |StartCall(o, s, a).log|
    ensures TurnedAway(o, s, a, StartCall(o, s, a).log[k])
  {
    CallTakenUp(o, s, a);
  }

  lemma {:induction false} LogWasAsked(o: Oracle, states: Trace, actions: seq<Action>, n: nat, k: nat) returns (j: nat)
    requires IsTrace(o, states, actions) && n <= |actions| && k < |states[n].log|
    ensures Answered(o, states, actions, j, states[n].log[k])
    decreases n
  {
    assert n > 0;
    assert Linked(o, states, actions, n - 1);
    var s, a := states[n - 1], actions[n - 1];
    StepAppends(o, s, a);
    if k < |s.log| {
      j := LogWasAsked(o, states, actions, n - 1, k);
    } else if IsCall(a) {
      j := n - 1;
      CallLogs(o, s, a, k);
    } else {
      TaskLogs(o, s, a.client);
      j := TasksWereCalled(o, states, actions, n - 1, a.client);
    }
  }

  /** Every answer of every run answers a call of the run, addressed as the call was. */
  lemma RepliesWereAskedFor(o: Oracle, s: State, actions: seq<Action>, k: nat)
    requires Faithful(o) && Initial(s) && k < |Run(o, s, actions).log|
    ensures exists j :: Answered(o, TraceOf(o, s, actions), actions, j, Run(o, s, actions).log[k])
  {
    RunsAreTraces(o, s, actions);
    var j := LogWasAsked(o, TraceOf(o, s, actions), actions, |actions|, k);
  }

  // ---------------------------------------------------------------- sessions

  /** Step `j` issued the session: its window and capabilities are the lifetime asked for and the operator's. */
  predicate IssuedBy(s: State, a: Action, x: Text, session: Session) {
    && a.Issue? && a.session == x && 60 <= a.seconds <= 3600 && x !in s.sessions
    && a.operator in s.operators && session.operator == a.operator
    && session.capabilities == s.operators[a.operator].capabilities
    && session.issued == s.clock && session.expires == s.clock + 1000 * a.seconds
  }

  ghost predicate IssuedAt(states: Trace, actions: seq<Action>, j: nat, x: Text, session: Session) {
    j < |actions| && j < |states| && IssuedBy(states[j], actions[j], x, session)
  }

  predicate SameGrant(a: Session, b: Session) { a == b.(revokedAt := a.revokedAt) }

  lemma TaskSessions(o: Oracle, s: State, c: int, x: Text)
    requires c in s.tasks && x in StepTask(o, s, c).sessions
    ensures x in s.sessions && SameGrant(StepTask(o, s, c).sessions[x], s.sessions[x])
  {
    match s.tasks[c]
    case Put(draft, phase) => PutRevokesNothing(o, s, c, draft, phase);
    case Get(service, packetId, operator, who, stage) => GetRevokesNothing(o, s, c, service, packetId, operator, who, stage);
    case _ =>
  }

  lemma StepSessions(o: Oracle, s: State, a: Action, x: Text)
    requires x in Step(o, s, a).sessions
    ensures var t := Step(o, s, a);
            (x in s.sessions && SameGrant(t.sessions[x], s.sessions[x])) || IssuedBy(s, a, x, t.sessions[x])
  {
    if IsCall(a) { CallAppends(o, s, a); }
    else if a.Advance? { if a.client in s.tasks { TaskSessions(o, s, a.client, x); } }
  }

  /** Every session of a run was there at the start or was issued, and what it grants never changes. */
  lemma {:induction false} SessionsWereIssued(o: Oracle, states: Trace, actions: seq<Action>, n: nat, x: Text)
    requires IsTrace(o, states, actions) && n <= |actions| && x in states[n].sessions
    ensures var session := states[n].sessions[x];
            || (x in states[0].sessions && SameGrant(session, states[0].sessions[x]))
            || exists j :: IssuedAt(states, actions, j, x, session)
    decreases n
  {
    if n > 0 {
      assert Linked(o, states, actions, n - 1);
      StepSessions(o, states[n - 1], actions[n - 1], x);
      var before := states[n - 1].sessions;
      if x in before && SameGrant(states[n].sessions[x], before[x]) {
        SessionsWereIssued(o, states, actions, n - 1, x);
        if j: nat :| IssuedAt(states, actions, j, x, before[x]) {
          assert IssuedAt(states, actions, j, x, states[n].sessions[x]);
        }
      } else {
        assert IssuedAt(states, actions, n - 1, x, states[n].sessions[x]);
      }
    }
  }

  ghost predicate PresentedAt(states: Trace, actions: seq<Action>, j: nat, session: Text) {
    && j < |actions| && j < |states| && actions[j].AskRevoke? && actions[j].session == session && actions[j].presented
    && Presentable(states[j], session)
  }

  /** No session is revoked unless its token and proof were presented while it was good. */
  lemma RevokedByItsHolder(o: Oracle, states: Trace, actions: seq<Action>, n: nat, session: Text, at: int)
    requires IsTrace(o, states, actions) && n <= |actions| && RevokedAs(states[n], session, at)
    ensures RevokedAs(states[0], session, at) || exists j :: PresentedAt(states, actions, j, session)
  {
    RevocationHappened(o, states, actions, n, session, at);
    if take: nat, update: nat :| Revokes(states, actions, take, update, session) {
      var j := TasksWereCalled(o, states, actions, take, actions[take].client);
      assert PresentedAt(states, actions, j, session);
    }
  }

  // ---------------------------------------------------------------- what a write is told

  /** The guard of an approval request answers from the operator's own decision on the packet. */
  lemma AskGuarded(o: Oracle, s: State, c: int, d: Draft)
    requires Faithful(o) && Invariant(o, s) && c in s.tasks && s.tasks[c] == Put(d, Authorized) && d.service == Approval
    ensures var t := StepPut(o, s, c, d, Authorized);
            !Owns(s.rows, Policy, d.packetId, d.operator) ==> t == End(s, c, Refused(Approval, d.packetId, NotFound))
    ensures var t := StepPut(o, s, c, d, Authorized);
            forall r :: r in s.rows && OwnRow(r, Policy, d.packetId, d.operator) ==>
              && r.draft.content.Ruling? && d.content.Ask?
              && var ruling := r.draft.content.decision;
                 var same := r.draft.digest == d.digest && ruling.decisionId == d.content.decisionId
                             && ruling.reasonCodes == d.content.reasonCodes;
                 match ruling.kind
                 case Allow => t == End(s, c, Refused(Approval, d.packetId, Broken))
                 case Deny => t == End(s, c, Refused(Approval, d.packetId, NotReviewable))
                 case ApprovalRequired =>
                   if same then c in t.tasks && t.tasks[c].Put? && t.tasks[c].draft == d && t.tasks[c].phase.Guarded?
                   else t == End(s, c, Refused(Approval, d.packetId, Conflict))
  {
    assert TaskSound(o, s, s.tasks[c]);
    OwnedIsFound(s.rows, Intake, d.packetId, d.operator);
    OwnedIsFound(s.rows, Policy, d.packetId, d.operator);
    forall r | r in s.rows && OwnRow(r, Policy, d.packetId, d.operator)
      ensures FindOwned(s.rows, Policy, d.packetId, d.operator) == Some(r) && RulingSound(o, s.rows, r.draft)
      ensures DecisionSound(PolicyInput(o, Find(s.rows, Intake, d.packetId).value).value, r.draft.content.decision)
      ensures FindOwned(s.rows, Intake, d.packetId, d.operator).Some?
      ensures FindOwned(s.rows, Intake, d.packetId, d.operator).value.draft.digest == r.draft.digest
    {
      UniqueRow(s.rows, r);
      assert RowSound(o, s.rows, r);
    }
    var ruling := FindOwned(s.rows, Policy, d.packetId, d.operator);
    if ruling.Some? { assert OwnRow(ruling.value, Policy, d.packetId, d.operator); }
  }

  /** An evaluation is refused exactly when the operator has not submitted the packet. */
  lemma EvaluationLoads(o: Oracle, s: State, c: int, packetId: Text, operator: Text, session: Text)
    requires Faithful(o) && Invariant(o, s) && c in s.tasks && s.tasks[c] == Load(packetId, operator, session, true)
    ensures var t := StepLoad(o, s, c, packetId, operator, session, true);
            !Owns(s.rows, Intake, packetId, operator) ==> t == End(s, c, Refused(Policy, packetId, NotFound))
    ensures var t := StepLoad(o, s, c, packetId, operator, session, true);
            forall r :: r in s.rows && OwnRow(r, Intake, packetId, operator) ==>
              && r.draft.content.Body? && o.validate(r.draft.content.stored).Some?
              && t == Move(s, c, Put(Draft(Policy, packetId, r.draft.digest, operator, session,
                                           Ruling(o.decide(o.validate(r.draft.content.stored).value, r.at), r.at)), Waiting))
  {
    OwnedIsFound(s.rows, Intake, packetId, operator);
    forall r | r in s.rows && OwnRow(r, Intake, packetId, operator)
      ensures FindOwned(s.rows, Intake, packetId, operator) == Some(r) && IntakeSound(o, r)
    {
      UniqueRow(s.rows, r);
      assert RowSound(o, s.rows, r);
    }
    var input := FindOwned(s.rows, Intake, packetId, operator);
    if input.Some? { assert OwnRow(input.value, Intake, packetId, operator); }
  }
}
