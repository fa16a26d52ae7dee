/**
 Reading, over all runs: whose row a read returns, and when it finds none. Everything is said
 of the rows in the tables, whatever other clients do between the statements of the read.
 */
module ControlReads {
  import opened Texts
  import opened ControlPolicy
  import opened ControlPlane
  import opened ControlInvariant
  import opened ControlSteps
  import opened ControlRuns
  import opened ControlHistory
  import opened ControlReplay

  predicate OwnRow(r: Row, service: Service, packetId: Text, operator: Text) {
    r.draft.service == service && r.draft.packetId == packetId && r.draft.operator == operator
  }

  /** The operator has a row of this packet in the service's table. */
  ghost predicate Owns(rows: seq<Row>, service: Service, packetId: Text, operator: Text) {
    exists r :: r in rows && OwnRow(r, service, packetId, operator)
  }

  /** What a read has to answer: the operator's own row, or that there is none. */
  ghost predicate ReadAnswer(rows: seq<Row>, reply: Reply, service: Service, packetId: Text, operator: Text, session: Text) {
    if Owns(rows, service, packetId, operator) then
      reply.Seen? && reply == Seen(service, packetId, operator, session, reply.row)
      && reply.row in rows && OwnRow(reply.row, service, packetId, operator)
    else reply == Refused(service, packetId, NotFound)
  }

  function Rank(stage: Stage): nat { match stage case Opened => 0 case Checked => 1 case Loaded(_) => 2 }

  /** The read finds its session gone, gets on with it, or gets the answer the rows give. */
  ghost predicate ReadOutcome(s: State, t: State, c: int, service: Service, packetId: Text, operator: Text, session: Text, stage: Stage) {
    || (t == End(s, c, Refused(service, packetId, AuthorizationChanged))
        && stage.Opened? && !IsAuthorized(s, session, operator, service))
    || ((stage.Opened? ==> IsAuthorized(s, session, operator, service))
        && exists next :: t == Move(s, c, Get(service, packetId, operator, session, next)) && Rank(stage) < Rank(next))
    || (exists reply :: t == End(s, c, reply) && !stage.Opened? && ReadAnswer(s.rows, reply, service, packetId, operator, session))
  }

  /** Nobody owns a decision on a packet somebody else submitted. */
  lemma DecisionNeedsIntake(o: Oracle, s: State, packetId: Text, operator: Text)
    requires RowsSound(o, s) && Owns(s.rows, Policy, packetId, operator)
    ensures FindOwned(s.rows, Intake, packetId, operator).Some?
    ensures exists d :: Find(s.rows, Policy, packetId) == Some(d) && d.draft.operator == operator
  {
    var d :| d in s.rows && OwnRow(d, Policy, packetId, operator);
    assert RowSound(o, s.rows, d);
    UniqueRow(s.rows, d);
    OwnedIsFound(s.rows, Intake, packetId, operator);
  }

  lemma QueryStep(o: Oracle, s: State, c: int, service: Service, packetId: Text, operator: Text, session: Text)
    requires Invariant(o, s)
    ensures ReadOutcome(s, StepGet(o, s, c, service, packetId, operator, session, Checked), c, service, packetId, operator, session, Checked)
  {
    var found := FindOwned(s.rows, if service == Policy then Intake else service, packetId, operator);
    var t := StepGet(o, s, c, service, packetId, operator, session, Checked);
    if found.None? {
      if service == Policy && Owns(s.rows, Policy, packetId, operator) { DecisionNeedsIntake(o, s, packetId, operator); }
      assert t == End(s, c, Refused(service, packetId, NotFound));
    } else if service == Policy {
      assert t == Move(s, c, Get(service, packetId, operator, session, Loaded(found.value)));
    } else {
      RowReadable(o, s.rows, found.value);
      assert OwnRow(found.value, service, packetId, operator);
      assert t == End(s, c, Seen(service, packetId, operator, session, found.value));
    }
  }

  lemma JoinStep(o: Oracle, s: State, c: int, packetId: Text, operator: Text, session: Text, input: Row)
    requires Faithful(o) && Invariant(o, s)
    requires Find(s.rows, Intake, packetId) == Some(input) && input.draft.operator == operator
    ensures ReadOutcome(s, StepGet(o, s, c, Policy, packetId, operator, session, Loaded(input)), c, Policy, packetId, operator, session, Loaded(input))
  {
    ReadVerifies(o, s, packetId, operator, input);
    var joined := JoinedDecision(s.rows, s.rows, packetId);
    var t := StepGet(o, s, c, Policy, packetId, operator, session, Loaded(input));
    if joined.None? {
      if Owns(s.rows, Policy, packetId, operator) { DecisionNeedsIntake(o, s, packetId, operator); }
      assert t == End(s, c, Refused(Policy, packetId, NotFound));
    } else {
      assert OwnRow(joined.value.0, Policy, packetId, operator);
      assert t == End(s, c, Seen(Policy, packetId, operator, session, joined.value.0));
    }
  }

  /** One statement of a read. */
  lemma ReadStep(o: Oracle, s: State, c: int, service: Service, packetId: Text, operator: Text, session: Text, stage: Stage)
    requires Faithful(o) && Invariant(o, s) && c in s.tasks && s.tasks[c] == Get(service, packetId, operator, session, stage)
    ensures ReadOutcome(s, StepGet(o, s, c, service, packetId, operator, session, stage), c, service, packetId, operator, session, stage)
  {
    assert TaskSound(o, s, s.tasks[c]);
    match stage
    case Opened =>
      if IsAuthorized(s, session, operator, service) {
        assert StepGet(o, s, c, service, packetId, operator, session, stage)
            == Move(s, c, Get(service, packetId, operator, session, Checked));
      }
    case Checked => QueryStep(o, s, c, service, packetId, operator, session);
    case Loaded(input) => JoinStep(o, s, c, packetId, operator, session, input);
  }

  // ---------------------------------------------------------------- a whole read

  /** Where a read that began with `before` in the tables can be, now that they hold `rows`. */
  ghost predicate ReadOnTrack(before: seq<Row>, rows: seq<Row>, k: Task, service: Service, packetId: Text, operator: Text, session: Text) {
    match k
    case Get(_, _, _, _, stage) => k == Get(service, packetId, operator, session, stage)
    case Answering(Refused(_, _, code)) =>
      && k.reply == Refused(service, packetId, code)
      && (code == AuthorizationChanged || (code == NotFound && !Owns(before, service, packetId, operator)))
    case Answering(Seen(_, _, _, _, row)) =>
      k.reply == Seen(service, packetId, operator, session, row) && row in rows && OwnRow(row, service, packetId, operator)
    case _ => false
  }

  lemma OwnsMore(before: seq<Row>, rows: seq<Row>, service: Service, packetId: Text, operator: Text)
    requires before <= rows && Owns(before, service, packetId, operator)
    ensures Owns(rows, service, packetId, operator)
  {
  }

  /** The read's own statement keeps it on track. */
  lemma AdvanceReads(o: Oracle, before: seq<Row>, s: State, c: int, service: Service, packetId: Text, operator: Text, session: Text, stage: Stage)
    requires Faithful(o) && Invariant(o, s) && before <= s.rows
    requires c in s.tasks && s.tasks[c] == Get(service, packetId, operator, session, stage)
    ensures var t := StepGet(o, s, c, service, packetId, operator, session, stage);
            c in t.tasks && ReadOnTrack(before, s.rows, t.tasks[c], service, packetId, operator, session)
  {
    ReadStep(o, s, c, service, packetId, operator, session, stage);
    if Owns(before, service, packetId, operator) { OwnsMore(before, s.rows, service, packetId, operator); }
  }

  lemma TrackKept(before: seq<Row>, rows: seq<Row>, more: seq<Row>, k: Task, service: Service, packetId: Text, operator: Text, session: Text)
    requires rows <= more && ReadOnTrack(before, rows, k, service, packetId, operator, session)
    ensures ReadOnTrack(before, more, k, service, packetId, operator, session)
  {
  }

  lemma TrackReads(o: Oracle, states: Trace, actions: seq<Action>, i: nat, n: nat, c: int,
                   service: Service, packetId: Text, operator: Text, session: Text)
    requires Faithful(o) && IsTrace(o, states, actions) && i <= n < |actions|
    requires c in states[n].tasks && c in states[n + 1].tasks
    requires ReadOnTrack(states[i].rows, states[n].rows, states[n].tasks[c], service, packetId, operator, session)
    ensures ReadOnTrack(states[i].rows, states[n + 1].rows, states[n + 1].tasks[c], service, packetId, operator, session)
  {
    assert Linked(o, states, actions, n) && SoundAt(o, states, n);
    RowsKept(o, states, actions, i, n);
    RowsKept(o, states, actions, n, n + 1);
    var before, k, next := states[i].rows, states[n].tasks[c], states[n + 1].tasks[c];
    if actions[n] == Advance(c) {
      if k.Get? { AdvanceReads(o, before, states[n], c, service, packetId, operator, session, k.stage); }
    } else if actions[n] != Abort(c) {
      OthersLeaveAlone(o, states[n], actions[n], c);
    }
    TrackKept(before, states[n].rows, states[n + 1].rows, next, service, packetId, operator, session);
  }

  /**
   In every run, a read that is not over yet is under way or has one of three answers: its
   session is no longer good, the operator's own row, or not found, and the last only if the
   operator had no such row when the read began.
   */
  lemma {:induction false} ReadAnswered(o: Oracle, states: Trace, actions: seq<Action>, i: nat, n: nat, c: int,
                                        service: Service, packetId: Text, operator: Text, session: Text)
    requires Faithful(o) && IsTrace(o, states, actions) && i <= n <= |actions|
    requires forall m :: i <= m <= n ==> c in states[m].tasks
    requires states[i].tasks[c] == Get(service, packetId, operator, session, Opened)
    ensures ReadOnTrack(states[i].rows, states[n].rows, states[n].tasks[c], service, packetId, operator, session)
    decreases n
  {
    if i < n {
      ReadAnswered(o, states, actions, i, n - 1, c, service, packetId, operator, session);
      TrackReads(o, states, actions, i, n - 1, c, service, packetId, operator, session);
    }
  }

  /** Every row that any call of any run hands out goes to a session of the row's own operator. */
  lemma AnswersGoToOwners(o: Oracle, s: State, actions: seq<Action>, k: nat)
    requires Faithful(o) && Initial(s) && k < |Run(o, s, actions).log|
    ensures var t := Run(o, s, actions);
            var reply := t.log[k];
            reply.Done? || reply.Seen? ==>
              && reply.row in t.rows && reply.row.draft.service == reply.service && reply.row.draft.packetId == reply.packetId
              && reply.session in t.sessions && t.sessions[reply.session].operator == reply.row.draft.operator
              && reply.service in t.sessions[reply.session].capabilities
              && (reply.Seen? ==> reply.row.draft.operator == reply.operator)
  {
    ReachableInvariant(o, s, actions);
    assert ReplySound(Run(o, s, actions), Run(o, s, actions).log[k]);
  }

  /** The call has passed its live-session query and has not ended. */
  predicate UnderWay(k: Task, session: Text, operator: Text, service: Service) {
    match k
    case Put(d, phase) =>
      && !phase.Waiting? && !phase.Locked?
      && session == d.session && operator == d.operator && service == d.service
    case Load(_, op, ss, checked) => checked && session == ss && operator == op && service == Policy
    case Get(sv, _, op, ss, stage) => !stage.Opened? && session == ss && operator == op && service == sv
    case _ => false
  }

  /** In every run, from its live-session query to its end a call's session is unrevoked and its operator enabled. */
  lemma CallsStayAuthorized(o: Oracle, s: State, actions: seq<Action>, c: int, session: Text, operator: Text, service: Service)
    requires Faithful(o) && Initial(s) && c in Run(o, s, actions).tasks
    requires UnderWay(Run(o, s, actions).tasks[c], session, operator, service)
    ensures var t := Run(o, s, actions);
            && session in t.sessions && t.sessions[session].operator == operator && t.sessions[session].revokedAt.None?
            && service in t.sessions[session].capabilities
            && operator in t.operators && t.operators[operator].disabledAt.None?
  {
    ReachableInvariant(o, s, actions);
    assert TaskSound(o, Run(o, s, actions), Run(o, s, actions).tasks[c]);
  }
}
