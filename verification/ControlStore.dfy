/**
 The write transaction as straight-line code: a store whose `Put` updates its table in place,
 proved to do what one client's statements do when nobody interleaves, and from there the
 exact answer that a repeated call gets.
 */
module ControlStore {
  import opened Texts
  import opened Json
  import opened ControlPolicy
  import opened ControlPlane
  import opened ControlInvariant
  import opened ControlSteps

  /** Answer and rows after a write transaction that runs alone. */
  function PutAlone(o: Oracle, s: State, draft: Draft): (Reply, seq<Row>) {
    var refuse := (code: Code) => (Refused(draft.service, draft.packetId, code), s.rows);
    if !IsAuthorized(s, draft.session, draft.operator, draft.service) then refuse(AuthorizationChanged)
    else
      var (input, code) := Guard(s, draft);
      if code.Some? then refuse(code.value)
      else
        match Lookup(o, s, draft, input)
        case Found(row, i) => if Readable(o, row) then (Outcome(draft, row, i, false), s.rows) else refuse(Broken)
        case _ =>
          var row := Row(draft, s.clock);
          if Readable(o, row) then (Outcome(draft, row, input, true), s.rows + [row]) else refuse(Broken)
  }

  /** The database as one object; `View` is its state with no transaction in flight. */
  class Store {
    var clock: int
    var operators: map<Text, Operator>
    var sessions: map<Text, Session>
    var rows: seq<Row>

    constructor (now: int, people: map<Text, Operator>)
      ensures clock == now && operators == people && sessions == map[] && rows == []
    {
      clock := now;
      operators := people;
      sessions := map[];
      rows := [];
    }

    function View(): State
      reads this
    {
      State(clock, operators, sessions, rows, map[], [])
    }

    /** `put` of the three repositories together with the check its service makes afterwards. */
    method Put(o: Oracle, draft: Draft) returns (reply: Reply)
      modifies this`rows
      ensures (reply, rows) == PutAlone(o, old(View()), draft)
    {
      if !IsAuthorized(View(), draft.session, draft.operator, draft.service) {
        return Refused(draft.service, draft.packetId, AuthorizationChanged);
      }
      var (input, code) := Guard(View(), draft);
      if code.Some? {
        return Refused(draft.service, draft.packetId, code.value);
      }
      var found := Lookup(o, View(), draft, input);
      if found.Found? {
        if !Readable(o, found.row) {
          return Refused(draft.service, draft.packetId, Broken);
        }
        return Outcome(draft, found.row, found.input, false);
      }
      var row := Row(draft, clock);
      if !Readable(o, row) {
        return Refused(draft.service, draft.packetId, Broken);
      }
      rows := rows + [row];
      return Outcome(draft, row, input, true);
    }

    /** `issue`, once the operator's credential has been checked: the protocol's own step. */
    method Issue(session: Text, operator: Text, seconds: int) returns (ok: bool)
      modifies this`sessions
      ensures ok <==>
        && session !in old(sessions) && operator in operators && operators[operator].disabledAt.None?
        && 60 <= seconds <= 3600
      ensures View() == if ok then StepOutside(old(View()), Action.Issue(session, operator, seconds)) else old(View())
    {
      ok := session !in sessions && operator in operators && operators[operator].disabledAt.None?
            && 60 <= seconds <= 3600;
      if ok {
        sessions := sessions[session :=
          Session(operator, operators[operator].capabilities, clock, clock + seconds * 1000, None)];
      }
    }

    /** `revokeSession`: only an unrevoked session is updated, to the time the caller brings. */
    method RevokeSession(session: Text, at: int) returns (ok: bool)
      modifies this`sessions
      ensures View() == RevokeRow(old(View()), session, at)
      ensures ok <==> session in old(sessions) && old(sessions)[session].revokedAt.None?
    {
      ok := session in sessions && sessions[session].revokedAt.None?;
      if ok {
        sessions := sessions[session := sessions[session].(revokedAt := Some(at))];
      }
    }
  }

  // ---------------------------------------------------------------- alone and interleaved agree

  /** `n` statements of one client and nobody else. */
  ghost function Alone(o: Oracle, s: State, c: int, n: nat): State
    decreases n
  {
    if n == 0 then s else Alone(o, Step(o, s, Advance(c)), c, n - 1)
  }

  lemma {:induction false} AloneIsRun(o: Oracle, s: State, c: int, n: nat)
    ensures Alone(o, s, c, n) == Run(o, s, seq(n, _ => Advance(c)))
  {
    if n > 0 {
      var actions := seq(n, _ => Advance(c));
      AloneThenOne(o, s, c, n - 1);
      AloneIsRun(o, s, c, n - 1);
      assert actions[..n - 1] == seq(n - 1, _ => Advance(c));
    }
  }

  lemma {:induction false} AloneThenOne(o: Oracle, s: State, c: int, n: nat)
    ensures Alone(o, s, c, n + 1) == Step(o, Alone(o, s, c, n), Advance(c))
    decreases n
  {
    if n > 0 { AloneThenOne(o, Step(o, s, Advance(c)), c, n - 1); }
  }

  lemma StepOf(o: Oracle, s: State, c: int, draft: Draft, phase: Phase)
    requires c in s.tasks && s.tasks[c] == Put(draft, phase)
    ensures Step(o, s, Advance(c)) == StepPut(o, s, c, draft, phase)
  {
  }

  lemma Moved(s: State, c: int, k: Task, l: Task)
    ensures Move(Move(s, c, k), c, l) == Move(s, c, l)
  {
  }

  lemma GuardOfMoved(s: State, c: int, k: Task, draft: Draft)
    ensures Guard(Move(s, c, k), draft) == Guard(s, draft)
  {
  }

  lemma LookupOfMoved(o: Oracle, s: State, c: int, k: Task, draft: Draft, input: Option<Row>)
    ensures Lookup(o, Move(s, c, k), draft, input) == Lookup(o, s, draft, input)
  {
  }

  /** The state once a transaction is over, has perhaps written, and has its answer on its way. */
  function Ended(s: State, c: int, result: (Reply, seq<Row>)): State {
    End(s, c, result.0).(rows := result.1)
  }

  lemma FromInserted(o: Oracle, s: State, c: int, draft: Draft, row: Row, input: Option<Row>)
    ensures Alone(o, Move(s, c, Put(draft, Inserted(row, input))), c, 1)
         == Ended(s, c, (Outcome(draft, row, input, true), s.rows + [row]))
  {
    var m := Move(s, c, Put(draft, Inserted(row, input)));
    StepOf(o, m, c, draft, Inserted(row, input));
    Moved(s, c, Put(draft, Inserted(row, input)), Answering(Outcome(draft, row, input, true)));
    assert Alone(o, m, c, 1) == Alone(o, Step(o, m, Advance(c)), c, 0);
  }

  lemma FromFound(o: Oracle, s: State, c: int, draft: Draft, row: Row, input: Option<Row>)
    ensures Alone(o, Move(s, c, Put(draft, Found(row, input))), c, 1)
         == Ended(s, c, (Outcome(draft, row, input, false), s.rows))
  {
    var m := Move(s, c, Put(draft, Found(row, input)));
    StepOf(o, m, c, draft, Found(row, input));
    Moved(s, c, Put(draft, Found(row, input)), Answering(Outcome(draft, row, input, false)));
    assert Alone(o, m, c, 1) == Alone(o, Step(o, m, Advance(c)), c, 0);
  }

  lemma FromFresh(o: Oracle, s: State, c: int, draft: Draft, input: Option<Row>)
    requires IsAuthorized(s, draft.session, draft.operator, draft.service) && Readable(o, Row(draft, s.clock))
    ensures Alone(o, Move(s, c, Put(draft, Fresh(input))), c, 2)
         == Ended(s, c, (Outcome(draft, Row(draft, s.clock), input, true), s.rows + [Row(draft, s.clock)]))
  {
    var m := Move(s, c, Put(draft, Fresh(input)));
    var row := Row(draft, s.clock);
    StepOf(o, m, c, draft, Fresh(input));
    Moved(s, c, Put(draft, Fresh(input)), Put(draft, Inserted(row, input)));
    assert Alone(o, m, c, 2) == Alone(o, Step(o, m, Advance(c)), c, 1);
    FromInserted(o, s, c, draft, row, input);
  }

  /** Steps from the guard on, when the guard passes. */
  function Remaining(found: bool): nat { if found then 1 else 2 }

  lemma FromGuarded(o: Oracle, s: State, c: int, draft: Draft, input: Option<Row>)
    requires IsAuthorized(s, draft.session, draft.operator, draft.service)
    requires RowsSound(o, s) && DraftSound(o, s.rows, draft) && Guard(s, draft) == (input, None)
    ensures Alone(o, Move(s, c, Put(draft, Guarded(input))), c, 1 + Remaining(Lookup(o, s, draft, input).Found?))
         == Ended(s, c, PutAlone(o, s, draft))
  {
    var m := Move(s, c, Put(draft, Guarded(input)));
    GuardPasses(o, s, draft);
    LookupSound(o, s, draft, input);
    DraftReadable(o, s.rows, draft, s.clock);
    var next := Lookup(o, s, draft, input);
    StepOf(o, m, c, draft, Guarded(input));
    LookupOfMoved(o, s, c, Put(draft, Guarded(input)), draft, input);
    Moved(s, c, Put(draft, Guarded(input)), Put(draft, next));
    assert Step(o, m, Advance(c)) == Move(s, c, Put(draft, next));
    if next.Found? { FromFound(o, s, c, draft, next.row, next.input); }
    else { FromFresh(o, s, c, draft, next.input); }
  }

  lemma FromLocked(o: Oracle, s: State, c: int, draft: Draft)
    requires IsAuthorized(s, draft.session, draft.operator, draft.service)
    ensures Alone(o, Move(s, c, Put(draft, Locked)), c, 2)
         == if Guard(s, draft).1.Some? then Ended(s, c, PutAlone(o, s, draft))
            else Move(s, c, Put(draft, Guarded(Guard(s, draft).0)))
  {
    var m, k := Move(s, c, Put(draft, Locked)), Move(s, c, Put(draft, Authorized));
    StepOf(o, m, c, draft, Locked);
    Moved(s, c, Put(draft, Locked), Put(draft, Authorized));
    assert Alone(o, m, c, 2) == Alone(o, k, c, 1);
    StepOf(o, k, c, draft, Authorized);
    GuardOfMoved(s, c, Put(draft, Authorized), draft);
    var (input, code) := Guard(s, draft);
    Moved(s, c, Put(draft, Authorized), Put(draft, Guarded(input)));
    if code.Some? { Moved(s, c, Put(draft, Authorized), Answering(Refused(draft.service, draft.packetId, code.value))); }
    assert Alone(o, k, c, 1) == Alone(o, Step(o, k, Advance(c)), c, 0);
  }

  lemma {:induction false} AloneAdds(o: Oracle, s: State, c: int, m: nat, n: nat)
    ensures Alone(o, s, c, m + n) == Alone(o, Alone(o, s, c, m), c, n)
    decreases m
  {
    if m > 0 { AloneAdds(o, Step(o, s, Advance(c)), c, m - 1, n); }
  }

  /** How many statements a write transaction takes when it runs alone. */
  function Statements(o: Oracle, s: State, draft: Draft): nat {
    if !IsAuthorized(s, draft.session, draft.operator, draft.service) then 2
    else
      var (input, code) := Guard(s, draft);
      if code.Some? then 3 else 4 + Remaining(Lookup(o, s, draft, input).Found?)
  }

  lemma LockStep(o: Oracle, s: State, c: int, draft: Draft)
    requires c in s.tasks && s.tasks[c] == Put(draft, Waiting)
    requires !LockHeld(o, s, o.lockKey(draft.service, draft.packetId))
    ensures Alone(o, s, c, 1) == Move(s, c, Put(draft, Locked))
  {
  }

  lemma RefusedStep(o: Oracle, s: State, c: int, draft: Draft)
    requires !IsAuthorized(s, draft.session, draft.operator, draft.service)
    ensures Alone(o, Move(s, c, Put(draft, Locked)), c, 1) == Ended(s, c, PutAlone(o, s, draft))
  {
    var m := Move(s, c, Put(draft, Locked));
    StepOf(o, m, c, draft, Locked);
    Moved(s, c, Put(draft, Locked), Answering(Refused(draft.service, draft.packetId, AuthorizationChanged)));
    assert Alone(o, m, c, 1) == Alone(o, Step(o, m, Advance(c)), c, 0);
  }

  /** A transaction whose statements run back to back does what `Put` does. */
  lemma AloneIsPut(o: Oracle, s: State, c: int, draft: Draft)
    requires Invariant(o, s) && c in s.tasks && s.tasks[c] == Put(draft, Waiting)
    requires !LockHeld(o, s, o.lockKey(draft.service, draft.packetId))
    ensures Alone(o, s, c, Statements(o, s, draft)) == Ended(s, c, PutAlone(o, s, draft))
  {
    assert TaskSound(o, s, s.tasks[c]);
    LockStep(o, s, c, draft);
    var n := Statements(o, s, draft);
    AloneAdds(o, s, c, 1, n - 1);
    var m := Move(s, c, Put(draft, Locked));
    if !IsAuthorized(s, draft.session, draft.operator, draft.service) {
      RefusedStep(o, s, c, draft);
    } else {
      FromLocked(o, s, c, draft);
      if Guard(s, draft).1.None? {
        AloneAdds(o, m, c, 2, n - 3);
        FromGuarded(o, s, c, draft, Guard(s, draft).0);
      }
    }
  }

  // ---------------------------------------------------------------- first and repeated calls

  /** A call that passes its guard and finds no row writes its own row and answers `created`. */
  lemma FirstPutSucceeds(o: Oracle, s: State, draft: Draft)
    requires Faithful(o) && RowsSound(o, s) && DraftSound(o, s.rows, draft)
    requires IsAuthorized(s, draft.session, draft.operator, draft.service)
    requires Guard(s, draft).1.None? && Find(s.rows, draft.service, draft.packetId) == None
    ensures var row := Row(draft, s.clock);
            PutAlone(o, s, draft)
            == (Done(draft.service, draft.packetId, draft.session, true, row), s.rows + [row])
  {
    GuardPasses(o, s, draft);
    LookupSound(o, s, draft, Guard(s, draft).0);
    DraftReadable(o, s.rows, draft, s.clock);
    if draft.service == Policy { RulingVerifies(o, s, draft, Row(draft, s.clock), Guard(s, draft).0); }
  }

  /** A repeated submission succeeds, from any live session, exactly when it is the same packet by the same operator. */
  lemma IntakeReplay(o: Oracle, s: State, p: Packet, operator: Text, session: Text, row: Row)
    requires RowsSound(o, s) && Find(s.rows, Intake, p.packetId) == Some(row)
    requires IsAuthorized(s, session, operator, Intake)
    ensures var draft := IntakeDraft(o, p, operator, session);
            PutAlone(o, s, draft)
            == (if o.hash(p) == row.draft.digest && operator == row.draft.operator
                then Done(Intake, p.packetId, session, false, row) else Refused(Intake, p.packetId, Conflict), s.rows)
  {
    assert RowSound(o, s.rows, row);
    RowReadable(o, s.rows, row);
  }

  /** A repeated evaluation by the owner always succeeds, from any live session. */
  lemma PolicyReplay(o: Oracle, s: State, input: Row, session: Text, row: Row)
    requires Faithful(o) && RowsSound(o, s) && input in s.rows && input.draft.service == Intake
    requires Find(s.rows, Policy, input.draft.packetId) == Some(row)
    requires IsAuthorized(s, session, input.draft.operator, Policy)
    ensures PolicyInput(o, input).Some?
    ensures var draft := RulingDraft(o, input, PolicyInput(o, input).value, input.draft.operator, session);
            PutAlone(o, s, draft) == (Done(Policy, input.draft.packetId, session, false, row), s.rows)
  {
    var id := input.draft.packetId;
    UniqueRow(s.rows, input);
    assert RowSound(o, s.rows, input) && RowSound(o, s.rows, row);
    var draft := RulingDraft(o, input, PolicyInput(o, input).value, input.draft.operator, session);
    assert RulingSound(o, s.rows, draft);
    GuardPasses(o, s, draft);
    JoinSeesDecision(o, s.rows, id);
    RulingVerifies(o, s, draft, row, Some(input));
    RowReadable(o, s.rows, row);
  }

  /** Guard of a request whose packet already has one. */
  lemma AskGuard(o: Oracle, s: State, draft: Draft, row: Row)
    requires RowsSound(o, s) && draft.service == Approval && AskWritten(o, draft)
    requires Find(s.rows, Approval, draft.packetId) == Some(row)
    ensures row.draft.content.Ask?
    ensures Guard(s, draft).1.None? <==>
      && draft.operator == row.draft.operator && draft.digest == row.draft.digest
      && draft.content.decisionId == row.draft.content.decisionId
      && draft.content.reasonCodes == row.draft.content.reasonCodes
    ensures draft.operator == row.draft.operator && Guard(s, draft).1.Some? ==> Guard(s, draft).1 == Some(Conflict)
    ensures draft.operator != row.draft.operator ==> Guard(s, draft).1 == Some(NotFound)
  {
    assert RowSound(o, s.rows, row);
    OwnedIsFound(s.rows, Intake, draft.packetId, draft.operator);
    OwnedIsFound(s.rows, Policy, draft.packetId, draft.operator);
  }

  /**
   A repeated approval request succeeds exactly when it repeats every field and comes from
   the session that made the first one; the owner's other sessions get `conflict`.
   */
  lemma ApprovalReplay(o: Oracle, s: State, draft: Draft, row: Row)
    requires RowsSound(o, s) && draft.service == Approval && AskWritten(o, draft)
    requires Find(s.rows, Approval, draft.packetId) == Some(row)
    requires IsAuthorized(s, draft.session, draft.operator, Approval)
    ensures row.draft.content.Ask?
    ensures PutAlone(o, s, draft).1 == s.rows
    ensures var same := draft.digest == row.draft.digest
                        && draft.content.decisionId == row.draft.content.decisionId
                        && draft.content.reasonCodes == row.draft.content.reasonCodes;
            PutAlone(o, s, draft).0
            == if draft.operator != row.draft.operator then Refused(Approval, draft.packetId, NotFound)
               else if same && draft.session == row.draft.session
               then Done(Approval, draft.packetId, draft.session, false, row)
               else Refused(Approval, draft.packetId, Conflict)
  {
    AskGuard(o, s, draft, row);
    assert RowSound(o, s.rows, row);
    RowReadable(o, s.rows, row);
  }

  /**
   Asking approval for a packet that policy allows does not answer `not_reviewable`: an
   allowed packet has no reason codes, and the query rejects an empty list first.
   */
  lemma AllowedPacketBreaksRequest(o: Oracle, s: State, draft: Draft, ruling: Row)
    requires Faithful(o) && RowsSound(o, s) && draft.service == Approval
    requires IsAuthorized(s, draft.session, draft.operator, Approval)
    requires Find(s.rows, Policy, draft.packetId) == Some(ruling) && ruling.draft.operator == draft.operator
    ensures ruling.draft.content.Ruling?
    ensures Guard(s, draft).1 == Some(Broken) <==> ruling.draft.content.decision.kind == Allow
    ensures Guard(s, draft).1 == Some(NotReviewable) <==> ruling.draft.content.decision.kind == Deny
    ensures ruling.draft.content.decision.kind == Allow ==>
      PutAlone(o, s, draft) == (Refused(Approval, draft.packetId, Broken), s.rows)
  {
    assert RowSound(o, s.rows, ruling);
    OwnedIsFound(s.rows, Intake, draft.packetId, draft.operator);
    OwnedIsFound(s.rows, Policy, draft.packetId, draft.operator);
    var i := Find(s.rows, Intake, draft.packetId).value;
    var p := PolicyInput(o, i).value;
    assert DecisionSound(p, o.decide(p, i.at));
  }
}
