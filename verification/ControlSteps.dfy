/**
 Every step of the control plane keeps the invariant.
 */
module ControlSteps {
  import opened Texts
  import opened Json
  import opened ControlPolicy
  import opened ControlPlane
  import opened ControlInvariant

  // ---------------------------------------------------------------- lookups

  /** Appending a row changes a lookup only under that row's own key. */
  lemma {:induction false} FindAppended(rows: seq<Row>, row: Row, service: Service, packetId: Text)
    ensures Find(rows + [row], service, packetId)
         == if Find(rows, service, packetId).Some? then Find(rows, service, packetId)
            else if Keyed(row, service, packetId) then Some(row) else None
  {
    var all := rows + [row];
    if rows == [] {
      assert all == [row] && all[1..] == [];
    } else {
      FindAppended(rows[1..], row, service, packetId);
      assert all[1..] == rows[1..] + [row];
    }
  }

  lemma UniqueRow(rows: seq<Row>, r: Row)
    requires Unique(rows) && r in rows
    ensures Find(rows, r.draft.service, r.draft.packetId) == Some(r)
  {
  }

  /** With unique keys a query that also names the owner is the lookup, filtered. */
  lemma OwnedIsFound(rows: seq<Row>, service: Service, packetId: Text, operator: Text)
    requires Unique(rows)
    ensures var f := Find(rows, service, packetId);
            FindOwned(rows, service, packetId, operator)
            == if f.Some? && f.value.draft.operator == operator then f else None
  {
  }

  /** Every decision has its intake, so the join sees every decision. */
  lemma JoinSeesDecision(o: Oracle, rows: seq<Row>, packetId: Text)
    requires Unique(rows) && forall r :: r in rows ==> RowSound(o, rows, r)
    ensures var d := Find(rows, Policy, packetId);
            JoinedDecision(rows, rows, packetId).Some? <==> d.Some?
    ensures var d, j := Find(rows, Policy, packetId), JoinedDecision(rows, rows, packetId);
            d.Some? ==> j.value.0 == d.value && Some(j.value.1) == Find(rows, Intake, packetId)
  {
    var d := Find(rows, Policy, packetId);
    var j := JoinedDecision(rows, rows, packetId);
    if j.Some? {
      UniqueRow(rows, j.value.0);
      UniqueRow(rows, j.value.1);
    }
    if d.Some? {
      assert RowSound(o, rows, d.value);
      var i := Find(rows, Intake, packetId).value;
      assert i in rows && Keyed(i, Intake, packetId);
    }
  }

  // ---------------------------------------------------------------- steps that write no row

  /** `t` is `s` later: same rows, sessions and operators kept, new events only on what nobody shares. */
  ghost predicate Later(s: State, t: State) {
    && t.rows == s.rows && s.clock <= t.clock
    && (forall x :: x in s.sessions ==> x in t.sessions && SessionLater(s, x, t.sessions[x]))
    && (forall x :: x in s.operators ==> x in t.operators && OperatorLater(s, x, t.operators[x]))
  }

  ghost predicate SessionLater(s: State, x: Text, n: Session)
    requires x in s.sessions
  {
    && n == s.sessions[x].(revokedAt := n.revokedAt)
    && (n.revokedAt != s.sessions[x].revokedAt ==> s.sessions[x].revokedAt.None? && !SessionShared(s, x))
  }

  ghost predicate OperatorLater(s: State, x: Text, n: Operator)
    requires x in s.operators
  {
    n.disabledAt != s.operators[x].disabledAt ==> s.operators[x].disabledAt.None? && !OperatorShared(s, x)
  }

  lemma RowStaysAuthorized(s: State, t: State, r: Row)
    requires Later(s, t) && RowAuthorized(s, r)
    ensures RowAuthorized(t, r)
  {
  }

  lemma TaskStaysSound(o: Oracle, s: State, t: State, c: int)
    requires Later(s, t) && c in s.tasks && TaskSound(o, s, s.tasks[c])
    ensures TaskSound(o, t, s.tasks[c])
  {
  }

  lemma ReplyStaysSound(s: State, t: State, r: Reply)
    requires Later(s, t) && ReplySound(s, r)
    ensures ReplySound(t, r)
  {
  }

  /** Steps that at most cut a transaction off. */
  lemma QuietStep(o: Oracle, s: State, t: State)
    requires Invariant(o, s) && Later(s, t) && t.log == s.log
    requires forall c :: c in t.tasks ==> c in s.tasks && t.tasks[c] == s.tasks[c]
    ensures Invariant(o, t)
  {
    forall r | r in t.rows ensures RowSound(o, t.rows, r) && RowAuthorized(t, r) {
      RowStaysAuthorized(s, t, r);
    }
    forall c | c in t.tasks ensures TaskSound(o, t, t.tasks[c]) {
      TaskStaysSound(o, s, t, c);
    }
    forall i | 0 <= i < |s.log| ensures ReplySound(t, s.log[i]) {
      ReplyStaysSound(s, t, s.log[i]);
    }
  }

  lemma SameTime(s: State, t: State)
    requires t.rows == s.rows && t.clock == s.clock && t.sessions == s.sessions && t.operators == s.operators
    ensures Later(s, t)
  {
  }

  predicate IsClaim(r: Reply) { (r.Done? && r.created) || r.RevokeDone? }

  /** Nobody but `c` has made this claim. */
  ghost predicate Unclaimed(s: State, c: int, r: Reply) {
    IsClaim(r) ==>
      && (forall i :: 0 <= i < |s.log| ==> !SameClaim(s.log[i], r))
      && (forall d :: d in s.tasks && d != c && s.tasks[d].Answering? ==> !SameClaim(s.tasks[d].reply, r))
  }

  lemma ClaimsMove(s: State, c: int, k: Task)
    requires ClaimsOnce(s) && (k.Answering? ==> Unclaimed(s, c, k.reply))
    ensures ClaimsOnce(Move(s, c, k))
  {
    var t := Move(s, c, k);
    assert forall d :: d in t.tasks && d != c ==> d in s.tasks && t.tasks[d] == s.tasks[d];
  }

  /** A client that starts or continues a transaction. */
  lemma MoveKeeps(o: Oracle, s: State, c: int, k: Task)
    requires Invariant(o, s) && TaskSound(o, s, k) && (k.Answering? ==> Unclaimed(s, c, k.reply))
    requires HoldsLock(k) ==>
      || (c in s.tasks && HoldsLock(s.tasks[c]) && LockKey(o, s.tasks[c]) == LockKey(o, k))
      || !LockHeld(o, s, LockKey(o, k))
    ensures Invariant(o, Move(s, c, k))
  {
    var t := Move(s, c, k);
    SameTime(s, t);
    forall d | d in t.tasks ensures TaskSound(o, t, t.tasks[d]) {
      if d == c { SoundElsewhere(o, s, t, k); } else { TaskStaysSound(o, s, t, d); }
    }
    assert LocksExclusive(o, t.tasks);
    forall r | r in t.rows ensures RowAuthorized(t, r) { RowStaysAuthorized(s, t, r); }
    forall i | 0 <= i < |s.log| ensures ReplySound(t, s.log[i]) { ReplyStaysSound(s, t, s.log[i]); }
    ClaimsMove(s, c, k);
  }

  lemma SoundElsewhere(o: Oracle, s: State, t: State, k: Task)
    requires TaskSound(o, s, k)
    requires t.rows == s.rows && t.clock == s.clock && t.sessions == s.sessions && t.operators == s.operators
    ensures TaskSound(o, t, k)
  {
  }

  /** A transaction that is over and has its answer ready. */
  lemma EndKeeps(o: Oracle, s: State, c: int, reply: Reply)
    requires Invariant(o, s) && ReplySound(s, reply) && Unclaimed(s, c, reply)
    ensures Invariant(o, End(s, c, reply))
  {
    MoveKeeps(o, s, c, Answering(reply));
  }

  lemma ClaimsAnswer(s: State, c: int)
    requires ClaimsOnce(s) && c in s.tasks && s.tasks[c].Answering?
    ensures ClaimsOnce(Answer(s, c, s.tasks[c].reply))
  {
    var t := Answer(s, c, s.tasks[c].reply);
    assert forall d :: d in t.tasks ==> d in s.tasks && d != c && t.tasks[d] == s.tasks[d];
    assert forall i :: 0 <= i < |s.log| ==> t.log[i] == s.log[i];
  }

  /** Giving an answer that was on its way. */
  lemma AnswerKeeps(o: Oracle, s: State, c: int)
    requires Invariant(o, s) && c in s.tasks && s.tasks[c].Answering?
    ensures Invariant(o, Answer(s, c, s.tasks[c].reply))
  {
    var reply := s.tasks[c].reply;
    var t, rest := Answer(s, c, reply), s.(tasks := s.tasks - {c});
    assert TaskSound(o, s, s.tasks[c]);
    SameTime(s, rest);
    QuietStep(o, s, rest);
    SameTime(rest, t);
    SameTime(s, t);
    forall d | d in t.tasks ensures TaskSound(o, t, t.tasks[d]) { TaskStaysSound(o, rest, t, d); }
    forall r | r in t.rows ensures RowAuthorized(t, r) { RowStaysAuthorized(s, t, r); }
    forall i | 0 <= i < |t.log| ensures ReplySound(t, t.log[i]) { ReplyStaysSound(s, t, t.log[i]); }
    ClaimsAnswer(s, c);
  }

  // ---------------------------------------------------------------- writing a row

  lemma AboutGrows(rows: seq<Row>, row: Row, d: Draft, i: Row)
    requires About(rows, d, i)
    ensures About(rows + [row], d, i)
  {
    FindAppended(rows, row, Intake, d.packetId);
  }

  lemma RulingGrows(o: Oracle, rows: seq<Row>, row: Row, d: Draft)
    requires RulingSound(o, rows, d)
    ensures RulingSound(o, rows + [row], d)
  {
    FindAppended(rows, row, Intake, d.packetId);
    AboutGrows(rows, row, d, Find(rows, Intake, d.packetId).value);
  }

  lemma AskGrows(o: Oracle, rows: seq<Row>, row: Row, d: Draft)
    requires AskSound(o, rows, d)
    ensures AskSound(o, rows + [row], d)
  {
    FindAppended(rows, row, Intake, d.packetId);
    FindAppended(rows, row, Policy, d.packetId);
    AboutGrows(rows, row, d, Find(rows, Intake, d.packetId).value);
  }

  lemma RowGrows(o: Oracle, rows: seq<Row>, row: Row, r: Row)
    requires RowSound(o, rows, r)
    ensures RowSound(o, rows + [row], r)
  {
    match r.draft.service
    case Intake =>
    case Policy => RulingGrows(o, rows, row, r.draft);
    case Approval => AskGrows(o, rows, row, r.draft);
  }

  lemma DraftGrows(o: Oracle, rows: seq<Row>, row: Row, d: Draft)
    requires DraftSound(o, rows, d)
    ensures DraftSound(o, rows + [row], d)
  {
    if d.service == Policy { RulingGrows(o, rows, row, d); }
  }

  lemma PassedGrows(o: Oracle, rows: seq<Row>, row: Row, d: Draft, input: Option<Row>)
    requires DraftSound(o, rows, d) && Passed(o, rows, d, input)
    ensures Passed(o, rows + [row], d, input)
  {
    if d.service == Policy { FindAppended(rows, row, Intake, d.packetId); }
    if d.service == Approval { AskGrows(o, rows, row, d); }
  }

  /** Whether a task relies on there being no row under its key. */
  predicate NeedsAbsence(k: Task) { k.Put? && (k.phase.Fresh? || k.phase.Inserted?) }

  lemma PhaseGrows(o: Oracle, s: State, row: Row, d: Draft, phase: Phase)
    requires DraftSound(o, s.rows, d) && PhaseSound(o, s, d, phase)
    requires phase.Fresh? || phase.Inserted? ==> !Keyed(row, d.service, d.packetId)
    ensures PhaseSound(o, s.(rows := s.rows + [row]), d, phase)
  {
    FindAppended(s.rows, row, d.service, d.packetId);
    match phase
    case Guarded(input) => PassedGrows(o, s.rows, row, d, input);
    case Fresh(input) => PassedGrows(o, s.rows, row, d, input);
    case Found(_, input) => PassedGrows(o, s.rows, row, d, input);
    case Inserted(_, input) => PassedGrows(o, s.rows, row, d, input);
    case _ =>
  }

  lemma TaskGrows(o: Oracle, s: State, row: Row, k: Task)
    requires TaskSound(o, s, k)
    requires NeedsAbsence(k) ==> !Keyed(row, k.draft.service, k.draft.packetId)
    ensures TaskSound(o, s.(rows := s.rows + [row]), k)
  {
    match k
    case Put(d, phase) =>
      DraftGrows(o, s.rows, row, d);
      PhaseGrows(o, s, row, d, phase);
    case Get(_, packetId, _, _, _) => FindAppended(s.rows, row, Intake, packetId);
    case Answering(reply) => ReplyGrows(s, row, reply);
    case _ =>
  }

  lemma ReplyGrows(s: State, row: Row, r: Reply)
    requires ReplySound(s, r)
    ensures ReplySound(s.(rows := s.rows + [row]), r)
  {
    match r
    case Done(service, packetId, _, _, _) => FindAppended(s.rows, row, service, packetId);
    case Seen(service, packetId, _, _, _) => FindAppended(s.rows, row, service, packetId);
    case _ =>
  }

  lemma UniqueGrows(rows: seq<Row>, row: Row)
    requires Unique(rows) && Find(rows, row.draft.service, row.draft.packetId) == None
    ensures Unique(rows + [row])
  {
    forall i | 0 <= i < |rows| ensures !Keyed(row, rows[i].draft.service, rows[i].draft.packetId) {
      assert rows[i] in rows;
    }
  }

  /** The rows after the new one is appended. */
  lemma RowsGrow(o: Oracle, s: State, row: Row)
    requires RowsSound(o, s) && Find(s.rows, row.draft.service, row.draft.packetId) == None
    requires RowSound(o, s.rows, row) && RowAuthorized(s, row)
    ensures RowsSound(o, s.(rows := s.rows + [row]))
  {
    var t := s.(rows := s.rows + [row]);
    UniqueGrows(s.rows, row);
    forall r | r in t.rows ensures RowSound(o, t.rows, r) && RowAuthorized(t, r) {
      assert r in s.rows || r == row;
      RowGrows(o, s.rows, row, r);
    }
  }

  lemma LogGrowsRow(s: State, row: Row)
    requires LogSound(s)
    ensures LogSound(s.(rows := s.rows + [row]))
  {
    var t := s.(rows := s.rows + [row]);
    forall i | 0 <= i < |t.log| ensures ReplySound(t, t.log[i]) {
      ReplyGrows(s, row, s.log[i]);
    }
  }

  /** Only the holder of the lock relies on the absence of the row it is about to write. */
  lemma OthersDoNotCare(o: Oracle, s: State, c: int, d: int)
    requires LocksExclusive(o, s.tasks) && c in s.tasks && d in s.tasks && c != d
    requires HoldsLock(s.tasks[c]) && NeedsAbsence(s.tasks[d])
    ensures s.tasks[c].draft.service != s.tasks[d].draft.service || s.tasks[c].draft.packetId != s.tasks[d].draft.packetId
  {
  }

  /** Writing a row keeps the invariant of the state without the writer. */
  lemma WriteKeeps(o: Oracle, s: State, c: int, row: Row)
    requires Invariant(o, s) && c in s.tasks && HoldsLock(s.tasks[c])
    requires Keyed(row, s.tasks[c].draft.service, s.tasks[c].draft.packetId)
    requires Find(s.rows, row.draft.service, row.draft.packetId) == None
    requires RowSound(o, s.rows, row) && RowAuthorized(s, row)
    ensures Invariant(o, s.(tasks := s.tasks - {c}, rows := s.rows + [row]))
  {
    var rest := s.(tasks := s.tasks - {c});
    SameTime(s, rest);
    QuietStep(o, s, rest);
    RowStaysAuthorized(s, rest, row);
    RowsGrow(o, rest, row);
    LogGrowsRow(rest, row);
    var t := rest.(rows := rest.rows + [row]);
    forall d | d in t.tasks ensures TaskSound(o, t, t.tasks[d]) {
      if NeedsAbsence(s.tasks[d]) { OthersDoNotCare(o, s, c, d); }
      TaskGrows(o, rest, row, rest.tasks[d]);
    }
  }

  /** A row under the transaction's key passes the service's check, for the services that never conflict. */
  lemma RulingVerifies(o: Oracle, s: State, draft: Draft, row: Row, input: Option<Row>)
    requires Faithful(o) && RowsSound(o, s) && draft.service == Policy
    requires RulingSound(o, s.rows, draft) && RulingSound(o, s.rows, row.draft)
    requires row.draft.packetId == draft.packetId && input == Find(s.rows, Intake, draft.packetId)
    ensures VerifyPut(draft, row, input)
  {
  }

  lemma InsertedRowSound(o: Oracle, s: State, draft: Draft, row: Row, input: Option<Row>)
    requires DraftSound(o, s.rows, draft) && PhaseSound(o, s, draft, Inserted(row, input))
    ensures RowSound(o, s.rows, row)
  {
  }

  /** While a packet has no row, nobody has claimed its creation. */
  lemma NeverCreated(o: Oracle, s: State, c: int, reply: Reply)
    requires Invariant(o, s) && reply.Done? && Find(s.rows, reply.service, reply.packetId) == None
    ensures Unclaimed(s, c, reply)
  {
    forall i | 0 <= i < |s.log| ensures !SameClaim(s.log[i], reply) {
      assert ReplySound(s, s.log[i]);
    }
    forall d | d in s.tasks && s.tasks[d].Answering? ensures !SameClaim(s.tasks[d].reply, reply) {
      assert TaskSound(o, s, s.tasks[d]);
    }
  }

  /** The state after a commit, its answer still on its way. */
  function Committed(s: State, c: int, row: Row, reply: Reply): State {
    End(s.(tasks := s.tasks - {c}, rows := s.rows + [row]), c, reply)
  }

  lemma CommittedKeeps(o: Oracle, s: State, c: int, row: Row, reply: Reply)
    requires Invariant(o, s.(tasks := s.tasks - {c}, rows := s.rows + [row]))
    requires ReplySound(s.(tasks := s.tasks - {c}, rows := s.rows + [row]), reply) && Unclaimed(s, c, reply)
    ensures Invariant(o, Committed(s, c, row, reply))
  {
    EndKeeps(o, s.(tasks := s.tasks - {c}, rows := s.rows + [row]), c, reply);
  }

  lemma CommitIs(o: Oracle, s: State, c: int, draft: Draft, row: Row, input: Option<Row>)
    requires VerifyPut(draft, row, input)
    ensures StepPut(o, s, c, draft, Inserted(row, input))
         == Committed(s, c, row, Done(draft.service, draft.packetId, draft.session, true, row))
  {
    var reply := Done(draft.service, draft.packetId, draft.session, true, row);
    assert (s.tasks - {c})[c := Answering(reply)] == s.tasks[c := Answering(reply)];
  }

  /** Committing a new row: the service's check passes and the claim of having created it is the first. */
  lemma CommitKeeps(o: Oracle, s: State, c: int, draft: Draft, row: Row, input: Option<Row>)
    requires Faithful(o) && Invariant(o, s) && c in s.tasks && s.tasks[c] == Put(draft, Inserted(row, input))
    ensures VerifyPut(draft, row, input)
    ensures Invariant(o, StepPut(o, s, c, draft, Inserted(row, input)))
  {
    assert TaskSound(o, s, s.tasks[c]);
    InsertedRowSound(o, s, draft, row, input);
    if draft.service == Policy { RulingVerifies(o, s, draft, row, input); }
    WriteKeeps(o, s, c, row);
    var reply := Done(draft.service, draft.packetId, draft.session, true, row);
    NeverCreated(o, s, c, reply);
    FindAppended(s.rows, row, draft.service, draft.packetId);
    CommittedKeeps(o, s, c, row, reply);
    CommitIs(o, s, c, draft, row, input);
  }

  // ---------------------------------------------------------------- the other statements of a write

  lemma DraftReadable(o: Oracle, rows: seq<Row>, draft: Draft, at: int)
    requires DraftSound(o, rows, draft)
    ensures Readable(o, Row(draft, at))
  {
  }

  lemma RowReadable(o: Oracle, rows: seq<Row>, r: Row)
    requires RowSound(o, rows, r)
    ensures Readable(o, r)
  {
  }

  /** What the guard lets through, and that it never finds a conflict for a policy decision. */
  lemma GuardPasses(o: Oracle, s: State, draft: Draft)
    requires RowsSound(o, s) && DraftSound(o, s.rows, draft)
    ensures Guard(s, draft).1.None? ==> Passed(o, s.rows, draft, Guard(s, draft).0)
    ensures draft.service != Approval ==> Guard(s, draft).1.None?
  {
    OwnedIsFound(s.rows, Intake, draft.packetId, draft.operator);
    OwnedIsFound(s.rows, Policy, draft.packetId, draft.operator);
  }

  lemma LookupSound(o: Oracle, s: State, draft: Draft, input: Option<Row>)
    requires RowsSound(o, s) && DraftSound(o, s.rows, draft) && Passed(o, s.rows, draft, input)
    ensures PhaseSound(o, s, draft, Lookup(o, s, draft, input))
    ensures Lookup(o, s, draft, input).Found? ==> Readable(o, Lookup(o, s, draft, input).row)
  {
    if draft.service == Policy { JoinSeesDecision(o, s.rows, draft.packetId); }
    var next := Lookup(o, s, draft, input);
    if next.Found? {
      assert next.row in s.rows;
      RowReadable(o, s.rows, next.row);
    }
  }

  lemma LockKeeps(o: Oracle, s: State, c: int, draft: Draft)
    requires Invariant(o, s) && c in s.tasks && s.tasks[c] == Put(draft, Waiting)
    ensures Invariant(o, StepPut(o, s, c, draft, Waiting))
  {
    assert TaskSound(o, s, s.tasks[c]);
    if !LockHeld(o, s, o.lockKey(draft.service, draft.packetId)) { MoveKeeps(o, s, c, Put(draft, Locked)); }
  }

  lemma AuthorizeKeeps(o: Oracle, s: State, c: int, draft: Draft)
    requires Invariant(o, s) && c in s.tasks && s.tasks[c] == Put(draft, Locked)
    ensures Invariant(o, StepPut(o, s, c, draft, Locked))
  {
    assert TaskSound(o, s, s.tasks[c]);
    if IsAuthorized(s, draft.session, draft.operator, draft.service) {
      MoveKeeps(o, s, c, Put(draft, Authorized));
    } else {
      EndKeeps(o, s, c, Refused(draft.service, draft.packetId, AuthorizationChanged));
    }
  }

  lemma GuardKeeps(o: Oracle, s: State, c: int, draft: Draft)
    requires Invariant(o, s) && c in s.tasks && s.tasks[c] == Put(draft, Authorized)
    ensures Invariant(o, StepPut(o, s, c, draft, Authorized))
  {
    assert TaskSound(o, s, s.tasks[c]);
    GuardPasses(o, s, draft);
    var (input, code) := Guard(s, draft);
    if code.Some? {
      EndKeeps(o, s, c, Refused(draft.service, draft.packetId, code.value));
    } else {
      MoveKeeps(o, s, c, Put(draft, Guarded(input)));
    }
  }

  lemma LookupKeeps(o: Oracle, s: State, c: int, draft: Draft, input: Option<Row>)
    requires Invariant(o, s) && c in s.tasks && s.tasks[c] == Put(draft, Guarded(input))
    ensures Invariant(o, StepPut(o, s, c, draft, Guarded(input)))
  {
    assert TaskSound(o, s, s.tasks[c]);
    LookupSound(o, s, draft, input);
    MoveKeeps(o, s, c, Put(draft, Lookup(o, s, draft, input)));
  }

  lemma InsertKeeps(o: Oracle, s: State, c: int, draft: Draft, input: Option<Row>)
    requires Invariant(o, s) && c in s.tasks && s.tasks[c] == Put(draft, Fresh(input))
    ensures Invariant(o, StepPut(o, s, c, draft, Fresh(input)))
  {
    assert TaskSound(o, s, s.tasks[c]);
    if IsAuthorized(s, draft.session, draft.operator, draft.service) {
      DraftReadable(o, s.rows, draft, s.clock);
      MoveKeeps(o, s, c, Put(draft, Inserted(Row(draft, s.clock), input)));
    } else {
      AbortKeeps(o, s, c);
    }
  }

  lemma AbortKeeps(o: Oracle, s: State, c: int)
    requires Invariant(o, s)
    ensures Invariant(o, s.(tasks := s.tasks - {c}))
  {
    var t := s.(tasks := s.tasks - {c});
    SameTime(s, t);
    QuietStep(o, s, t);
  }

  lemma FoundKeeps(o: Oracle, s: State, c: int, draft: Draft, row: Row, input: Option<Row>)
    requires Faithful(o) && Invariant(o, s) && c in s.tasks && s.tasks[c] == Put(draft, Found(row, input))
    ensures draft.service == Policy ==> VerifyPut(draft, row, input)
    ensures Invariant(o, StepPut(o, s, c, draft, Found(row, input)))
  {
    assert TaskSound(o, s, s.tasks[c]);
    assert RowSound(o, s.rows, row);
    if draft.service == Policy { RulingVerifies(o, s, draft, row, input); }
    EndKeeps(o, s, c, Outcome(draft, row, input, false));
  }

  lemma PutKeeps(o: Oracle, s: State, c: int, draft: Draft, phase: Phase)
    requires Faithful(o) && Invariant(o, s) && c in s.tasks && s.tasks[c] == Put(draft, phase)
    ensures Invariant(o, StepPut(o, s, c, draft, phase))
  {
    match phase
    case Waiting => LockKeeps(o, s, c, draft);
    case Locked => AuthorizeKeeps(o, s, c, draft);
    case Authorized => GuardKeeps(o, s, c, draft);
    case Guarded(input) => LookupKeeps(o, s, c, draft, input);
    case Fresh(input) => InsertKeeps(o, s, c, draft, input);
    case Found(row, input) => FoundKeeps(o, s, c, draft, row, input);
    case Inserted(row, input) => CommitKeeps(o, s, c, draft, row, input);
  }

  // ---------------------------------------------------------------- loading, reading, revoking

  lemma LoadKeeps(o: Oracle, s: State, c: int, packetId: Text, operator: Text, session: Text, checked: bool)
    requires Invariant(o, s) && c in s.tasks && s.tasks[c] == Load(packetId, operator, session, checked)
    ensures Invariant(o, StepLoad(o, s, c, packetId, operator, session, checked))
  {
    if !checked {
      if IsAuthorized(s, session, operator, Policy) { MoveKeeps(o, s, c, Load(packetId, operator, session, true)); }
      else { EndKeeps(o, s, c, Refused(Policy, packetId, AuthorizationChanged)); }
    } else {
      OwnedIsFound(s.rows, Intake, packetId, operator);
      var input := FindOwned(s.rows, Intake, packetId, operator);
      if input.None? {
        EndKeeps(o, s, c, Refused(Policy, packetId, NotFound));
      } else {
        assert RowSound(o, s.rows, input.value);
        var draft := RulingDraft(o, input.value, PolicyInput(o, input.value).value, operator, session);
        assert RulingSound(o, s.rows, draft);
        MoveKeeps(o, s, c, Put(draft, Waiting));
      }
    }
  }

  /** A decision read together with its packet's intake is the one the policy function gives. */
  lemma ReadVerifies(o: Oracle, s: State, packetId: Text, operator: Text, input: Row)
    requires Faithful(o) && RowsSound(o, s)
    requires Find(s.rows, Intake, packetId) == Some(input) && input.draft.operator == operator
    ensures var joined := JoinedDecision(s.rows, s.rows, packetId);
            joined.Some? ==>
              && joined.value.0 == Find(s.rows, Policy, packetId).value
              && PolicyInput(o, input).Some?
              && VerifyDecision(joined.value.0, input, o.decide(PolicyInput(o, input).value, input.at), operator)
    ensures JoinedDecision(s.rows, s.rows, packetId).Some? <==> Find(s.rows, Policy, packetId).Some?
  {
    JoinSeesDecision(o, s.rows, packetId);
    var d := Find(s.rows, Policy, packetId);
    if d.Some? {
      assert RowSound(o, s.rows, d.value) && RowSound(o, s.rows, input);
      assert DecisionSound(PolicyInput(o, input).value, o.decide(PolicyInput(o, input).value, input.at));
    }
  }

  lemma GetKeeps(o: Oracle, s: State, c: int, service: Service, packetId: Text, operator: Text, session: Text, stage: Stage)
    requires Faithful(o) && Invariant(o, s) && c in s.tasks
    requires s.tasks[c] == Get(service, packetId, operator, session, stage)
    ensures Invariant(o, StepGet(o, s, c, service, packetId, operator, session, stage))
  {
    assert TaskSound(o, s, s.tasks[c]);
    match stage
    case Opened =>
      if IsAuthorized(s, session, operator, service) { MoveKeeps(o, s, c, Get(service, packetId, operator, session, Checked)); }
      else { EndKeeps(o, s, c, Refused(service, packetId, AuthorizationChanged)); }
    case Checked =>
      var table := if service == Policy then Intake else service;
      OwnedIsFound(s.rows, table, packetId, operator);
      var found := FindOwned(s.rows, table, packetId, operator);
      if found.None? { EndKeeps(o, s, c, Refused(service, packetId, NotFound)); }
      else if service == Policy { MoveKeeps(o, s, c, Get(service, packetId, operator, session, Loaded(found.value))); }
      else {
        RowReadable(o, s.rows, found.value);
        EndKeeps(o, s, c, Seen(service, packetId, operator, session, found.value));
      }
    case Loaded(input) =>
      ReadVerifies(o, s, packetId, operator, input);
      var joined := JoinedDecision(s.rows, s.rows, packetId);
      if joined.None? { EndKeeps(o, s, c, Refused(service, packetId, NotFound)); }
      else { EndKeeps(o, s, c, Seen(service, packetId, operator, session, joined.value.0)); }
  }

  lemma NeverRevoked(o: Oracle, s: State, c: int, session: Text)
    requires Invariant(o, s) && session in s.sessions && s.sessions[session].revokedAt.None?
    ensures Unclaimed(s, c, RevokeDone(session))
  {
    forall i | 0 <= i < |s.log| ensures !SameClaim(s.log[i], RevokeDone(session)) {
      assert ReplySound(s, s.log[i]);
    }
    forall d | d in s.tasks && s.tasks[d].Answering? ensures !SameClaim(s.tasks[d].reply, RevokeDone(session)) {
      assert TaskSound(o, s, s.tasks[d]);
    }
  }

  lemma RevokeKeeps(o: Oracle, s: State, c: int, session: Text, at: Option<int>)
    requires Invariant(o, s) && c in s.tasks && s.tasks[c] == Revoke(session, at)
    ensures Invariant(o, StepRevoke(s, c, session, at))
  {
    if at.None? {
      MoveKeeps(o, s, c, Revoke(session, Some(s.clock)));
    } else if SessionShared(s, session) {
    } else if session !in s.sessions || s.sessions[session].revokedAt.Some? {
      EndKeeps(o, s, c, RevokeRefused(session, RevokedSession));
    } else {
      var t := RevokeRow(s, session, at.value);
      QuietStep(o, s, t);
      NeverRevoked(o, s, c, session);
      EndKeeps(o, t, c, RevokeDone(session));
    }
  }
}
