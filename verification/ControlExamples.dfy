/**
 Two runs of the control plane, step by step: a row that ends up later than its session's stored
 revocation time, and an approval request on an allowed packet that fails as broken storage.
 */
module ControlExamples {
  import opened Texts
  import opened Bytes
  import opened Json
  import opened Grammar
  import opened ControlPolicy
  import opened ControlPlane
  import opened ControlInvariant
  import opened ControlSteps
  import opened ControlRuns
  import opened ControlHistory
  import opened ControlStore
  import I = Inspector
  import B = IntakeBody

  // ---------------------------------------------------------------- runs, piece by piece

  ghost predicate Reaches(o: Oracle, s: State, t: State) { exists actions :: Run(o, s, actions) == t }

  lemma ReachesStep(o: Oracle, s: State, a: Action, t: State)
    requires Step(o, s, a) == t
    ensures Reaches(o, s, t)
  {
    assert [a][..0] == [];
    assert Run(o, s, [a]) == Step(o, Run(o, s, [a][..0]), a);
  }

  lemma {:induction false} RunJoins(o: Oracle, s: State, a: seq<Action>, b: seq<Action>)
    ensures Run(o, s, a + b) == Run(o, Run(o, s, a), b)
    decreases |b|
  {
    if b == [] {
      assert a + b == a;
    } else {
      RunJoins(o, s, a, b[..|b| - 1]);
      assert (a + b)[..|a + b| - 1] == a + b[..|b| - 1];
    }
  }

  lemma ReachesJoins(o: Oracle, s: State, t: State, u: State)
    requires Reaches(o, s, t) && Reaches(o, t, u)
    ensures Reaches(o, s, u)
  {
    var a :| Run(o, s, a) == t;
    var b :| Run(o, t, b) == u;
    RunJoins(o, s, a, b);
  }

  lemma ReachesAlone(o: Oracle, s: State, c: int, n: nat)
    ensures Reaches(o, s, Alone(o, s, c, n))
  {
    AloneIsRun(o, s, c, n);
  }

  // ---------------------------------------------------------------- a body, a packet, a session

  const HEAP: I.Heap := Wrapping(B.PACKET_KEY)
  const BODY: I.Value := I.Ref(0)

  lemma {:induction false} EscapeBound(s: Text)
    ensures |Escape(s)| <= 6 * |s|
  {
    if s != [] {
      if |s| > 1 && IsHighSurrogate(s[0]) && IsLowSurrogate(s[1]) { EscapeBound(s[2..]); } else { EscapeBound(s[1..]); }
    }
  }

  lemma {:induction false} BytesBound(t: Text)
    ensures |Utf8(t)| <= 4 * |t|
  {
    if t != [] {
      if |t| > 1 && IsHighSurrogate(t[0]) && IsLowSurrogate(t[1]) { BytesBound(t[2..]); } else { BytesBound(t[1..]); }
    }
  }

  const TREE: I.Tree := I.Tree(BODY, [I.Tree(I.Null, [])])

  function Wrapping(key: Text): I.Heap { map[0 := I.Object(true, false, [I.Entry(key, true, I.Null)])] }

  lemma WrappingAccepted(key: Text)
    requires I.ByteLength(key) <= 128
    ensures I.Acceptable(Wrapping(key), BODY, TREE)
  {
    var h := Wrapping(key);
    var es := h[0].entries;
    assert I.Entries(h[0]) == es && es[1..] == [] && TREE.below[1..] == [];
    assert I.UnfoldsAll(h, es[1..], TREE.below[1..]);
    assert I.UnfoldsAll(h, es, TREE.below);
  }

  lemma WrappingText(key: Text)
    ensures |B.Stringify(Wrapping(key), TREE)| <= 6 * |key| + 9
  {
    var h := Wrapping(key);
    var es := h[0].entries;
    EscapeBound(key);
    assert B.StringifyAll(h, es, TREE.below, true) == PrintString(key) + [COLON] + NULL;
  }

  lemma WrappingFits(key: Text)
    requires key == B.PACKET_KEY && |key| == 6
    ensures B.BoundedRequest(Wrapping(key), BODY) == B.Fits(I.Null)
  {
    BytesBound(key);
    WrappingAccepted(key);
    WrappingText(key);
    BytesBound(B.Stringify(Wrapping(key), TREE));
    B.BoundedExactly(Wrapping(key), BODY);
  }

  lemma BodyFits()
    ensures B.BoundedRequest(HEAP, BODY) == B.Fits(I.Null)
  {
    WrappingFits(B.PACKET_KEY);
  }

  const PACKET_ID: Text := Ascii("pkt_") + [0x61, 0x61, 0x61, 0x61, 0x61, 0x61, 0x61, 0x61]
  const OPERATOR: Text := [0x6F]
  const SESSION: Text := [0x73]
  const DIGEST: Text := [0x64]

  /** Asks for nothing, so policy allows it. */
  const PACKET: Packet := Packet(PACKET_ID, [], [], [], [], [], [], 0, false, true, Null)

  const START: State :=
    State(0, map[OPERATOR := Operator({Intake, Policy, Approval}, None)], map[], [], map[], [])

  const READY: State := START.(sessions := map[SESSION := Session(OPERATOR, {Intake, Policy, Approval}, 0, 60000, None)])

  lemma PacketIdFits()
    ensures PacketIdShape(PACKET_ID)
  {
  }

  /** The oracle of these runs: everything validates to the one packet. */
  ghost predicate Sample(o: Oracle) {
    && Faithful(o) && (forall v :: o.validate(v) == Some(PACKET)) && o.hash(PACKET) == DIGEST
    && forall q, t :: o.decide(q, t) == Decide(q, t)
  }

  lemma SampleExists() returns (o: Oracle)
    ensures Sample(o)
  {
    o := AssumptionsConsistent(PACKET, DIGEST);
  }

  lemma Live(s: State, service: Service)
    requires s.operators == READY.operators && s.sessions == READY.sessions && 0 <= s.clock < 60000
    ensures IsAuthorized(s, SESSION, OPERATOR, service)
  {
  }

  ghost function Submitted(o: Oracle): Draft { IntakeDraft(o, PACKET, OPERATOR, SESSION) }

  lemma Beginning(o: Oracle)
    requires Sample(o)
    ensures Initial(START)
    ensures Reaches(o, START, Move(READY, 1, Put(Submitted(o), Waiting)))
  {
    ReachesStep(o, START, Issue(SESSION, OPERATOR, 60), READY);
    BodyFits();
    ReachesStep(o, READY, Submit(1, HEAP, BODY, OPERATOR, SESSION), Move(READY, 1, Put(Submitted(o), Waiting)));
    ReachesJoins(o, START, READY, Move(READY, 1, Put(Submitted(o), Waiting)));
  }

  // ---------------------------------------------------------------- calls that run alone

  lemma PutAloneMoved(o: Oracle, s: State, c: int, k: Task, draft: Draft)
    ensures PutAlone(o, Move(s, c, k), draft) == PutAlone(o, s, draft)
  {
  }

  /** The state after a call that had the database to itself. */
  function AfterCall(o: Oracle, s: State, draft: Draft): State {
    var (reply, rows) := PutAlone(o, s, draft);
    s.(rows := rows, log := s.log + [reply])
  }

  lemma AnswerStep(o: Oracle, s: State, c: int, result: (Reply, seq<Row>))
    requires s.tasks == map[]
    ensures Step(o, Ended(Move(s, c, Answering(result.0)), c, result), Advance(c))
         == s.(rows := result.1, log := s.log + [result.0])
  {
    var e := Ended(Move(s, c, Answering(result.0)), c, result);
    assert e.tasks == map[c := Answering(result.0)];
    assert e.tasks - {c} == map[];
  }

  lemma CallCompletes(o: Oracle, s: State, c: int, draft: Draft)
    requires Faithful(o) && Invariant(o, s) && s.tasks == map[] && DraftSound(o, s.rows, draft)
    ensures Reaches(o, Move(s, c, Put(draft, Waiting)), AfterCall(o, s, draft))
  {
    var w := Move(s, c, Put(draft, Waiting));
    MoveKeeps(o, s, c, Put(draft, Waiting));
    AloneIsPut(o, w, c, draft);
    PutAloneMoved(o, s, c, Put(draft, Waiting), draft);
    var result := PutAlone(o, s, draft);
    var e := Ended(w, c, result);
    ReachesAlone(o, w, c, Statements(o, w, draft));
    AnswerStep(o, s, c, result);
    assert e == Ended(Move(s, c, Answering(result.0)), c, result) by {
      Moved(s, c, Put(draft, Waiting), Answering(result.0));
      Moved(s, c, Answering(result.0), Answering(result.0));
    }
    ReachesStep(o, e, Advance(c), AfterCall(o, s, draft));
    ReachesJoins(o, w, e, AfterCall(o, s, draft));
  }

  lemma ReachableSound(o: Oracle, s: State)
    requires Faithful(o) && Reaches(o, START, s)
    ensures Invariant(o, s)
  {
    var actions :| Run(o, START, actions) == s;
    ReachableInvariant(o, START, actions);
  }

  // ---------------------------------------------------------------- an allowed packet breaks its approval request

  function IntakeRow(o: Oracle): Row { Row(IntakeDraft(o, PACKET, OPERATOR, SESSION), 0) }

  ghost function RulingRow(o: Oracle): Row {
    Row(RulingDraft(o, IntakeRow(o), PACKET, OPERATOR, SESSION), 0)
  }

  lemma SubmittedIsSound(o: Oracle, rows: seq<Row>)
    requires Sample(o)
    ensures DraftSound(o, rows, Submitted(o))
    ensures PolicyInput(o, IntakeRow(o)) == Some(PACKET)
  {
    BodyFits();
    SubmittedSound(o, rows, HEAP, BODY, PACKET, OPERATOR, SESSION);
    assert PolicyInput(o, IntakeRow(o)) == PolicyInput(o, Row(Submitted(o), 0));
  }

  ghost function WithIntake(o: Oracle): State {
    READY.(rows := [IntakeRow(o)], log := [Done(Intake, PACKET_ID, SESSION, true, IntakeRow(o))])
  }

  lemma ReadySound(o: Oracle)
    requires Sample(o)
    ensures Invariant(o, READY)
  {
    ReachesStep(o, START, Issue(SESSION, OPERATOR, 60), READY);
    ReachableSound(o, READY);
  }

  lemma IntakeHappens(o: Oracle)
    requires Sample(o)
    ensures Reaches(o, START, WithIntake(o))
  {
    Beginning(o);
    SubmittedIsSound(o, []);
    ReadySound(o);
    Live(READY, Intake);
    FirstPutSucceeds(o, READY, Submitted(o));
    CallCompletes(o, READY, 1, Submitted(o));
    assert AfterCall(o, READY, Submitted(o)) == WithIntake(o);
    ReachesJoins(o, START, Move(READY, 1, Put(Submitted(o), Waiting)), WithIntake(o));
  }

  ghost function WithRuling(o: Oracle): State {
    var s := WithIntake(o);
    s.(rows := [IntakeRow(o), RulingRow(o)], log := s.log + [Done(Policy, PACKET_ID, SESSION, true, RulingRow(o))])
  }

  /** `evaluate` up to its write transaction. */
  lemma EvaluateStarts(o: Oracle)
    requires Sample(o)
    ensures Reaches(o, WithIntake(o), Move(WithIntake(o), 1, Put(RulingRow(o).draft, Waiting)))
  {
    var s := WithIntake(o);
    var a := Move(s, 1, Load(PACKET_ID, OPERATOR, SESSION, false));
    var b := Move(s, 1, Load(PACKET_ID, OPERATOR, SESSION, true));
    var c := Move(s, 1, Put(RulingRow(o).draft, Waiting));
    PacketIdFits();
    ReachesStep(o, s, Evaluate(1, PACKET_ID, OPERATOR, SESSION), a);
    Live(a, Policy);
    LoadChecks(o, s, 1, PACKET_ID, OPERATOR, SESSION);
    ReachesStep(o, a, Advance(1), b);
    SubmittedIsSound(o, []);
    LoadFinds(o, s, 1, PACKET_ID, OPERATOR, SESSION, IntakeRow(o), PACKET);
    ReachesStep(o, b, Advance(1), c);
    ReachesJoins(o, s, a, b);
    ReachesJoins(o, s, b, c);
  }

  lemma LoadChecks(o: Oracle, s: State, c: int, packetId: Text, operator: Text, session: Text)
    requires IsAuthorized(s, session, operator, Policy)
    ensures Step(o, Move(s, c, Load(packetId, operator, session, false)), Advance(c))
         == Move(s, c, Load(packetId, operator, session, true))
  {
    Moved(s, c, Load(packetId, operator, session, false), Load(packetId, operator, session, true));
  }

  lemma LoadFinds(o: Oracle, s: State, c: int, packetId: Text, operator: Text, session: Text, input: Row, p: Packet)
    requires FindOwned(s.rows, Intake, packetId, operator) == Some(input) && PolicyInput(o, input) == Some(p)
    ensures Step(o, Move(s, c, Load(packetId, operator, session, true)), Advance(c))
         == Move(s, c, Put(RulingDraft(o, input, p, operator, session), Waiting))
  {
    Moved(s, c, Load(packetId, operator, session, true), Put(RulingDraft(o, input, p, operator, session), Waiting));
  }

  lemma RulingHappens(o: Oracle)
    requires Sample(o)
    ensures Reaches(o, START, WithRuling(o))
  {
    IntakeHappens(o);
    var s, d := WithIntake(o), RulingRow(o).draft;
    ReachableSound(o, s);
    SubmittedIsSound(o, []);
    UniqueRow(s.rows, IntakeRow(o));
    assert RulingSound(o, s.rows, d);
    Live(s, Policy);
    GuardPasses(o, s, d);
    FirstPutSucceeds(o, s, d);
    EvaluateStarts(o);
    CallCompletes(o, s, 1, d);
    assert AfterCall(o, s, d) == WithRuling(o);
    ReachesJoins(o, START, s, Move(s, 1, Put(d, Waiting)));
    ReachesJoins(o, START, Move(s, 1, Put(d, Waiting)), WithRuling(o));
  }

  lemma Allowed(now: int)
    ensures Decide(PACKET, now).kind == Allow
  {
    DecideMeaning(PACKET, now);
  }

  ghost function Asked(o: Oracle): Draft {
    AskDraft(o, PACKET_ID, DIGEST, [], [BLOCKED], OPERATOR, SESSION)
  }

  /** The call for approval is taken up. */
  lemma AskStarts(o: Oracle, w: State)
    requires Sample(o) && w == WithRuling(o)
    ensures Reaches(o, w, Move(w, 1, Put(Asked(o), Waiting)))
  {
    PacketIdFits();
    BlockedCode();
    ReachesStep(o, w, Create(1, PACKET_ID, true, DIGEST, [], [BLOCKED], OPERATOR, SESSION), Move(w, 1, Put(Asked(o), Waiting)));
  }

  /** And ends as broken storage. */
  lemma AskBreaks(o: Oracle, w: State)
    requires Sample(o) && w == WithRuling(o) && Invariant(o, w)
    ensures Reaches(o, Move(w, 1, Put(Asked(o), Waiting)), AfterCall(o, w, Asked(o)))
    ensures var log := AfterCall(o, w, Asked(o)).log; log != [] && log[|log| - 1] == Refused(Approval, PACKET_ID, Broken)
  {
    BlockedCode();
    Live(w, Approval);
    Allowed(0);
    UniqueRow(w.rows, RulingRow(o));
    AllowedPacketBreaksRequest(o, w, Asked(o), RulingRow(o));
    CallCompletes(o, w, 1, Asked(o));
  }

  /** The failure is reached from the initial state: the log ends in a storage error, not in `not_reviewable`. */
  lemma AllowedRequestBreaks() returns (o: Oracle, s: State, actions: seq<Action>)
    ensures Faithful(o) && Initial(s)
    ensures var log := Run(o, s, actions).log;
            log != [] && log[|log| - 1] == Refused(Approval, PACKET_ID, Broken)
  {
    o := SampleExists();
    s := START;
    RulingHappens(o);
    var w := WithRuling(o);
    ReachableSound(o, w);
    AskStarts(o, w);
    AskBreaks(o, w);
    var t := AfterCall(o, w, Asked(o));
    ReachesJoins(o, START, w, Move(w, 1, Put(Asked(o), Waiting)));
    ReachesJoins(o, START, Move(w, 1, Put(Asked(o), Waiting)), t);
    actions :| Run(o, START, actions) == t;
  }

  // ---------------------------------------------------------------- a row later than its session's revocation time

  lemma FirstThree(o: Oracle, d: Draft)
    requires d.service == Intake && d.session == SESSION && d.operator == OPERATOR
    ensures Reaches(o, Move(READY, 1, Put(d, Waiting)), Move(READY, 1, Put(d, Guarded(None))))
  {
    var w := Move(READY, 1, Put(d, Waiting));
    Live(READY, Intake);
    LockStep(o, w, 1, d);
    Moved(READY, 1, Put(d, Waiting), Put(d, Locked));
    FromLocked(o, READY, 1, d);
    AloneAdds(o, w, 1, 1, 2);
    ReachesAlone(o, w, 1, 3);
  }

  /** The submission has read that there is no row yet and is about to insert. */
  lemma AboutToInsert(o: Oracle)
    requires Sample(o)
    ensures Reaches(o, START, Move(READY, 1, Put(Submitted(o), Fresh(None))))
  {
    var d := Submitted(o);
    var w, g, f := Move(READY, 1, Put(d, Waiting)), Move(READY, 1, Put(d, Guarded(None))), Move(READY, 1, Put(d, Fresh(None)));
    Beginning(o);
    FirstThree(o, d);
    StepOf(o, g, 1, d, Guarded(None));
    Moved(READY, 1, Put(d, Guarded(None)), Put(d, Fresh(None)));
    ReachesStep(o, g, Advance(1), f);
    ReachesJoins(o, w, g, f);
    ReachesJoins(o, START, w, f);
  }

  /** The revocation has taken its time, 0, and waits; then the clock moves on to 1. */
  lemma RevocationWaits(o: Oracle, s: State)
    requires Sample(o) && s == Move(READY, 1, Put(Submitted(o), Fresh(None)))
    ensures Reaches(o, s, Move(s, 2, Revoke(SESSION, Some(0))).(clock := 1))
  {
    var a, b := Move(s, 2, Revoke(SESSION, None)), Move(s, 2, Revoke(SESSION, Some(0)));
    ReachesStep(o, s, AskRevoke(2, SESSION, true), a);
    Moved(s, 2, Revoke(SESSION, None), Revoke(SESSION, Some(0)));
    ReachesStep(o, a, Advance(2), b);
    ReachesStep(o, b, Tick(1), b.(clock := 1));
    ReachesJoins(o, s, a, b);
    ReachesJoins(o, s, b, b.(clock := 1));
  }

  ghost function LateRow(o: Oracle): Row { Row(Submitted(o), 1) }

  /** The submission inserts at 1 and commits. */
  lemma RowIsWritten(o: Oracle, s: State)
    requires Sample(o) && s.clock == 1 && s.rows == [] && s.sessions == READY.sessions && s.operators == READY.operators
    requires 1 in s.tasks && s.tasks[1] == Put(Submitted(o), Fresh(None))
    ensures Reaches(o, s, End(s, 1, Done(Intake, PACKET_ID, SESSION, true, LateRow(o))).(rows := [LateRow(o)]))
  {
    var d, row := Submitted(o), LateRow(o);
    var a := Move(s, 1, Put(d, Inserted(row, None)));
    Live(s, Intake);
    SubmittedIsSound(o, []);
    DraftReadable(o, [], d, 1);
    StepOf(o, s, 1, d, Fresh(None));
    ReachesStep(o, s, Advance(1), a);
    StepOf(o, a, 1, d, Inserted(row, None));
    Moved(s, 1, Put(d, Inserted(row, None)), Answering(Done(Intake, PACKET_ID, SESSION, true, row)));
    ReachesStep(o, a, Advance(1), End(s, 1, Done(Intake, PACKET_ID, SESSION, true, row)).(rows := [row]));
    ReachesJoins(o, s, a, End(s, 1, Done(Intake, PACKET_ID, SESSION, true, row)).(rows := [row]));
  }

  /** The stored revocation time can be earlier than a row of the session. */
  lemma RevokedBeforeItsRow() returns (o: Oracle, s: State, actions: seq<Action>, r: Row)
    ensures Faithful(o) && Initial(s)
    ensures var t := Run(o, s, actions);
            && r in t.rows && r.draft.session in t.sessions
            && t.sessions[r.draft.session].revokedAt == Some(0) && r.at == 1
  {
    o := SampleExists();
    s := START;
    r := LateRow(o);
    var a := Move(READY, 1, Put(Submitted(o), Fresh(None)));
    AboutToInsert(o);
    RevocationWaits(o, a);
    var b := Move(a, 2, Revoke(SESSION, Some(0))).(clock := 1);
    RowIsWritten(o, b);
    var c := End(b, 1, Done(Intake, PACKET_ID, SESSION, true, r)).(rows := [r]);
    var t := Step(o, c, Advance(2));
    RevokeStep(o, c, 2, SESSION, 0);
    ReachesStep(o, c, Advance(2), t);
    ReachesJoins(o, START, a, b);
    ReachesJoins(o, START, b, c);
    ReachesJoins(o, START, c, t);
    actions :| Run(o, START, actions) == t;
  }
}
