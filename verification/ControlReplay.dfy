/**
 Repeated calls, over all runs: what happens to a write whose packet already has a row, one
 statement at a time, whatever other clients and the clock do in between.
 */
module ControlReplay {
  import opened Texts
  import opened ControlPolicy
  import opened ControlPlane
  import opened ControlInvariant
  import opened ControlSteps
  import opened ControlRuns
  import opened ControlHistory
  import opened ControlStore

  /** Both ask for the same thing: digest, decision and reasons. */
  predicate SameAsk(d: Draft, e: Draft) {
    && d.content.Ask? && e.content.Ask? && d.digest == e.digest
    && d.content.decisionId == e.content.decisionId && d.content.reasonCodes == e.content.reasonCodes
  }

  /** The answer owed to a write of a packet that already has `row`. */
  function ReplayAnswer(d: Draft, row: Row): Reply {
    var success := Done(d.service, d.packetId, d.session, false, row);
    var conflict := Refused(d.service, d.packetId, Conflict);
    match d.service
    case Intake => if d.digest == row.draft.digest && d.operator == row.draft.operator then success else conflict
    case Policy => success
    case Approval =>
      if d.operator != row.draft.operator then Refused(Approval, d.packetId, NotFound)
      else if SameAsk(d, row.draft) && d.session == row.draft.session then success
      else conflict
  }

  function Progress(phase: Phase): nat {
    match phase
    case Waiting => 0
    case Locked => 1
    case Authorized => 2
    case Guarded(_) => 3
    case Fresh(_) => 4
    case Found(_, _) => 4
    case Inserted(_, _) => 5
  }

  /** The call waits for its lock, gets on with it, finds its session gone, or gets the answer it is owed. */
  ghost predicate ReplayOutcome(o: Oracle, s: State, t: State, c: int, d: Draft, phase: Phase, row: Row) {
    || (t == s && phase.Waiting? && LockHeld(o, s, o.lockKey(d.service, d.packetId)))
    || (exists next :: t == Move(s, c, Put(d, next)) && Progress(phase) < Progress(next) <= 4)
    || (t == End(s, c, Refused(d.service, d.packetId, AuthorizationChanged))
        && phase.Locked? && !IsAuthorized(s, d.session, d.operator, d.service))
    || t == End(s, c, ReplayAnswer(d, row))
  }

  lemma GuardReplay(o: Oracle, s: State, c: int, d: Draft, row: Row)
    requires Invariant(o, s) && DraftSound(o, s.rows, d) && Find(s.rows, d.service, d.packetId) == Some(row)
    ensures ReplayOutcome(o, s, StepPut(o, s, c, d, Authorized), c, d, Authorized, row)
  {
    GuardPasses(o, s, d);
    if d.service == Approval { AskGuard(o, s, d, row); }
    var (input, code) := Guard(s, d);
    if code.None? { assert StepPut(o, s, c, d, Authorized) == Move(s, c, Put(d, Guarded(input))); }
  }

  lemma LookupReplay(o: Oracle, s: State, c: int, d: Draft, input: Option<Row>, row: Row)
    requires Invariant(o, s) && DraftSound(o, s.rows, d) && Passed(o, s.rows, d, input)
    requires Find(s.rows, d.service, d.packetId) == Some(row)
    ensures ReplayOutcome(o, s, StepPut(o, s, c, d, Guarded(input)), c, d, Guarded(input), row)
  {
    LookupSound(o, s, d, input);
    var next := Lookup(o, s, d, input);
    assert StepPut(o, s, c, d, Guarded(input)) == Move(s, c, Put(d, next));
  }

  lemma FoundReplay(o: Oracle, s: State, d: Draft, input: Option<Row>, row: Row)
    requires Faithful(o) && RowsSound(o, s) && DraftSound(o, s.rows, d)
    requires PhaseSound(o, s, d, Found(row, input))
    ensures Outcome(d, row, input, false) == ReplayAnswer(d, row)
  {
    assert RowSound(o, s.rows, row);
    if d.service == Policy { RulingVerifies(o, s, d, row, input); }
  }

  /** One statement of a write whose packet already has a row: no new row, and only these outcomes. */
  lemma ReplayStep(o: Oracle, s: State, c: int, d: Draft, phase: Phase, row: Row)
    requires Faithful(o) && Invariant(o, s) && c in s.tasks && s.tasks[c] == Put(d, phase)
    requires Find(s.rows, d.service, d.packetId) == Some(row)
    ensures ReplayOutcome(o, s, StepPut(o, s, c, d, phase), c, d, phase, row)
    ensures StepPut(o, s, c, d, phase).rows == s.rows
  {
    assert TaskSound(o, s, s.tasks[c]);
    PutWrites(o, s, c, d, phase);
    match phase
    case Waiting =>
      if !LockHeld(o, s, o.lockKey(d.service, d.packetId)) { assert StepPut(o, s, c, d, phase) == Move(s, c, Put(d, Locked)); }
    case Locked =>
      if IsAuthorized(s, d.session, d.operator, d.service) { assert StepPut(o, s, c, d, phase) == Move(s, c, Put(d, Authorized)); }
    case Authorized => GuardReplay(o, s, c, d, row);
    case Guarded(input) => LookupReplay(o, s, c, d, input, row);
    case Found(_, input) => FoundReplay(o, s, d, input, row);
    case _ =>
  }

  /**
   In every run: once a packet has a row, each later statement of any write to it, started
   before or after, has one of these outcomes. So a repeated approval request succeeds exactly
   when it repeats every field from the session that made the first one, a repeated submission
   exactly for the same digest and operator, and a repeated evaluation always; the only other
   ending is a session found no longer good, and each statement that does not wait for the lock
   brings the call nearer to its answer.
   */
  lemma ReplayInRuns(o: Oracle, states: Trace, actions: seq<Action>, i: nat, n: nat, d: Draft, row: Row)
    requires Faithful(o) && IsTrace(o, states, actions) && i <= n < |actions| && actions[n].Advance?
    requires row in states[i].rows && Keyed(row, d.service, d.packetId)
    requires actions[n].client in states[n].tasks
    requires states[n].tasks[actions[n].client].Put? && states[n].tasks[actions[n].client].draft == d
    ensures var c := actions[n].client;
            && ReplayOutcome(o, states[n], states[n + 1], c, d, states[n].tasks[c].phase, row)
            && states[n + 1].rows == states[n].rows
  {
    assert Linked(o, states, actions, n) && SoundAt(o, states, n);
    RowsKept(o, states, actions, i, n);
    UniqueRow(states[n].rows, row);
    var c := actions[n].client;
    StepOf(o, states[n], c, d, states[n].tasks[c].phase);
    ReplayStep(o, states[n], c, d, states[n].tasks[c].phase, row);
  }

  // ---------------------------------------------------------------- a whole call

  lemma CallsLeaveOthers(o: Oracle, s: State, a: Action, c: int)
    requires IsCall(a) && a.client !in s.tasks && c in s.tasks
    ensures LeavesAlone(s, StartCall(o, s, a), c)
  {
  }

  ghost predicate LeavesAlone(s: State, t: State, c: int)
    requires c in s.tasks
  {
    c in t.tasks && t.tasks[c] == s.tasks[c]
  }

  lemma PutLeavesOthers(o: Oracle, s: State, d: int, c: int, draft: Draft, phase: Phase)
    requires c in s.tasks && c != d
    ensures LeavesAlone(s, StepPut(o, s, d, draft, phase), c)
  {
  }

  lemma GetLeavesOthers(o: Oracle, s: State, d: int, c: int, service: Service, packetId: Text, operator: Text, session: Text, stage: Stage)
    requires c in s.tasks && c != d
    ensures LeavesAlone(s, StepGet(o, s, d, service, packetId, operator, session, stage), c)
  {
  }

  lemma TasksLeaveOthers(o: Oracle, s: State, d: int, c: int)
    requires d in s.tasks && c in s.tasks && c != d
    ensures LeavesAlone(s, StepTask(o, s, d), c)
  {
    match s.tasks[d]
    case Put(draft, phase) => PutLeavesOthers(o, s, d, c, draft, phase);
    case Get(service, packetId, operator, session, stage) =>
      GetLeavesOthers(o, s, d, c, service, packetId, operator, session, stage);
    case _ =>
  }

  /** Only the client itself moves its call on. */
  lemma OthersLeaveAlone(o: Oracle, s: State, a: Action, c: int)
    requires c in s.tasks && a != Advance(c) && a != Abort(c)
    ensures LeavesAlone(s, Step(o, s, a), c)
  {
    if IsCall(a) {
      if a.client !in s.tasks { CallsLeaveOthers(o, s, a, c); }
    } else if a.Advance? && a.client in s.tasks {
      TasksLeaveOthers(o, s, a.client, c);
    }
  }

  /** The call is under way, or has one of the two answers it can get. */
  predicate OnTrack(k: Task, d: Draft, row: Row) {
    || (k.Put? && k.draft == d)
    || k == Answering(Refused(d.service, d.packetId, AuthorizationChanged))
    || k == Answering(ReplayAnswer(d, row))
  }

  lemma TrackNext(o: Oracle, states: Trace, actions: seq<Action>, i: nat, n: nat, c: int, d: Draft, row: Row)
    requires Faithful(o) && IsTrace(o, states, actions) && i <= n < |actions|
    requires row in states[i].rows && Keyed(row, d.service, d.packetId)
    requires c in states[n].tasks && OnTrack(states[n].tasks[c], d, row) && c in states[n + 1].tasks
    ensures OnTrack(states[n + 1].tasks[c], d, row)
  {
    assert Linked(o, states, actions, n);
    if actions[n] == Advance(c) && states[n].tasks[c].Put? {
      ReplayInRuns(o, states, actions, i, n, d, row);
    } else if actions[n] != Advance(c) && actions[n] != Abort(c) {
      OthersLeaveAlone(o, states[n], actions[n], c);
    }
  }

  /**
   Whatever happens between its statements, a write that started when its packet already had a
   row is answered as it is owed, or told that its session is no longer good: as long as the
   call of client `c` that stands at step `i` is not over, it is on track.
   */
  lemma {:induction false} ReplayAnswered(o: Oracle, states: Trace, actions: seq<Action>, i: nat, n: nat, c: int, d: Draft, row: Row)
    requires Faithful(o) && IsTrace(o, states, actions) && i <= n <= |actions|
    requires row in states[i].rows && Keyed(row, d.service, d.packetId)
    requires forall m :: i <= m <= n ==> c in states[m].tasks
    requires states[i].tasks[c].Put? && states[i].tasks[c].draft == d
    ensures OnTrack(states[n].tasks[c], d, row)
    decreases n
  {
    if i < n {
      ReplayAnswered(o, states, actions, i, n - 1, c, d, row);
      TrackNext(o, states, actions, i, n - 1, c, d, row);
    }
  }

  /** Every success of the approval service in every run goes to the session that made the request. */
  lemma SuccessNamesSession(o: Oracle, s: State, actions: seq<Action>, k: nat)
    requires Faithful(o) && Initial(s) && k < |Run(o, s, actions).log|
    ensures var reply := Run(o, s, actions).log[k];
            reply.Done? && (reply.service == Approval || reply.created) ==> reply.row.draft.session == reply.session
  {
    ReachableInvariant(o, s, actions);
    assert ReplySound(Run(o, s, actions), Run(o, s, actions).log[k]);
  }
}
