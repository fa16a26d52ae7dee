/**
 Where the rows of a run come from. Every row was inserted by a statement that itself saw the
 session live, and the session stayed so until the row was committed. Stored revocation times
 say less: `revoke` takes its time before its update can run, and the module says exactly
 when a row ends up with a time later than its session's revocation.
 */
module ControlHistory {
  import opened Texts
  import opened ControlPlane
  import opened ControlInvariant
  import opened ControlSteps
  import opened ControlRuns

  /** `states[n]` is the state before step `n`. */
  type Trace = seq<State>

  ghost function TraceOf(o: Oracle, s: State, actions: seq<Action>): (states: Trace)
    ensures |states| == |actions| + 1 && states[|actions|] == Run(o, s, actions) && states[0] == s
    ensures forall n :: 0 <= n <= |actions| ==> states[n] == Run(o, s, actions[..n])
  {
    assert actions[..|actions|] == actions && actions[..0] == [];
    seq(|actions| + 1, n requires 0 <= n <= |actions| => Run(o, s, actions[..n]))
  }

  ghost predicate Linked(o: Oracle, states: Trace, actions: seq<Action>, n: nat)
    requires |states| == |actions| + 1
  {
    n < |actions| ==> states[n + 1] == Step(o, states[n], actions[n])
  }

  /** A run all of whose states satisfy the invariant. */
  ghost predicate IsTrace(o: Oracle, states: Trace, actions: seq<Action>) {
    && |states| == |actions| + 1 && Initial(states[0])
    && (forall n :: 0 <= n < |actions| ==> Linked(o, states, actions, n))
    && (forall n :: 0 <= n <= |actions| ==> SoundAt(o, states, n))
  }

  ghost predicate SoundAt(o: Oracle, states: Trace, n: nat) { n < |states| ==> Invariant(o, states[n]) }

  lemma RunNext(o: Oracle, s: State, actions: seq<Action>, n: nat)
    requires n < |actions|
    ensures Run(o, s, actions[..n + 1]) == Step(o, Run(o, s, actions[..n]), actions[n])
  {
    assert actions[..n + 1][..n] == actions[..n];
  }

  lemma RunsAreTraces(o: Oracle, s: State, actions: seq<Action>)
    requires Faithful(o) && Initial(s)
    ensures IsTrace(o, TraceOf(o, s, actions), actions)
  {
    var states := TraceOf(o, s, actions);
    forall n | 0 <= n < |actions| ensures Linked(o, states, actions, n) { RunNext(o, s, actions, n); }
    forall n | 0 <= n <= |actions| ensures SoundAt(o, states, n) { ReachableInvariant(o, s, actions[..n]); }
  }

  // ---------------------------------------------------------------- one step

  /** In state `s` client `c` inserts row `r`, and the insert sees the session live. */
  ghost predicate InsertsIn(s: State, c: int, r: Row) {
    && c in s.tasks && s.tasks[c].Put? && s.tasks[c].draft == r.draft && s.tasks[c].phase.Fresh?
    && IsAuthorized(s, r.draft.session, r.draft.operator, r.draft.service) && s.clock == r.at
  }

  ghost predicate HasInserted(s: State, c: int, r: Row) {
    c in s.tasks && s.tasks[c].Put? && s.tasks[c].phase.Inserted? && s.tasks[c].phase.row == r
  }

  lemma PutInserts(o: Oracle, s: State, c: int, d: int, r: Row)
    requires c in s.tasks && s.tasks[c].Put?
    requires HasInserted(StepPut(o, s, c, s.tasks[c].draft, s.tasks[c].phase), d, r)
    ensures HasInserted(s, d, r) || (c == d && InsertsIn(s, c, r))
  {
  }

  lemma GetInserts(o: Oracle, s: State, c: int, service: Service, packetId: Text, operator: Text, session: Text, stage: Stage, d: int, r: Row)
    requires HasInserted(StepGet(o, s, c, service, packetId, operator, session, stage), d, r)
    ensures HasInserted(s, d, r)
  {
  }

  lemma TaskInserts(o: Oracle, s: State, c: int, d: int, r: Row)
    requires c in s.tasks && HasInserted(StepTask(o, s, c), d, r)
    ensures HasInserted(s, d, r) || (c == d && InsertsIn(s, c, r))
  {
    match s.tasks[c]
    case Put(_, _) => PutInserts(o, s, c, d, r);
    case Get(service, packetId, operator, session, stage) => GetInserts(o, s, c, service, packetId, operator, session, stage, d, r);
    case _ =>
  }

  lemma CallInserts(o: Oracle, s: State, a: Action, d: int, r: Row)
    requires IsCall(a) && a.client !in s.tasks && HasInserted(StartCall(o, s, a), d, r)
    ensures HasInserted(s, d, r)
  {
  }

  /** A pending row was pending before, or this very step inserted it. */
  lemma PendingOrigin(o: Oracle, s: State, a: Action, d: int, r: Row)
    requires HasInserted(Step(o, s, a), d, r)
    ensures HasInserted(s, d, r) || (a == Advance(d) && InsertsIn(s, d, r))
  {
    if IsCall(a) {
      if a.client !in s.tasks { CallInserts(o, s, a, d, r); }
    } else if a.Advance? {
      if a.client in s.tasks { TaskInserts(o, s, a.client, d, r); }
    }
  }

  /** A row that appears was pending, and its transaction still held the session. */
  lemma RowOrigin(o: Oracle, s: State, a: Action, r: Row)
    requires Invariant(o, s) && r in Step(o, s, a).rows && r !in s.rows
    ensures a.Advance? && HasInserted(s, a.client, r)
    ensures Held(s, r.draft.session, r.draft.operator, r.draft.service)
  {
    if IsCall(a) {
      CallAppends(o, s, a);
    } else if a.Advance? && a.client in s.tasks {
      var k := s.tasks[a.client];
      assert TaskSound(o, s, k);
      if k.Put? { PutWrites(o, s, a.client, k.draft, k.phase); } else { OthersWriteNothing(o, s, a.client); }
    }
  }

  // ---------------------------------------------------------------- a whole run

  /** Step `j` inserts `r`. */
  ghost predicate Inserts(states: Trace, actions: seq<Action>, j: nat, r: Row) {
    j < |actions| && j < |states| && actions[j].Advance? && InsertsIn(states[j], actions[j].client, r)
  }

  ghost predicate HeldFor(s: State, r: Row) { Held(s, r.draft.session, r.draft.operator, r.draft.service) }

  /** After step `j` and up to step `n` the session of `r` is unrevoked and its operator enabled. */
  ghost predicate LiveUntil(states: Trace, j: nat, n: nat, r: Row)
    requires n < |states|
  {
    forall i :: j < i <= n ==> HeldFor(states[i], r)
  }

  ghost predicate PendingSince(states: Trace, actions: seq<Action>, j: nat, n: nat, r: Row)
    requires n < |states|
  {
    j < n && Inserts(states, actions, j, r) && LiveUntil(states, j, n, r)
  }

  /** Step `j` inserted `r`, step `k` committed it, and the session was live all the while. */
  ghost predicate WrittenBy(states: Trace, actions: seq<Action>, j: nat, k: nat, r: Row) {
    && k + 1 < |states| && PendingSince(states, actions, j, k, r)
    && r !in states[k].rows && r in states[k + 1].rows
  }

  ghost predicate Written(states: Trace, actions: seq<Action>, n: nat, r: Row) {
    exists j: nat, k: nat :: k < n && WrittenBy(states, actions, j, k, r)
  }

  ghost predicate Pending(states: Trace, actions: seq<Action>, n: nat, r: Row)
    requires n < |states|
  {
    exists j :: PendingSince(states, actions, j, n, r)
  }

  lemma InsertedIsHeld(o: Oracle, s: State, d: int, r: Row)
    requires Invariant(o, s) && HasInserted(s, d, r)
    ensures HeldFor(s, r)
  {
    assert TaskSound(o, s, s.tasks[d]);
  }

  lemma PendingCarries(states: Trace, actions: seq<Action>, n: nat, d: int, r: Row)
    requires n < |actions| && |states| == |actions| + 1 && HeldFor(states[n + 1], r)
    requires HasInserted(states[n], d, r) || (actions[n] == Advance(d) && InsertsIn(states[n], d, r))
    requires HasInserted(states[n], d, r) ==> Pending(states, actions, n, r)
    ensures Pending(states, actions, n + 1, r)
  {
    if HasInserted(states[n], d, r) {
      var j :| PendingSince(states, actions, j, n, r);
      assert PendingSince(states, actions, j, n + 1, r);
    } else {
      assert PendingSince(states, actions, n, n + 1, r);
    }
  }

  lemma PendingNext(o: Oracle, states: Trace, actions: seq<Action>, n: nat, d: int, r: Row)
    requires IsTrace(o, states, actions) && n < |actions| && HasInserted(states[n + 1], d, r)
    requires HasInserted(states[n], d, r) ==> Pending(states, actions, n, r)
    ensures Pending(states, actions, n + 1, r)
  {
    assert Linked(o, states, actions, n) && SoundAt(o, states, n + 1);
    InsertedIsHeld(o, states[n + 1], d, r);
    PendingOrigin(o, states[n], actions[n], d, r);
    PendingCarries(states, actions, n, d, r);
  }

  lemma WrittenNext(o: Oracle, states: Trace, actions: seq<Action>, n: nat, r: Row)
    requires IsTrace(o, states, actions) && n < |actions| && r in states[n + 1].rows && r !in states[n].rows
    requires forall d :: HasInserted(states[n], d, r) ==> Pending(states, actions, n, r)
    ensures Written(states, actions, n + 1, r)
  {
    assert Linked(o, states, actions, n) && SoundAt(o, states, n);
    RowOrigin(o, states[n], actions[n], r);
    var j :| PendingSince(states, actions, j, n, r);
    assert WrittenBy(states, actions, j, n, r);
  }

  lemma {:induction false} HistoryHolds(o: Oracle, states: Trace, actions: seq<Action>, n: nat)
    requires IsTrace(o, states, actions) && n <= |actions|
    ensures forall r :: r in states[n].rows ==> Written(states, actions, n, r)
    ensures forall d, r :: HasInserted(states[n], d, r) ==> Pending(states, actions, n, r)
    decreases n
  {
    if n > 0 {
      HistoryHolds(o, states, actions, n - 1);
      forall r | r in states[n].rows ensures Written(states, actions, n, r) {
        if r in states[n - 1].rows {
          var j: nat, k: nat :| k < n - 1 && WrittenBy(states, actions, j, k, r);
        } else {
          WrittenNext(o, states, actions, n - 1, r);
        }
      }
      forall d, r | HasInserted(states[n], d, r) ensures Pending(states, actions, n, r) {
        PendingNext(o, states, actions, n - 1, d, r);
      }
    }
  }

  /**
   Every row of every run was inserted at a moment when the statement itself saw its session
   unrevoked, in its window, with the capability and an enabled operator, the row carries that
   moment's time, and session and operator stayed good until the row was committed.
   */
  lemma RowsWereAuthorized(o: Oracle, s: State, actions: seq<Action>, r: Row)
    requires Faithful(o) && Initial(s) && r in Run(o, s, actions).rows
    ensures Written(TraceOf(o, s, actions), actions, |actions|, r)
  {
    RunsAreTraces(o, s, actions);
    HistoryHolds(o, TraceOf(o, s, actions), actions, |actions|);
  }

  // ---------------------------------------------------------------- revocation times

  lemma TaskClock(o: Oracle, s: State, c: int)
    requires c in s.tasks
    ensures StepTask(o, s, c).clock == s.clock
  {
  }

  lemma CallClock(o: Oracle, s: State, a: Action)
    requires IsCall(a)
    ensures StartCall(o, s, a).clock == s.clock
  {
  }

  lemma ClockNext(o: Oracle, s: State, a: Action)
    ensures s.clock <= Step(o, s, a).clock
  {
    if IsCall(a) { CallClock(o, s, a); }
    else if a.Advance? && a.client in s.tasks { TaskClock(o, s, a.client); }
  }

  lemma {:induction false} ClockGrows(o: Oracle, states: Trace, actions: seq<Action>, i: nat, j: nat)
    requires IsTrace(o, states, actions) && i <= j <= |actions|
    ensures states[i].clock <= states[j].clock
    decreases j
  {
    if i < j {
      ClockGrows(o, states, actions, i, j - 1);
      assert Linked(o, states, actions, j - 1);
      ClockNext(o, states[j - 1], actions[j - 1]);
    }
  }

  lemma {:induction false} RowsKept(o: Oracle, states: Trace, actions: seq<Action>, i: nat, j: nat)
    requires IsTrace(o, states, actions) && i <= j <= |actions|
    ensures states[i].rows <= states[j].rows
    decreases j
  {
    if i < j {
      RowsKept(o, states, actions, i, j - 1);
      assert Linked(o, states, actions, j - 1);
      StepAppends(o, states[j - 1], actions[j - 1]);
    }
  }

  /** In state `s` the update of client `c` can run and will revoke the session as of `at`. */
  ghost predicate CanRevoke(s: State, c: int, session: Text, at: int) {
    && c in s.tasks && s.tasks[c] == Revoke(session, Some(at))
    && session in s.sessions && s.sessions[session].revokedAt.None? && !SessionShared(s, session)
  }

  /** At step `take` client `c` takes the time for its revocation. */
  ghost predicate Takes(states: Trace, actions: seq<Action>, take: nat, c: int, session: Text) {
    && take < |actions| && take < |states| && actions[take] == Advance(c)
    && c in states[take].tasks && states[take].tasks[c] == Revoke(session, None)
  }

  /** A call takes its time at step `take`, and its update revokes the session at step `update`. */
  ghost predicate Revokes(states: Trace, actions: seq<Action>, take: nat, update: nat, session: Text) {
    && take < update < |actions| && |states| == |actions| + 1 && actions[update].Advance?
    && Takes(states, actions, take, actions[update].client, session)
    && CanRevoke(states[update], actions[update].client, session, states[take].clock)
  }

  lemma RevokeStep(o: Oracle, s: State, c: int, session: Text, at: int)
    requires CanRevoke(s, c, session, at)
    ensures var t := Step(o, s, Advance(c));
            session in t.sessions && t.sessions[session].revokedAt == Some(at) && t.rows == s.rows
  {
  }

  lemma RevokedNext(o: Oracle, s: State, a: Action, session: Text, at: int)
    requires Invariant(o, s) && session in s.sessions && s.sessions[session].revokedAt == Some(at)
    ensures var t := Step(o, s, a);
            && session in t.sessions && t.sessions[session].revokedAt == Some(at)
            && forall r :: r in t.rows && r.draft.session == session ==> r in s.rows
  {
    EventsStay(o, s, a);
    WritesAreLive(o, s, a);
  }

  lemma {:induction false} RevokedFrom(o: Oracle, states: Trace, actions: seq<Action>, i: nat, j: nat, session: Text, at: int)
    requires IsTrace(o, states, actions) && i <= j <= |actions|
    requires session in states[i].sessions && states[i].sessions[session].revokedAt == Some(at)
    ensures session in states[j].sessions && states[j].sessions[session].revokedAt == Some(at)
    ensures forall r :: r in states[j].rows && r.draft.session == session ==> r in states[i].rows
    decreases j
  {
    if i < j {
      RevokedFrom(o, states, actions, i, j - 1, session, at);
      assert Linked(o, states, actions, j - 1) && SoundAt(o, states, j - 1);
      RevokedNext(o, states[j - 1], actions[j - 1], session, at);
    }
  }

  /** The rows of a revoked session are those it had at its update. */
  lemma RowsOfRevoked(o: Oracle, states: Trace, actions: seq<Action>, take: nat, update: nat, session: Text)
    requires IsTrace(o, states, actions) && Revokes(states, actions, take, update, session)
    ensures var t := states[|actions|];
            && session in t.sessions && t.sessions[session].revokedAt == Some(states[take].clock)
            && forall r: Row :: r.draft.session == session ==> (r in t.rows <==> r in states[update].rows)
  {
    assert Linked(o, states, actions, update);
    RevokeStep(o, states[update], actions[update].client, session, states[take].clock);
    RevokedFrom(o, states, actions, update + 1, |actions|, session, states[take].clock);
    RowsKept(o, states, actions, update, |actions|);
  }

  /** While the revocation waits, a transaction inserts `r` at a time past the one taken, and commits it. */
  ghost predicate LateInsert(states: Trace, actions: seq<Action>, take: nat, update: nat, n: nat, r: Row)
    requires take < update < |states|
  {
    take < n < update && Inserts(states, actions, n, r) && states[take].clock < states[n].clock && r in states[update].rows
  }

  /**
   A row of a revoked session is later than the stored revocation time exactly when some
   transaction inserted it, and committed, between the moment the call took that time and its
   update, at a clock that had moved on.
   */
  lemma LateWhenInserted(o: Oracle, states: Trace, actions: seq<Action>, take: nat, update: nat, session: Text, r: Row)
    requires IsTrace(o, states, actions) && Revokes(states, actions, take, update, session) && r.draft.session == session
    ensures Late(states[|actions|], r) <==> exists n :: LateInsert(states, actions, take, update, n, r)
  {
    RowsOfRevoked(o, states, actions, take, update, session);
    if Late(states[|actions|], r) {
      HistoryHolds(o, states, actions, update);
      var j: nat, k: nat :| k < update && WrittenBy(states, actions, j, k, r);
      if j <= take { ClockGrows(o, states, actions, j, take); }
      assert LateInsert(states, actions, take, update, j, r);
    }
  }

  // ---------------------------------------------------------------- where a revocation comes from

  ghost predicate WaitsToRevoke(s: State, c: int, session: Text, at: int) {
    c in s.tasks && s.tasks[c] == Revoke(session, Some(at))
  }

  predicate RevokedAs(s: State, session: Text, at: int) {
    session in s.sessions && s.sessions[session].revokedAt == Some(at)
  }

  lemma PutRevokesNothing(o: Oracle, s: State, c: int, draft: Draft, phase: Phase)
    requires c in s.tasks && s.tasks[c] == Put(draft, phase)
    ensures var t := StepPut(o, s, c, draft, phase);
            t.sessions == s.sessions && forall d, session, at :: WaitsToRevoke(t, d, session, at) ==> WaitsToRevoke(s, d, session, at)
  {
  }

  lemma GetRevokesNothing(o: Oracle, s: State, c: int, service: Service, packetId: Text, operator: Text, session: Text, stage: Stage)
    requires c in s.tasks
    ensures var t := StepGet(o, s, c, service, packetId, operator, session, stage);
            t.sessions == s.sessions && forall d, who, at :: WaitsToRevoke(t, d, who, at) ==> WaitsToRevoke(s, d, who, at)
  {
  }

  lemma TaskRevokes(o: Oracle, s: State, c: int, d: int, session: Text, at: int)
    requires c in s.tasks
    ensures var t := StepTask(o, s, c);
            && (WaitsToRevoke(t, d, session, at) ==>
                  WaitsToRevoke(s, d, session, at) || (c == d && s.tasks[c] == Revoke(session, None) && s.clock == at))
            && (RevokedAs(t, session, at) ==> RevokedAs(s, session, at) || CanRevoke(s, c, session, at))
  {
    match s.tasks[c]
    case Put(draft, phase) => PutRevokesNothing(o, s, c, draft, phase);
    case Get(service, packetId, operator, who, stage) => GetRevokesNothing(o, s, c, service, packetId, operator, who, stage);
    case _ =>
  }

  lemma CallRevokesNothing(o: Oracle, s: State, a: Action, d: int, session: Text, at: int)
    requires IsCall(a) && a.client !in s.tasks
    ensures var t := StartCall(o, s, a);
            t.sessions == s.sessions && (WaitsToRevoke(t, d, session, at) ==> WaitsToRevoke(s, d, session, at))
  {
  }

  /** Only a call that took its time earlier waits with a time, and only its update sets one. */
  lemma StepRevokes(o: Oracle, s: State, a: Action, d: int, session: Text, at: int)
    ensures var t := Step(o, s, a);
            && (WaitsToRevoke(t, d, session, at) ==>
                  || WaitsToRevoke(s, d, session, at)
                  || (a == Advance(d) && d in s.tasks && s.tasks[d] == Revoke(session, None) && s.clock == at))
            && (RevokedAs(t, session, at) ==> RevokedAs(s, session, at) || (a.Advance? && CanRevoke(s, a.client, session, at)))
  {
    if IsCall(a) {
      if a.client !in s.tasks { CallRevokesNothing(o, s, a, d, session, at); }
    } else if a.Advance? && a.client in s.tasks {
      TaskRevokes(o, s, a.client, d, session, at);
    }
  }

  lemma {:induction false} TimeWasTaken(o: Oracle, states: Trace, actions: seq<Action>, n: nat, c: int, session: Text, at: int)
    requires IsTrace(o, states, actions) && n <= |actions| && WaitsToRevoke(states[n], c, session, at)
    ensures exists take: nat :: take < n && Takes(states, actions, take, c, session) && states[take].clock == at
    decreases n
  {
    if n > 0 {
      assert Linked(o, states, actions, n - 1);
      StepRevokes(o, states[n - 1], actions[n - 1], c, session, at);
      if WaitsToRevoke(states[n - 1], c, session, at) {
        TimeWasTaken(o, states, actions, n - 1, c, session, at);
      } else {
        assert Takes(states, actions, n - 1, c, session);
      }
    }
  }

  /** A session revoked in a state was so from the start, or some call of the run revoked it. */
  lemma {:induction false} RevocationHappened(o: Oracle, states: Trace, actions: seq<Action>, n: nat, session: Text, at: int)
    requires IsTrace(o, states, actions) && n <= |actions| && RevokedAs(states[n], session, at)
    ensures RevokedAs(states[0], session, at) || exists take, update :: Revokes(states, actions, take, update, session)
    decreases n
  {
    if n > 0 {
      assert Linked(o, states, actions, n - 1);
      StepRevokes(o, states[n - 1], actions[n - 1], 0, session, at);
      if RevokedAs(states[n - 1], session, at) {
        RevocationHappened(o, states, actions, n - 1, session, at);
      } else {
        var c := actions[n - 1].client;
        TimeWasTaken(o, states, actions, n - 1, c, session, at);
        var take: nat :| take < n - 1 && Takes(states, actions, take, c, session) && states[take].clock == at;
        assert Revokes(states, actions, take, n - 1, session);
      }
    }
  }

  /** The row is later than the stored revocation time of its session. */
  predicate Late(s: State, r: Row) {
    && r in s.rows && r.draft.session in s.sessions && s.sessions[r.draft.session].revokedAt.Some?
    && s.sessions[r.draft.session].revokedAt.value < r.at
  }

  /** Some call's revocation of the row's session waited while the row was inserted and committed. */
  ghost predicate Overtaken(states: Trace, actions: seq<Action>, take: nat, update: nat, r: Row) {
    Revokes(states, actions, take, update, r.draft.session) && exists n :: LateInsert(states, actions, take, update, n, r)
  }

  /** In every run the late rows are exactly those that overtook the revocation of their session. */
  lemma LateRowsExactly(o: Oracle, s: State, actions: seq<Action>, r: Row)
    requires Faithful(o) && Initial(s)
    ensures Late(Run(o, s, actions), r) <==> exists take, update :: Overtaken(TraceOf(o, s, actions), actions, take, update, r)
  {
    RunsAreTraces(o, s, actions);
    var states, session := TraceOf(o, s, actions), r.draft.session;
    forall take, update | Revokes(states, actions, take, update, session)
      ensures Late(states[|actions|], r) <==> Overtaken(states, actions, take, update, r)
    {
      LateWhenInserted(o, states, actions, take, update, session, r);
    }
    if Late(states[|actions|], r) {
      var at := states[|actions|].sessions[session].revokedAt.value;
      RevocationHappened(o, states, actions, |actions|, session, at);
      if RevokedAs(states[0], session, at) { RevokedFrom(o, states, actions, 0, |actions|, session, at); }
    }
  }
}
