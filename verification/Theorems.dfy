/** The orchestrator's guarantees, stated about complete runs of the step system:
  * any number of instances, redeliveries, sweeps, crashes, lost writes, and commits
  * that take effect although they report failure.
  */
module Theorems {
  import opened Domain
  import opened Lifecycle
  import opened Protocol
  import opened Locking
  import opened Effects
  import opened Approvals
  import opened Resolution
  import opened Trails
  import opened Safety

  // ---------- the moment of a mark ----------

  /** Every mark of a run was written by one step, when the log held what stands before it. */
  lemma {:induction false} MarkMoment(ws: seq<World>, steps: seq<Step>, n: nat, i: nat) returns (j: nat)
    requires Run(ws, steps) && n < |ws| && i < |ws[n].log|
    ensures j < n && ws[j].log == ws[n].log[..i] && ws[j + 1].log == ws[j].log + [ws[n].log[i]]
    ensures ws[j + 1].log == ws[n].log[..i + 1]
  {
    LogGrows(ws[n - 1], steps[n - 1]);
    if i < |ws[n - 1].log| {
      j := MarkMoment(ws, steps, n - 1, i);
      assert ws[n].log[..i] == ws[n - 1].log[..i] && ws[n].log[..i + 1] == ws[n - 1].log[..i + 1];
    } else {
      j := n - 1;
      assert ws[n].log == ws[n].log[..i] + [ws[n].log[i]];
    }
  }

  /** What a mark says about the tables was so when it was written. */
  lemma TxMarkIsTruthful(w: World, a: ActorId, tx: TxAct, m: Mark)
    requires a in w.actors && TxEnabled(w, tx, w.actors[a]) && !tx.TxCommit?
    requires TxDelta(w, a, tx, w.actors[a]).mark == Some(m)
    ensures m.Routed? && m.pendingHigh == HighPending(w, m.sid)
  {
  }

  lemma ExecMarkIsTruthful(w: World, a: ActorId, exec: ExecAct, m: Mark)
    requires a in w.actors && ExecEnabled(w, exec, w.actors[a]) && ExecStep(w, a, exec, w.actors[a]).mark == Some(m)
    ensures !m.Routed? && (m.Snapshot? ==> Lists(w.fix, m.sid, m.cleared, Cleared))
  {
  }

  /** No other step counts or reads actions. */
  lemma OtherMarks(w: World, st: Step, m: Mark)
    requires Enabled(w, st) && Patches(st) && !st.InTx? && !st.InExec? && DeltaOf(w, st).mark == Some(m)
    ensures !m.Routed? && !m.Snapshot?
  {
  }

  lemma MarkIsTruthful(w: World, st: Step, m: Mark)
    requires Enabled(w, st) && Apply(w, st).log == w.log + [m]
    ensures m.Routed? ==> m.pendingHigh == HighRiskLeft(w.fix, m.sid)
    ensures m.Snapshot? ==> ClearedNow(w, m.sid, m.cleared)
  {
    assert (w.log + [m])[|w.log|] == m;
    if !IsCommit(st) && Patches(st) {
      var mark := DeltaOf(w, st).mark;
      assert Apply(w, st).log == Logged(w.log, mark);
      assert mark == Some(m);
      match st
      case InTx(a, tx) => TxMarkIsTruthful(w, a, tx, m);
      case InExec(a, exec) => ExecMarkIsTruthful(w, a, exec, m);
      case _ => OtherMarks(w, st, m);
    }
  }

  /** Step j of the run wrote mark i of the log. */
  ghost predicate WrittenBy(ws: seq<World>, j: nat, log: seq<Mark>, i: nat)
    requires j + 1 < |ws| && i < |log|
  {
    ws[j].log == log[..i] && ws[j + 1].log == log[..i + 1]
  }

  /** ids are the actions of s that need no approval or have it, by seq. */
  ghost predicate ClearedNow(w: World, s: SessionId, ids: seq<FixId>) {
    && (forall f :: f in ids <==>
          f in w.fix && w.fix[f].sid == s && (w.fix[f].requiresApproval ==> w.fix[f].approval == Approved))
    && (forall i, j | 0 <= i < j < |ids| :: ids[i] != ids[j])
    && (forall i, j | 0 <= i < j < |ids| && ids[i] in w.fix && ids[j] in w.fix ::
          w.fix[ids[i]].seqNo <= w.fix[ids[j]].seqNo)
  }

  /** Every routing count on record was right at the moment it was taken. */
  lemma RoutingIsTruthful(ws: seq<World>, steps: seq<Step>, n: nat, i: nat)
    requires Run(ws, steps) && n < |ws| && i < |ws[n].log| && ws[n].log[i].Routed?
    ensures var m := ws[n].log[i];
      exists j | 0 <= j < n :: WrittenBy(ws, j, ws[n].log, i) && m.pendingHigh == HighRiskLeft(ws[j].fix, m.sid)
  {
    var j := MarkMoment(ws, steps, n, i);
    MarkIsTruthful(ws[j], steps[j], ws[n].log[i]);
    assert WrittenBy(ws, j, ws[n].log, i);
  }

  /** Every snapshot on record lists exactly the session's cleared actions of its moment. */
  lemma SnapshotIsTruthful(ws: seq<World>, steps: seq<Step>, n: nat, i: nat)
    requires Run(ws, steps) && n < |ws| && i < |ws[n].log| && ws[n].log[i].Snapshot?
    ensures var m := ws[n].log[i];
      exists j | 0 <= j < n :: WrittenBy(ws, j, ws[n].log, i) && ClearedNow(ws[j], m.sid, m.cleared)
  {
    var j := MarkMoment(ws, steps, n, i);
    MarkIsTruthful(ws[j], steps[j], ws[n].log[i]);
    assert WrittenBy(ws, j, ws[n].log, i);
  }

  // ---------- at most once ----------

  /** No event is committed twice for one session. */
  lemma EventsCommitOnce(ws: seq<World>, steps: seq<Step>, n: nat, i: nat, j: nat)
    requires Run(ws, steps) && n < |ws| && i < j < |ws[n].log|
    requires ws[n].log[i].Committed? && ws[n].log[j].Committed? && ws[n].log[i].sid == ws[n].log[j].sid
    ensures ws[n].log[i].event != ws[n].log[j].event
  {
    Reachable(ws, steps, n);
  }

  /** DispatchCollect, DispatchAnalyze and TriggerApprovalGate are called at most once
    * per session; so is ExecuteFixActions when only the event loop calls it. */
  lemma EffectsRunOnce(ws: seq<World>, steps: seq<Step>, n: nat, i: nat, j: nat)
    requires Run(ws, steps) && n < |ws| && i < j < |ws[n].log|
    requires ws[n].log[i].Invoked? && ws[n].log[j].Invoked? && ws[n].log[i].sid == ws[n].log[j].sid
    requires !ws[0].cfg.strayExecute || ws[n].log[i].fx != ExecuteFx
    ensures ws[n].log[i].fx != ws[n].log[j].fx
  {
    Reachable(ws, steps, n);
  }

  /** Whoever ran a side effect had itself committed its cause. */
  lemma EffectsFollowTheirCommit(ws: seq<World>, steps: seq<Step>, n: nat, s: SessionId, fx: Effect, a: ActorId)
    requires Run(ws, steps) && n < |ws| && Invoked(s, fx, a) in ws[n].log
    requires !ws[0].cfg.strayExecute || fx != ExecuteFx
    ensures Committed(s, CauseEvent(fx), CauseStatus(fx), a) in ws[n].log
  {
    Reachable(ws, steps, n);
  }

  /** No fix action is handed to Executor.Execute twice. */
  lemma ActionsExecuteOnce(ws: seq<World>, steps: seq<Step>, n: nat, i: nat, j: nat)
    requires Run(ws, steps) && !ws[0].cfg.strayExecute && n < |ws| && i < j < |ws[n].log|
    requires ws[n].log[i].Executed? && ws[n].log[j].Executed?
    ensures ws[n].log[i].fix != ws[n].log[j].fix
  {
    Reachable(ws, steps, n);
  }

  // ---------- the atomic table machine ----------

  /** The specification: a session appears, or takes one row of the table. */
  ghost predicate TableStep(t: map<SessionId, Status>, t': map<SessionId, Status>) {
    || (exists s: SessionId :: s !in t && t' == t[s := Created])
    || (exists s: SessionId, e, n :: s in t && TableMove(t[s], e, n) && t' == t[s := n])
  }

  /** Every step of the fine-grained system is a table step or invisible, and the
    * losers of a race — skipped, rejected or aborted attempts — write no table. */
  lemma StepsRefineTheTable(ws: seq<World>, steps: seq<Step>, i: nat)
    requires Run(ws, steps) && i < |steps|
    ensures ws[i + 1].session == ws[i].session || TableStep(ws[i].session, ws[i + 1].session)
    ensures !IsCommit(steps[i]) && !steps[i].CreateSession? ==> ws[i + 1].session == ws[i].session
    ensures steps[i].InTx? && !IsCommit(steps[i]) ==>
      && ws[i + 1].session == ws[i].session && ws[i + 1].hist == ws[i].hist
      && ws[i + 1].fix == ws[i].fix && ws[i + 1].approvals == ws[i].approvals
  {
    Reachable(ws, steps, i);
    var w, st := ws[i], steps[i];
    if IsCommit(st) {
      var pc := w.actors[st.a];
      assert OwnsRow(w, st.a, pc);
      assert TableMove(w.session[pc.sid], EventOf(pc.job), pc.phase.next);
    } else if st.CreateSession? {
      assert st.s !in w.session;
    } else if st.InTx? {
      TxWritesNothing(w, st);
    }
  }

  lemma TxWritesNothing(w: World, st: Step)
    requires Enabled(w, st) && st.InTx? && !IsCommit(st)
    ensures var w' := Apply(w, st);
      w'.session == w.session && w'.hist == w.hist && w'.fix == w.fix && w'.approvals == w.approvals
  {
    match st.tx
    case TxChoose =>
    case _ =>
  }

  /** Move k starts where the moves before it end, and is a row of the table. */
  predicate FollowsTable(h: seq<Move>, k: nat)
    requires k < |h|
  {
    h[k].from == End(h[..k]) && TableMove(h[k].from, h[k].event, h[k].to)
  }

  /** A session's committed history is a path of the table from CREATED to its
    * current status, of at most eight moves. */
  lemma HistoryIsATablePath(ws: seq<World>, steps: seq<Step>, n: nat, s: SessionId)
    requires Run(ws, steps) && n < |ws| && s in ws[n].session
    ensures s in ws[n].hist && TablePath(ws[n].hist[s])
    ensures End(ws[n].hist[s]) == ws[n].session[s] && |ws[n].hist[s]| <= 8
    ensures forall k | 0 <= k < |ws[n].hist[s]| :: FollowsTable(ws[n].hist[s], k)
  {
    Reachable(ws, steps, n);
    var h := ws[n].hist[s];
    AtMostEightMoves(h);
    forall k | 0 <= k < |h|
      ensures FollowsTable(h, k)
    {
      PathAt(h, k);
    }
  }

  lemma HistoryAtCommit(w: World, a: ActorId, pc: Pc, reported: bool, s: SessionId)
    requires LockInv(w) && PathInv(w) && s in w.session
    requires a in w.actors && pc == w.actors[a] && TxEnabled(w, TxCommit(reported), pc)
    ensures var w' := Commit(w, a, pc, reported);
      s in w'.session && s in w'.hist && w.hist[s] <= w'.hist[s]
      && (IsTerminal(w.session[s]) ==> w'.session[s] == w.session[s])
  {
    if IsTerminal(w.session[s]) { AbsorbingIffTerminal(w.session[s]); }
  }

  /** From w to w' the history of s only grows, and stops at a terminal status. */
  ghost predicate Continues(w: World, w': World, s: SessionId) {
    && s in w.session && s in w'.session && s in w.hist && s in w'.hist
    && w.hist[s] <= w'.hist[s]
    && (IsTerminal(w.session[s]) ==> w'.session[s] == w.session[s])
  }

  lemma HistoryContinues(w: World, st: Step, s: SessionId)
    requires LockInv(w) && PathInv(w) && Enabled(w, st) && s in w.session
    ensures Continues(w, Apply(w, st), s)
  {
    if IsCommit(st) {
      HistoryAtCommit(w, st.a, w.actors[st.a], st.tx.reported, s);
    }
  }

  lemma HistoryStep(ws: seq<World>, steps: seq<Step>, i: nat, s: SessionId)
    requires Run(ws, steps) && i < |steps| && s in ws[i].session
    ensures Continues(ws[i], ws[i + 1], s)
  {
    Reachable(ws, steps, i);
    HistoryContinues(ws[i], steps[i], s);
  }

  /** No committed update is ever lost, and a terminal status is final. */
  lemma {:induction false} NoUpdateIsLost(ws: seq<World>, steps: seq<Step>, i: nat, j: nat, s: SessionId)
    requires Run(ws, steps) && i < j < |ws| && s in ws[i].session
    ensures Continues(ws[i], ws[j], s)
    decreases j
  {
    if i + 1 == j {
      HistoryStep(ws, steps, i, s);
    } else {
      NoUpdateIsLost(ws, steps, i, j - 1, s);
      HistoryStep(ws, steps, j - 1, s);
    }
  }

  // ---------- the approval gate ----------

  /** An approvals row exists only for a HIGH-risk action of a session that has been
    * AWAITING_APPROVAL, and there is at most one per action. */
  lemma ApprovalRowsAreGated(ws: seq<World>, steps: seq<Step>, n: nat, x: ApprovalId)
    requires Run(ws, steps) && n < |ws| && x in ws[n].approvals
    ensures var row := ws[n].approvals[x];
      && row.sid in ws[n].hist && Visited(ws[n].hist[row.sid], AwaitingApproval)
      && row.fix in ws[n].fix && ws[n].fix[row.fix].sid == row.sid && ws[n].fix[row.fix].risk == High
      && forall y | y in ws[n].approvals && ws[n].approvals[y].fix == row.fix :: y == x
  {
    Reachable(ws, steps, n);
  }

  /** The table's FIX_PROPOSED + APPROVE entry never fires. */
  lemma ProposedIsNeverApproved(ws: seq<World>, steps: seq<Step>, n: nat, s: SessionId, k: nat)
    requires Run(ws, steps) && n < |ws| && s in ws[n].session && s in ws[n].hist && k < |ws[n].hist[s]|
    requires ws[n].hist[s][k].event == Approve
    ensures ws[n].hist[s][k].from == AwaitingApproval
  {
    Reachable(ws, steps, n);
  }

  lemma ExecutingComesFrom(s: Status, e: Event)
    requires TableMove(s, e, FixExecuting)
    ensures e == Execute || e == Approve
  {
  }

  /** Every committed mark has a row of the table behind it. */
  ghost predicate MarksAreMoves(log: seq<Mark>) {
    forall m | m in log && m.Committed? :: exists s :: TableMove(s, m.event, m.to)
  }

  lemma CommitIsAMove(w: World, a: ActorId, reported: bool)
    requires LockInv(w) && MarksAreMoves(w.log) && Enabled(w, InTx(a, TxCommit(reported)))
    ensures MarksAreMoves(Apply(w, InTx(a, TxCommit(reported))).log)
  {
    var pc := w.actors[a];
    assert OwnsRow(w, a, pc);
    assert TableMove(pc.phase.seen, EventOf(pc.job), pc.phase.next);
  }

  lemma OtherMarksAreNoMoves(w: World, st: Step)
    requires MarksAreMoves(w.log) && Enabled(w, st) && !IsCommit(st)
    ensures MarksAreMoves(Apply(w, st).log)
  {
    if Patches(st) { PatchesCommitNothing(w, st); }
  }

  lemma {:induction false} CommitsAreMoves(ws: seq<World>, steps: seq<Step>, n: nat)
    requires Run(ws, steps) && n < |ws|
    ensures MarksAreMoves(ws[n].log)
  {
    if n > 0 {
      CommitsAreMoves(ws, steps, n - 1);
      Reachable(ws, steps, n - 1);
      var w, st := ws[n - 1], steps[n - 1];
      if IsCommit(st) { CommitIsAMove(w, st.a, st.tx.reported); } else { OtherMarksAreNoMoves(w, st); }
    }
  }

  /** Mark k commits FIX_SUGGESTED for s; the last count its author took before that is mark
    * l, and when it was taken no HIGH-risk action of s was pending. */
  ghost predicate SuggestedByCount(ws: seq<World>, n: nat, s: SessionId, k: nat, l: nat)
    requires n < |ws| && l < k < |ws[n].log|
  {
    var log := ws[n].log;
    && log[k].Committed? && log[k] == Committed(s, FixGenerated, FixSuggested, log[k].who)
    && RoutesAt(log[..k], l, s, log[k].who, false)
    && exists j | 0 <= j < n :: WrittenBy(ws, j, log, l) && !HighRiskLeft(ws[j].fix, s)
  }

  lemma SuggestedHasCount(ws: seq<World>, steps: seq<Step>, n: nat, s: SessionId, k: nat) returns (l: nat)
    requires Run(ws, steps) && n < |ws| && k < |ws[n].log|
    requires ws[n].log[k].Committed? && ws[n].log[k] == Committed(s, FixGenerated, FixSuggested, ws[n].log[k].who)
    ensures l < k && SuggestedByCount(ws, n, s, k, l)
  {
    LogsJustified(ws, steps, n);
    var log := ws[n].log;
    assert Justified(log[..k], log[k]);
    l :| 0 <= l < |log[..k]| && RoutesAt(log[..k], l, s, log[k].who, false);
    assert log[l] == log[..k][l];
    RoutingIsTruthful(ws, steps, n, l);
  }

  lemma ExecutingEvent(ws: seq<World>, steps: seq<Step>, n: nat, i: nat)
    requires Run(ws, steps) && n < |ws| && i < |ws[n].log|
    requires ws[n].log[i].Committed? && ws[n].log[i].to == FixExecuting
    ensures ws[n].log[i].event == Execute || ws[n].log[i].event == Approve
  {
    CommitsAreMoves(ws, steps, n);
    var m := ws[n].log[i];
    assert m in ws[n].log;
    var from :| TableMove(from, m.event, m.to);
    ExecutingComesFrom(from, m.event);
  }

  lemma LogsJustified(ws: seq<World>, steps: seq<Step>, n: nat)
    requires Run(ws, steps) && n < |ws|
    ensures TrailLog(ws[n].log) && EntriesJustified(ws[n].log)
  {
    Reachable(ws, steps, n);
  }

  lemma ExecuteHasCount(ws: seq<World>, steps: seq<Step>, n: nat, i: nat) returns (k: nat, l: nat)
    requires Run(ws, steps) && n < |ws| && i < |ws[n].log|
    requires ws[n].log[i].Committed? && ws[n].log[i].event == Execute
    ensures l < k < i && SuggestedByCount(ws, n, ws[n].log[i].sid, k, l)
  {
    LogsJustified(ws, steps, n);
    var log, s := ws[n].log, ws[n].log[i].sid;
    assert Justified(log[..i], log[i]);
    var b :| Committed(s, FixGenerated, FixSuggested, b) in log[..i];
    k :| 0 <= k < i && log[..i][k] == Committed(s, FixGenerated, FixSuggested, b);
    l := SuggestedHasCount(ws, steps, n, s, k);
  }

  /** FIX_EXECUTING is entered by EXECUTE, after a commit of FIX_SUGGESTED whose author had
    * counted no pending HIGH-risk action, and counted right; or by APPROVE, after the same
    * handler recorded an approve decision for the same session. */
  lemma HowExecutingIsEntered(ws: seq<World>, steps: seq<Step>, n: nat, i: nat)
    requires Run(ws, steps) && n < |ws| && i < |ws[n].log|
    requires ws[n].log[i].Committed? && ws[n].log[i].to == FixExecuting
    ensures var m := ws[n].log[i];
      || (m.event == Execute && exists k, l | 0 <= l < k < i :: SuggestedByCount(ws, n, m.sid, k, l))
      || (m.event == Approve && ApprovedBy(ws[n].log[..i], m.sid, m.who))
  {
    ExecutingEvent(ws, steps, n, i);
    if ws[n].log[i].event == Execute {
      var k, l := ExecuteHasCount(ws, steps, n, i);
    } else {
      LogsJustified(ws, steps, n);
    }
  }

  /** However often and whenever ExecuteFixActions is called, a HIGH-risk action is
    * handed to Execute only after an approve decision for it was recorded. */
  lemma HighRiskNeedsApproval(ws: seq<World>, steps: seq<Step>, n: nat, i: nat)
    requires Run(ws, steps) && n < |ws| && i < |ws[n].log| && ws[n].log[i].Executed?
    ensures var f := ws[n].log[i].fix;
      f in ws[n].fix && (ws[n].fix[f].risk == High ==>
        exists j | 0 <= j < i :: ws[n].log[j].Decided? && ws[n].log[j].fix == f && ws[n].log[j].approve)
  {
    Reachable(ws, steps, n);
    var f := ws[n].log[i].fix;
    if ws[n].fix[f].risk == High {
      var m :| m in ws[n].log[..i] && m.Decided? && m.fix == f && m.approve;
      var j :| 0 <= j < i && ws[n].log[..i][j] == m;
      assert ws[n].log[j] == m;
    }
  }

  // ---------- what RESOLVED means ----------

  ghost predicate AllSucceeded(w: World, ids: seq<FixId>) {
    forall f | f in ids :: f in w.fix && w.fix[f].exec == Succeeded
  }

  lemma ResolvedOutcome(ws: seq<World>, steps: seq<Step>, n: nat, s: SessionId)
    requires Run(ws, steps) && Closed(ws[0].cfg) && n < |ws|
    requires s in ws[n].session && ws[n].session[s] == Resolved
    ensures GoodOutcome(ws[n], s) && Drained(ws[n], s, []) && TrailLog(ws[n].log)
  {
    OutcomesReachable(ws, steps, n);
  }

  lemma DrainedSucceeded(w: World, s: SessionId)
    requires Drained(w, s, []) && NoneFailed(w, s)
    ensures forall m | m in w.log && m.Snapshot? && m.sid == s :: AllSucceeded(w, m.cleared)
  {
  }

  lemma CompletedAfterLoop(log: seq<Mark>, s: SessionId)
    requires TrailLog(log) && Completed(log, s)
    ensures exists i, k | 0 <= i < k < |log| :: LoopRan(log, s, i, k)
  {
    var m :| m in log && m.Committed? && m.sid == s && m.event == ExecuteComplete;
    var k :| 0 <= k < |log| && log[k] == m;
    assert Justified(log[..k], log[k]);
    var n :| n in log[..k] && n.Snapshot? && n.sid == s && n.who == m.who;
    var i :| 0 <= i < k && log[..k][i] == n;
    assert LoopRan(log, s, i, k);
  }

  /** One actor read the actions of s at mark i and finished with them at mark k. */
  ghost predicate LoopRan(log: seq<Mark>, s: SessionId, i: nat, k: nat)
    requires i < k < |log|
  {
    && log[i].Snapshot? && log[i].sid == s
    && log[k].Committed? && log[k].sid == s && log[k].event == ExecuteComplete && log[k].who == log[i].who
    && Invoked(s, ExecuteFx, log[i].who) in log[..k]
  }

  /** At mark i the session's cleared actions were read, exactly. */
  ghost predicate ReadExactly(ws: seq<World>, n: nat, i: nat)
    requires n < |ws| && i < |ws[n].log| && ws[n].log[i].Snapshot?
  {
    var m := ws[n].log[i];
    exists j | 0 <= j < n :: WrittenBy(ws, j, ws[n].log, i) && ClearedNow(ws[j], m.sid, m.cleared)
  }

  /** With no lost writes, a RESOLVED session has actions, none of them FAILED. An actor
    * called ExecuteFixActions, read exactly the actions then cleared, and ran its loop to
    * the end; and everything read by such a call SUCCEEDED. */
  lemma ResolvedMeansSucceeded(ws: seq<World>, steps: seq<Step>, n: nat, s: SessionId)
    requires Run(ws, steps) && Closed(ws[0].cfg) && n < |ws|
    requires s in ws[n].session && ws[n].session[s] == Resolved
    ensures HasAction(ws[n], s) && NoneFailed(ws[n], s)
    ensures exists i, k | 0 <= i < k < |ws[n].log| :: LoopRan(ws[n].log, s, i, k) && ReadExactly(ws, n, i)
    ensures forall m | m in ws[n].log && m.Snapshot? && m.sid == s :: AllSucceeded(ws[n], m.cleared)
  {
    ResolvedOutcome(ws, steps, n, s);
    DrainedSucceeded(ws[n], s);
    CompletedAfterLoop(ws[n].log, s);
    var i, k :| 0 <= i < k < |ws[n].log| && LoopRan(ws[n].log, s, i, k);
    SnapshotIsTruthful(ws, steps, n, i);
    assert ReadExactly(ws, n, i);
  }

  lemma OutcomesReachable(ws: seq<World>, steps: seq<Step>, n: nat)
    requires Run(ws, steps) && Closed(ws[0].cfg) && n < |ws|
    ensures ResTables(ws[n]) && TrailLog(ws[n].log)
  {
    Reachable(ws, steps, n);
  }

  // ---------- what an approval does not bring about ----------

  lemma RanksDiffer(h: seq<Move>, i: nat, j: nat)
    requires TablePath(h) && i < j < |h|
    ensures Rank(h[i].to) < Rank(h[j].to)
  {
    PathAt(h, j);
    RanksGrow(h[..j], i);
    assert h[..j][i] == h[i];
    MoveRaisesRank(h[j].from, h[j].event, h[j].to);
  }

  lemma ExecuteStartsSuggested(s: Status, t: Status)
    requires TableMove(s, Execute, t)
    ensures s == FixSuggested
  {
  }

  /** EXECUTE stands right behind FIX_SUGGESTED. */
  lemma ExecuteComesAfter(h: seq<Move>, k: nat)
    requires TablePath(h) && k < |h| && h[k].event == Execute
    ensures k > 0 && h[k - 1].to == FixSuggested
  {
    PathAt(h, k);
    ExecuteStartsSuggested(h[k].from, h[k].to);
  }

  /** A history with AWAITING_APPROVAL in it has no EXECUTE. */
  lemma AwaitingRulesOutExecute(h: seq<Move>)
    requires TablePath(h) && Visited(h, AwaitingApproval)
    ensures !Used(h, Execute)
  {
    var i :| 0 <= i < |h| && h[i].to == AwaitingApproval;
    if k :| 0 <= k < |h| && h[k].event == Execute {
      ExecuteComesAfter(h, k);
      if i < k - 1 { RanksDiffer(h, i, k - 1); } else if k - 1 < i { RanksDiffer(h, k - 1, i); }
    }
  }

  lemma VerifyingComesFrom(s: Status, e: Event, t: Status)
    requires TableMove(s, e, t)
    ensures t == Verifying ==> e == ExecuteComplete
    ensures t == Resolved ==> s == Verifying
  {
  }

  /** A session in RESOLVED or VERIFYING was in VERIFYING by a commit of EXECUTE_COMPLETE. */
  lemma {:induction false} VerifiedHasCompleted(w: World, s: SessionId, h: seq<Move>)
    requires MovesLogged(w) && s in w.hist && h <= w.hist[s] && TablePath(h)
    requires End(h) == Resolved || End(h) == Verifying
    ensures exists a :: Committed(s, ExecuteComplete, Verifying, a) in w.log
  {
    var last := |h| - 1;
    VerifyingComesFrom(h[last].from, h[last].event, h[last].to);
    if End(h) == Verifying {
      assert MoveLogged(w.log, s, w.hist[s][last]);
    } else {
      VerifiedHasCompleted(w, s, h[..last]);
    }
  }

  lemma VerifiedWasCalled(w: World, s: SessionId)
    requires TrailInv(w) && PathInv(w) && s in w.session
    ensures w.session[s] == Verifying || w.session[s] == Resolved ==> exists a :: Invoked(s, ExecuteFx, a) in w.log
  {
    if w.session[s] == Verifying || w.session[s] == Resolved {
      VerifiedHasCompleted(w, s, w.hist[s]);
      var a :| Committed(s, ExecuteComplete, Verifying, a) in w.log;
      var k :| 0 <= k < |w.log| && w.log[k] == Committed(s, ExecuteComplete, Verifying, a);
      assert Justified(w.log[..k], w.log[k]);
      assert Invoked(s, ExecuteFx, a) in w.log;
    }
  }

  lemma CallsUseExecute(w: World, s: SessionId, a: ActorId)
    requires EffectInv(w) && !w.cfg.strayExecute && s in w.hist
    ensures Invoked(s, ExecuteFx, a) in w.log ==> Used(w.hist[s], Execute)
  {
    if Invoked(s, ExecuteFx, a) in w.log {
      assert Cause(s, ExecuteFx, a) in w.log;
    }
  }

  /** Without stray callers a session that has waited for approval is never executed, and so
    * never VERIFYING or RESOLVED, whatever is decided. */
  lemma AwaitingIsNeverExecuted(ws: seq<World>, steps: seq<Step>, n: nat, s: SessionId)
    requires Run(ws, steps) && !ws[0].cfg.strayExecute && n < |ws|
    requires s in ws[n].session && WasAwaiting(ws[n], s)
    ensures forall a :: Invoked(s, ExecuteFx, a) !in ws[n].log
    ensures ws[n].session[s] != Verifying && ws[n].session[s] != Resolved
  {
    Reachable(ws, steps, n);
    var w := ws[n];
    AwaitingRulesOutExecute(w.hist[s]);
    forall a
      ensures Invoked(s, ExecuteFx, a) !in w.log
    {
      CallsUseExecute(w, s, a);
    }
    VerifiedWasCalled(w, s);
  }
}
