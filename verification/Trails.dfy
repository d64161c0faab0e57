/** What the log must say about the past of every actor and of every commit: the routing
  * count behind a routed session, the snapshot behind a finished execution.
  */
module Trails {
  import opened Domain
  import opened Lifecycle
  import opened Protocol
  import opened Locking

  /** The latest routing count of a is for s, and came out as high says. */
  ghost predicate LastRouting(log: seq<Mark>, s: SessionId, a: ActorId, high: bool) {
    exists l | 0 <= l < |log| :: RoutesAt(log, l, s, a, high)
  }

  ghost predicate RoutesAt(log: seq<Mark>, l: nat, s: SessionId, a: ActorId, high: bool) {
    && l < |log| && log[l] == Routed(s, high, a)
    && forall k | l < k < |log| :: !(log[k].Routed? && log[k].who == a)
  }

  /** a called ExecuteFixActions for s and read the actions. */
  ghost predicate ReadActions(log: seq<Mark>, s: SessionId, a: ActorId) {
    && Invoked(s, ExecuteFx, a) in log
    && exists m | m in log :: m.Snapshot? && m.sid == s && m.who == a
  }

  predicate PastSnapshot(pc: Pc) {
    pc.ExecLoop? || pc.ExecRun? || pc.ExecSettle? || (pc.Tx? && pc.job.FinishJob?)
  }

  predicate PastRouting(pc: Pc) {
    pc.Tx? && EventOf(pc.job) == FixGenerated && (pc.phase.Chosen? || pc.phase.Written?)
  }

  ghost predicate TrailPc(log: seq<Mark>, a: ActorId, pc: Pc) {
    && (pc.ExecRead? ==> Invoked(pc.sid, ExecuteFx, a) in log)
    && (PastSnapshot(pc) ==> ReadActions(log, pc.sid, a))
    && (PastRouting(pc) && pc.phase.seen == FixProposed ==>
          LastRouting(log, pc.sid, a, pc.phase.next == AwaitingApproval))
  }

  /** What stands before a commit. */
  ghost predicate Justified(log: seq<Mark>, m: Mark)
    requires m.Committed?
  {
    && (m.event == FixGenerated ==> LastRouting(log, m.sid, m.who, m.to == AwaitingApproval))
    && (m.event == ExecuteComplete ==> ReadActions(log, m.sid, m.who))
    && (m.event == Execute ==> exists b :: Committed(m.sid, FixGenerated, FixSuggested, b) in log)
  }

  ghost predicate TrailLog(log: seq<Mark>) {
    forall i | 0 <= i < |log| && log[i].Committed? :: Justified(log[..i], log[i])
  }

  /** Every move of a history has its commit in the log. */
  ghost predicate MovesLogged(w: World) {
    forall s, k | s in w.hist && 0 <= k < |w.hist[s]| :: MoveLogged(w.log, s, w.hist[s][k])
  }

  ghost predicate MoveLogged(log: seq<Mark>, s: SessionId, move: Move) {
    exists a :: Committed(s, move.event, move.to, a) in log
  }

  ghost predicate TrailInv(w: World) {
    TrailLog(w.log) && MovesLogged(w) && forall a | a in w.actors :: TrailPc(w.log, a, w.actors[a])
  }

  // ---------- a longer log ----------

  lemma RoutingRemembered(log: seq<Mark>, m: Mark, s: SessionId, a: ActorId, high: bool)
    requires LastRouting(log, s, a, high) && !(m.Routed? && m.who == a)
    ensures LastRouting(log + [m], s, a, high)
  {
    var l :| 0 <= l < |log| && RoutesAt(log, l, s, a, high);
    assert RoutesAt(log + [m], l, s, a, high);
  }

  lemma ReadingRemembered(log: seq<Mark>, m: Mark, s: SessionId, a: ActorId)
    requires ReadActions(log, s, a)
    ensures ReadActions(log + [m], s, a)
  {
    var n :| n in log && n.Snapshot? && n.sid == s && n.who == a;
    assert n in log + [m];
  }

  /** A mark that is not the actor's own routing leaves its trail intact. */
  lemma TrailRemembered(log: seq<Mark>, m: Mark, a: ActorId, pc: Pc)
    requires TrailPc(log, a, pc) && (m.Routed? && PastRouting(pc) ==> m.who != a)
    ensures TrailPc(log + [m], a, pc)
  {
    if PastSnapshot(pc) { ReadingRemembered(log, m, pc.sid, a); }
    if PastRouting(pc) && pc.phase.seen == FixProposed {
      RoutingRemembered(log, m, pc.sid, a, pc.phase.next == AwaitingApproval);
    }
  }

  lemma LogRemembered(log: seq<Mark>, m: Mark)
    requires TrailLog(log) && (m.Committed? ==> Justified(log, m))
    ensures TrailLog(log + [m])
  {
    var log' := log + [m];
    forall i | 0 <= i < |log'| && log'[i].Committed?
      ensures Justified(log'[..i], log'[i])
    {
      assert log'[..i] == log[..i];
      if i == |log| { assert log[..i] == log; }
    }
  }

  lemma MovesRemembered(w: World, w': World)
    requires MovesLogged(w) && w'.hist == w.hist && w.log <= w'.log
    ensures MovesLogged(w')
  {
    forall s, k | s in w'.hist && 0 <= k < |w'.hist[s]|
      ensures MoveLogged(w'.log, s, w'.hist[s][k])
    {
      var a :| Committed(s, w.hist[s][k].event, w.hist[s][k].to, a) in w.log;
      assert Committed(s, w.hist[s][k].event, w.hist[s][k].to, a) in w'.log;
    }
  }

  // ---------- steps outside the commit ----------

  /** The step of a writes only marks of a, and leaves a with a trail. */
  ghost predicate TrailDelta(w: World, a: ActorId, d: Delta) {
    && (d.mark.Some? ==> d.mark.value.who == a && !d.mark.value.Committed?)
    && TrailPc(Logged(w.log, d.mark), a, d.pc)
  }

  lemma TrailPatched(w: World, a: ActorId, d: Delta)
    requires TrailInv(w) && TrailDelta(w, a, d)
    ensures TrailInv(Patched(w, a, d))
  {
    var w' := Patched(w, a, d);
    MovesRemembered(w, w');
    if d.mark.Some? { LogRemembered(w.log, d.mark.value); }
    forall b | b in w'.actors
      ensures TrailPc(w'.log, b, w'.actors[b])
    {
      if b != a && d.mark.Some? { TrailRemembered(w.log, d.mark.value, b, w.actors[b]); }
    }
  }

  lemma TrailOfTx(w: World, a: ActorId, tx: TxAct, pc: Pc)
    requires TrailPc(w.log, a, pc) && TxEnabled(w, tx, pc) && !tx.TxCommit?
    ensures TrailDelta(w, a, TxDelta(w, a, tx, pc))
  {
    match tx
    case TxChoose =>
      var m := Routed(pc.sid, HighPending(w, pc.sid), a);
      TrailRemembered(w.log, m, a, pc);
      assert RoutesAt(w.log + [m], |w.log|, pc.sid, a, m.pendingHigh);
    case TxLock =>
    case TxSkip =>
    case TxReject =>
    case TxWrite =>
    case TxAbort =>
  }

  lemma TrailOfExec(w: World, a: ActorId, exec: ExecAct, pc: Pc)
    requires TrailPc(w.log, a, pc) && ExecEnabled(w, exec, pc)
    ensures TrailDelta(w, a, ExecStep(w, a, exec, pc))
  {
    match exec
    case ExecOpen =>
    case ExecList(cleared, _) =>
      var m := Snapshot(pc.sid, cleared, a);
      assert m in w.log + [m];
    case ExecBegin(_) =>
    case ExecDo(_) => ReadingRemembered(w.log, Executed(pc.todo[0], a), pc.sid, a);
    case ExecEnd(_) =>
    case ExecFinish =>
  }

  lemma TrailElsewhere(w: World, st: Step)
    requires Enabled(w, st) && Patches(st) && !st.InTx? && !st.InExec?
    ensures TrailDelta(w, st.a, DeltaOf(w, st))
  {
    match st
    case InGate(_, gate) =>
      match gate {
        case GateOpen =>
        case _ =>
      }
    case InDecide(_, _) =>
    case Call(_, _) =>
    case ReadStatus(_) =>
    case Dispatch(_) =>
    case VerifyList(_, _) =>
    case Die(_) =>
  }

  lemma TrailDeltas(w: World, st: Step)
    requires TrailInv(w) && Enabled(w, st) && Patches(st)
    ensures TrailDelta(w, st.a, DeltaOf(w, st))
  {
    match st
    case InTx(a, tx) => TrailOfTx(w, a, tx, w.actors[a]);
    case InExec(a, exec) => TrailOfExec(w, a, exec, w.actors[a]);
    case _ => TrailElsewhere(w, st);
  }

  // ---------- the commit ----------

  lemma WhatCommits(job: Job, seen: Status, next: Status)
    requires TableMove(seen, EventOf(job), next)
    ensures EventOf(job) == ExecuteComplete ==> job == FinishJob
    ensures EventOf(job) == FixGenerated ==> seen == FixProposed
    ensures EventOf(job) == Execute ==> seen == FixSuggested
    ensures next == FixSuggested ==> EventOf(job) == FixGenerated
  {
  }

  /** A session in FIX_SUGGESTED has the commit that brought it there in the log. */
  lemma SuggestedIsLogged(w: World, s: SessionId)
    requires MovesLogged(w) && s in w.hist && TablePath(w.hist[s]) && End(w.hist[s]) == FixSuggested
    ensures exists b :: Committed(s, FixGenerated, FixSuggested, b) in w.log
  {
    var h := w.hist[s];
    var last := |h| - 1;
    PathAt(h, last);
    assert MoveLogged(w.log, s, h[last]);
  }

  lemma CommitIsLogged(w: World, w': World, s: SessionId, from: Status, m: Mark)
    requires MovesLogged(w) && s in w.hist && m.Committed? && m.sid == s && w'.log == w.log + [m]
    requires w'.hist == w.hist[s := w.hist[s] + [Move(m.event, from, m.to)]]
    ensures MovesLogged(w')
  {
    forall t, k | t in w'.hist && 0 <= k < |w'.hist[t]|
      ensures MoveLogged(w'.log, t, w'.hist[t][k])
    {
      if t == s && k == |w.hist[s]| {
        assert m == Committed(t, m.event, m.to, m.who) && m in w'.log;
      } else {
        assert MoveLogged(w.log, t, w.hist[t][k]);
        var b :| Committed(t, w.hist[t][k].event, w.hist[t][k].to, b) in w.log;
        assert Committed(t, w.hist[t][k].event, w.hist[t][k].to, b) in w'.log;
      }
    }
  }

  lemma CommitIsJustified(w: World, a: ActorId, pc: Pc)
    requires MovesLogged(w) && TrailPc(w.log, a, pc) && pc.Tx? && pc.phase.Written? && OwnsRow(w, a, pc)
    requires pc.sid in w.hist && TablePath(w.hist[pc.sid]) && End(w.hist[pc.sid]) == w.session[pc.sid]
    ensures Justified(w.log, Committed(pc.sid, EventOf(pc.job), pc.phase.next, a))
  {
    WhatCommits(pc.job, pc.phase.seen, pc.phase.next);
    if EventOf(pc.job) == Execute { SuggestedIsLogged(w, pc.sid); }
  }

  lemma TrailAfterCommit(log: seq<Mark>, m: Mark, a: ActorId, pc: Pc, next: Status, reported: bool)
    requires TrailPc(log, a, pc) && pc.Tx? && pc.phase.Written? && m.Committed?
    ensures TrailPc(log + [m], a, if reported then AfterSuccess(pc.sid, pc.job, next) else AfterError(pc))
  {
    TrailRemembered(log, m, a, pc);
  }

  lemma TrailCommitted(w: World, a: ActorId, pc: Pc, reported: bool)
    requires TrailInv(w) && a in w.actors && pc == w.actors[a] && TxEnabled(w, TxCommit(reported), pc)
    requires OwnsRow(w, a, pc) && pc.sid in w.hist && TablePath(w.hist[pc.sid])
    requires End(w.hist[pc.sid]) == w.session[pc.sid]
    ensures TrailInv(Commit(w, a, pc, reported))
  {
    var w' := Commit(w, a, pc, reported);
    var m := Committed(pc.sid, EventOf(pc.job), pc.phase.next, a);
    assert TrailPc(w.log, a, pc);
    CommitIsJustified(w, a, pc);
    LogRemembered(w.log, m);
    CommitIsLogged(w, w', pc.sid, pc.phase.seen, m);
    forall b | b in w'.actors
      ensures TrailPc(w'.log, b, w'.actors[b])
    {
      if b == a {
        TrailAfterCommit(w.log, m, a, pc, pc.phase.next, reported);
      } else {
        TrailRemembered(w.log, m, b, w.actors[b]);
      }
    }
  }

  lemma TrailKept(w: World, st: Step)
    requires LockInv(w) && PathInv(w) && TrailInv(w) && Enabled(w, st)
    ensures TrailInv(Apply(w, st))
  {
    if IsCommit(st) {
      var pc := w.actors[st.a];
      assert OwnsRow(w, st.a, pc);
      TrailCommitted(w, st.a, pc, st.tx.reported);
    } else if Patches(st) {
      TrailDeltas(w, st);
      TrailPatched(w.(lock := LockOf(w, st)), st.a, DeltaOf(w, st));
    }
  }
}
