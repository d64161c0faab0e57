/** The approvals table: rows appear only for sessions that reached
  * AWAITING_APPROVAL, one per HIGH-risk action; and APPROVE is committed only after a
  * recorded approval.
  */
module Approvals {
  import opened Domain
  import opened Lifecycle
  import opened Protocol
  import opened Locking
  import opened Effects
  import opened Execution

  ghost predicate WasAwaiting(w: World, s: SessionId) {
    s in w.hist && Visited(w.hist[s], AwaitingApproval)
  }

  ghost predicate GateRan(log: seq<Mark>, s: SessionId) {
    exists m | m in log :: m.Invoked? && m.sid == s && m.fx == GateFx
  }

  ghost predicate ApprovedBy(log: seq<Mark>, s: SessionId, a: ActorId) {
    exists m | m in log :: m.Decided? && m.sid == s && m.approve && m.who == a
  }

  predicate AtGate(pc: Pc) { pc.GateRead? || pc.GateLoop? || pc.GateMark? }

  /** The actions the gate has still to write a row for. */
  function Unasked(pc: Pc): seq<FixId> {
    if pc.GateLoop? then pc.todo
    else if pc.GateMark? && pc.todo != [] then pc.todo[1..]
    else []
  }

  ghost predicate GatePc(w: World, a: ActorId, pc: Pc) {
    && (pc.GateCall? || AtGate(pc) ==> WasAwaiting(w, pc.sid))
    && (AtGate(pc) ==> Invoked(pc.sid, GateFx, a) in w.log)
    && (pc.GateLoop? || pc.GateMark? ==>
          && Distinct(pc.todo) && (pc.GateMark? ==> pc.todo != [])
          && forall f | f in pc.todo :: f in w.fix && w.fix[f].sid == pc.sid && w.fix[f].risk == High)
    && (pc.GateRead? ==> forall x | x in w.approvals :: w.approvals[x].sid != pc.sid)
    && (forall x | x in w.approvals :: w.approvals[x].fix !in Unasked(pc))
  }

  ghost predicate DecidePc(w: World, a: ActorId, pc: Pc) {
    && (pc.DecideWrite? ==> pc.row in w.approvals && w.approvals[pc.row].sid == pc.sid)
    && (pc.DecideMark? ==> WasAwaiting(w, pc.sid) && Decided(pc.sid, pc.fix, pc.approve, a) in w.log)
    && (pc.Tx? && pc.job.DecisionJob? ==>
          WasAwaiting(w, pc.sid) && Decided(pc.sid, pc.job.fix, pc.job.approve, a) in w.log)
  }

  ghost predicate RowsGated(w: World) {
    forall x | x in w.approvals ::
      var row := w.approvals[x];
      && row.fix in w.fix && w.fix[row.fix].sid == row.sid && w.fix[row.fix].risk == High
      && WasAwaiting(w, row.sid) && GateRan(w.log, row.sid)
  }

  ghost predicate OneRowPerAction(approvals: map<ApprovalId, ApprovalRow>) {
    forall x, y | x in approvals && y in approvals && x != y :: approvals[x].fix != approvals[y].fix
  }

  ghost predicate ApprovesFromAwaiting(w: World) {
    forall s, k | s in w.hist && 0 <= k < |w.hist[s]| && w.hist[s][k].event == Approve ::
      w.hist[s][k].from == AwaitingApproval
  }

  ghost predicate EntriesJustified(log: seq<Mark>) {
    forall i | 0 <= i < |log| && log[i].Committed? ::
      log[i].event == Approve ==> ApprovedBy(log[..i], log[i].sid, log[i].who)
  }

  ghost predicate PcOk(w: World, a: ActorId, pc: Pc) {
    GatePc(w, a, pc) && DecidePc(w, a, pc)
  }

  ghost predicate ApprovalInv(w: World) {
    && RowsGated(w)
    && OneRowPerAction(w.approvals)
    && ApprovesFromAwaiting(w)
    && EntriesJustified(w.log)
    && (forall a | a in w.actors :: PcOk(w, a, w.actors[a]))
  }

  // ---------- the log ----------

  lemma MarksRemembered(log: seq<Mark>, m: Mark)
    ensures forall s :: GateRan(log, s) ==> GateRan(log + [m], s)
    ensures forall s, a :: ApprovedBy(log, s, a) ==> ApprovedBy(log + [m], s, a)
  {
    forall s | GateRan(log, s) ensures GateRan(log + [m], s) {
      var n :| n in log && n.Invoked? && n.sid == s && n.fx == GateFx;
      assert n in log + [m];
    }
    forall s, a | ApprovedBy(log, s, a) ensures ApprovedBy(log + [m], s, a) {
      var n :| n in log && n.Decided? && n.sid == s && n.approve && n.who == a;
      assert n in log + [m];
    }
  }

  lemma JustifiedLogged(log: seq<Mark>, m: Mark)
    requires EntriesJustified(log)
    requires m.Committed? && m.event == Approve ==> ApprovedBy(log, m.sid, m.who)
    ensures EntriesJustified(log + [m])
  {
    var log' := log + [m];
    forall i | 0 <= i < |log'| && log'[i].Committed?
      ensures log'[i].event == Approve ==> ApprovedBy(log'[..i], log'[i].sid, log'[i].who)
    {
      if i < |log| {
        assert log'[..i] == log[..i] && log'[i] == log[i];
      } else {
        assert log'[..i] == log;
      }
    }
  }

  // ---------- steps outside the commit ----------

  /** Existing rows keep their session and action; a new row is for the head of a gate's list. */
  ghost predicate AsksItsHead(w: World, a: ActorId, d: Delta) {
    && (forall x | x in w.approvals ::
          x in d.approvals && d.approvals[x].sid == w.approvals[x].sid && d.approvals[x].fix == w.approvals[x].fix)
    && (forall x | x in d.approvals && x !in w.approvals ::
          && a in w.actors && w.actors[a].GateLoop? && w.actors[a].todo != []
          && d.approvals[x].sid == w.actors[a].sid && d.approvals[x].fix == w.actors[a].todo[0])
    && (forall x, y | x in d.approvals && x !in w.approvals && y in d.approvals && y !in w.approvals :: x == y)
  }

  lemma GatesDiffer(w: World, a: ActorId, s: SessionId, b: ActorId, t: SessionId)
    requires OneCallPerEffect(w.cfg, w.log) && a != b
    requires Invoked(s, GateFx, a) in w.log && Invoked(t, GateFx, b) in w.log
    ensures s != t
  {
    if s == t { SameCaller(w.cfg, w.log, Invoked(s, GateFx, a), Invoked(t, GateFx, b)); }
  }

  lemma GateOthers(w: World, a: ActorId, d: Delta, b: ActorId, pc: Pc)
    requires EffectInv(w) && b in w.actors && b != a && pc == w.actors[b] && GatePc(w, b, pc)
    requires a in w.actors ==> GatePc(w, a, w.actors[a])
    requires SameRows(w.fix, d.fix) && AsksItsHead(w, a, d)
    ensures GatePc(Patched(w, a, d), b, pc)
  {
    if AtGate(pc) {
      forall x | x in d.approvals
        ensures d.approvals[x].fix !in Unasked(pc) && (pc.GateRead? ==> d.approvals[x].sid != pc.sid)
      {
        if x !in w.approvals { NewRowIsElsewhere(w, a, d, b, pc, x); }
      }
    }
    GateFramed(w, a, d, b, pc);
  }

  /** A new row is another session's. */
  lemma NewRowIsElsewhere(w: World, a: ActorId, d: Delta, b: ActorId, pc: Pc, x: ApprovalId)
    requires EffectInv(w) && b in w.actors && b != a && pc == w.actors[b] && GatePc(w, b, pc) && AtGate(pc)
    requires a in w.actors ==> GatePc(w, a, w.actors[a])
    requires AsksItsHead(w, a, d) && x in d.approvals && x !in w.approvals
    ensures d.approvals[x].fix !in Unasked(pc) && d.approvals[x].sid != pc.sid
  {
    GatesDiffer(w, a, w.actors[a].sid, b, pc.sid);
    assert forall f | f in Unasked(pc) :: f in pc.todo && w.fix[f].sid == pc.sid;
  }

  lemma GateFramed(w: World, a: ActorId, d: Delta, b: ActorId, pc: Pc)
    requires GatePc(w, b, pc) && SameRows(w.fix, d.fix)
    requires AtGate(pc) ==> forall x | x in d.approvals ::
      d.approvals[x].fix !in Unasked(pc) && (pc.GateRead? ==> d.approvals[x].sid != pc.sid)
    ensures GatePc(Patched(w, a, d), b, pc)
  {
  }

  lemma OthersOk(w: World, a: ActorId, d: Delta, b: ActorId)
    requires EffectInv(w) && ApprovalInv(w) && b in w.actors && b != a
    requires SameRows(w.fix, d.fix) && AsksItsHead(w, a, d)
    ensures PcOk(Patched(w, a, d), b, w.actors[b])
  {
    assert PcOk(w, b, w.actors[b]);
    assert a in w.actors ==> PcOk(w, a, w.actors[a]);
    GateOthers(w, a, d, b, w.actors[b]);
  }

  lemma RowsPatched(w: World, a: ActorId, d: Delta)
    requires RowsGated(w) && SameRows(w.fix, d.fix) && AsksItsHead(w, a, d)
    requires a in w.actors ==> GatePc(w, a, w.actors[a])
    ensures RowsGated(Patched(w, a, d))
  {
    if d.mark.Some? { MarksRemembered(w.log, d.mark.value); }
    if a in w.actors && w.actors[a].GateLoop? {
      assert GateRan(w.log, w.actors[a].sid);
    }
  }

  lemma RowsStayUnique(w: World, a: ActorId, d: Delta)
    requires OneRowPerAction(w.approvals) && AsksItsHead(w, a, d)
    requires a in w.actors ==> GatePc(w, a, w.actors[a])
    ensures OneRowPerAction(d.approvals)
  {
    forall x, y | x in d.approvals && y in d.approvals && x != y
      ensures d.approvals[x].fix != d.approvals[y].fix
    {
      if x !in w.approvals || y !in w.approvals {
        assert w.actors[a].todo[0] in Unasked(w.actors[a]);
      }
    }
  }

  lemma ApprovalsPatched(w: World, a: ActorId, d: Delta)
    requires EffectInv(w) && ApprovalInv(w)
    requires SameRows(w.fix, d.fix) && AsksItsHead(w, a, d)
    requires d.mark.Some? ==> !d.mark.value.Committed?
    requires PcOk(Patched(w, a, d), a, d.pc)
    ensures ApprovalInv(Patched(w, a, d))
  {
    assert a in w.actors ==> PcOk(w, a, w.actors[a]);
    RowsPatched(w, a, d);
    RowsStayUnique(w, a, d);
    if d.mark.Some? { JustifiedLogged(w.log, d.mark.value); }
    forall b | b in w.actors && b != a
      ensures PcOk(Patched(w, a, d), b, w.actors[b])
    {
      OthersOk(w, a, d, b);
    }
  }

  // ---------- each family of steps ----------

  lemma OkOfGateOpen(w: World, a: ActorId, pc: Pc)
    requires EffectInv(w) && RowsGated(w) && a in w.actors && pc == w.actors[a]
    requires GatePc(w, a, pc) && pc.GateCall?
    ensures GatePc(Patched(w, a, GateStep(w, a, GateOpen, pc)), a, GateRead(pc.sid))
  {
    assert Entitled(w, a, pc);
    assert forall x | x in w.approvals :: GateRan(w.log, w.approvals[x].sid);
  }

  lemma OkOfGateList(w: World, a: ActorId, pc: Pc, todo: seq<FixId>)
    requires RowsGated(w) && GatePc(w, a, pc) && GateEnabled(w, GateList(todo), pc)
    ensures GatePc(Patched(w, a, GateStep(w, a, GateList(todo), pc)), a, GateLoop(pc.sid, todo))
  {
  }

  lemma OkOfGateLoop(w: World, a: ActorId, pc: Pc, gate: GateAct)
    requires GatePc(w, a, pc) && GateEnabled(w, gate, pc) && !gate.GateOpen? && !gate.GateList?
    ensures var d := GateStep(w, a, gate, pc); GatePc(Patched(w, a, d), a, d.pc)
  {
    match gate
    case GateSkip =>
    case GateInsert(_, _) =>
    case GatePending(_) =>
  }

  lemma GateAsksItsHead(w: World, a: ActorId, pc: Pc, gate: GateAct)
    requires a in w.actors && pc == w.actors[a] && GateEnabled(w, gate, pc)
    ensures AsksItsHead(w, a, GateStep(w, a, gate, pc))
  {
    match gate
    case GateOpen =>
    case GateList(_) =>
    case GateSkip =>
    case GateInsert(_, _) =>
    case GatePending(_) =>
  }

  lemma OkOfGate(w: World, a: ActorId, pc: Pc, gate: GateAct)
    requires EffectInv(w) && RowsGated(w) && a in w.actors && pc == w.actors[a]
    requires GatePc(w, a, pc) && GateEnabled(w, gate, pc)
    ensures var d := GateStep(w, a, gate, pc); PcOk(Patched(w, a, d), a, d.pc) && AsksItsHead(w, a, d)
  {
    GateAsksItsHead(w, a, pc, gate);
    match gate
    case GateOpen => OkOfGateOpen(w, a, pc);
    case GateList(todo) => OkOfGateList(w, a, pc, todo);
    case _ => OkOfGateLoop(w, a, pc, gate);
  }

  lemma OkOfDecide(w: World, a: ActorId, pc: Pc, decide: DecideAct)
    requires RowsGated(w) && DecidePc(w, a, pc) && DecideEnabled(w, decide, pc)
    ensures var d := DecideStep(w, a, decide, pc); PcOk(Patched(w, a, d), a, d.pc) && AsksItsHead(w, a, d)
  {
    match decide
    case DecideRow(took, reported) =>
      var m := Decided(pc.sid, w.approvals[pc.row].fix, pc.approve, a);
      assert m in w.log + [m];
    case DecideFix(_) =>
  }

  lemma OkOfTx(w: World, a: ActorId, pc: Pc, tx: TxAct)
    requires PcOk(w, a, pc) && TxEnabled(w, tx, pc) && !tx.TxCommit?
    ensures var d := TxDelta(w, a, tx, pc); PcOk(Patched(w, a, d), a, d.pc) && AsksItsHead(w, a, d)
  {
    match tx
    case TxChoose =>
    case _ =>
  }

  lemma OkElsewhere(w: World, st: Step)
    requires RowsGated(w) && Enabled(w, st) && Patches(st) && !st.InGate? && !st.InDecide? && !st.InTx? && !st.InExec?
    ensures var d := DeltaOf(w, st); PcOk(Patched(w, st.a, d), st.a, d.pc) && AsksItsHead(w, st.a, d)
    ensures var d := DeltaOf(w, st); d.mark.Some? ==> !d.mark.value.Committed?
  {
    match st
    case Call(_, _) =>
    case ReadStatus(_) =>
    case Dispatch(_) =>
    case VerifyList(_, _) =>
    case Die(_) =>
  }

  lemma OkOfExec(w: World, a: ActorId, pc: Pc, exec: ExecAct)
    requires ExecEnabled(w, exec, pc)
    ensures var d := ExecStep(w, a, exec, pc);
      PcOk(Patched(w, a, d), a, d.pc) && AsksItsHead(w, a, d) && (d.mark.Some? ==> !d.mark.value.Committed?)
  {
    match exec
    case ExecFinish =>
    case _ =>
  }

  lemma PatchesCommitNothing(w: World, st: Step)
    requires Enabled(w, st) && Patches(st)
    ensures var d := DeltaOf(w, st); d.mark.Some? ==> !d.mark.value.Committed?
  {
  }

  lemma ApprovalDeltas(w: World, st: Step)
    requires EffectInv(w) && ApprovalInv(w) && Enabled(w, st) && Patches(st)
    ensures var d := DeltaOf(w, st); PcOk(Patched(w, st.a, d), st.a, d.pc) && AsksItsHead(w, st.a, d)
    ensures var d := DeltaOf(w, st); d.mark.Some? ==> !d.mark.value.Committed?
  {
    assert st.a in w.actors ==> PcOk(w, st.a, w.actors[st.a]);
    PatchesCommitNothing(w, st);
    match st
    case InGate(a, gate) => OkOfGate(w, a, w.actors[a], gate);
    case InDecide(a, decide) => OkOfDecide(w, a, w.actors[a], decide);
    case InTx(a, tx) => OkOfTx(w, a, w.actors[a], tx);
    case InExec(a, exec) => OkOfExec(w, a, w.actors[a], exec);
    case _ => OkElsewhere(w, st);
  }

  // ---------- the commit ----------

  lemma HistoryGrows(w: World, a: ActorId, pc: Pc, reported: bool)
    requires TxEnabled(w, TxCommit(reported), pc) && pc.sid in w.hist
    ensures var w' := Commit(w, a, pc, reported);
      && (forall s | WasAwaiting(w, s) :: WasAwaiting(w', s))
      && (pc.phase.next == AwaitingApproval ==> WasAwaiting(w', pc.sid))
  {
    var w' := Commit(w, a, pc, reported);
    assert w'.hist[pc.sid][|w.hist[pc.sid]|].to == pc.phase.next;
    forall s | WasAwaiting(w, s) ensures WasAwaiting(w', s) {
      var k :| 0 <= k < |w.hist[s]| && w.hist[s][k].to == AwaitingApproval;
      assert w'.hist[s][k].to == AwaitingApproval;
    }
  }

  lemma OnlyDecisionsApprove(job: Job)
    requires EventOf(job) == Approve
    ensures job.DecisionJob? && job.approve
  {
  }

  lemma ApproveAfterProposal(s: Status, t: Status)
    requires TableMove(s, Approve, t) && Rank(s) >= 5
    ensures s == AwaitingApproval
  {
  }

  /** APPROVE never fires in FIX_PROPOSED. */
  lemma ApproveComesFromAwaiting(w: World, a: ActorId, pc: Pc)
    requires PathInv(w) && pc.Tx? && pc.phase.Written? && OwnsRow(w, a, pc)
    requires DecidePc(w, a, pc) && EventOf(pc.job) == Approve
    ensures pc.phase.seen == AwaitingApproval && ApprovedBy(w.log, pc.sid, a)
  {
    OnlyDecisionsApprove(pc.job);
    AwaitingIsPastProposal(w.hist[pc.sid]);
    ApproveAfterProposal(pc.phase.seen, pc.phase.next);
  }

  lemma CommitJustified(w: World, a: ActorId, pc: Pc, reported: bool)
    requires LockInv(w) && PathInv(w) && ApprovalInv(w)
    requires a in w.actors && pc == w.actors[a] && TxEnabled(w, TxCommit(reported), pc)
    ensures EntriesJustified(Commit(w, a, pc, reported).log)
    ensures ApprovesFromAwaiting(Commit(w, a, pc, reported))
  {
    assert PcOk(w, a, pc);
    if EventOf(pc.job) == Approve { ApproveComesFromAwaiting(w, a, pc); }
    JustifiedLogged(w.log, Committed(pc.sid, EventOf(pc.job), pc.phase.next, a));
  }

  /** Success leads to nothing this module tracks, except the gate. */
  lemma SuccessOk(w: World, a: ActorId, s: SessionId, job: Job, next: Status)
    requires next == AwaitingApproval ==> WasAwaiting(w, s)
    ensures PcOk(w, a, AfterSuccess(s, job, next))
  {
    match job
    case RouteJob =>
    case _ =>
  }

  lemma RetryOk(w: World, a: ActorId, pc: Pc)
    requires pc.Tx? && DecidePc(w, a, pc)
    ensures PcOk(w, a, AfterError(pc))
  {
  }

  lemma CommitterOk(w: World, a: ActorId, pc: Pc, reported: bool)
    requires TxEnabled(w, TxCommit(reported), pc) && pc.sid in w.hist && DecidePc(w, a, pc)
    ensures var w' := Commit(w, a, pc, reported); PcOk(w', a, w'.actors[a])
  {
    HistoryGrows(w, a, pc, reported);
    var w' := Commit(w, a, pc, reported);
    if reported {
      SuccessOk(w', a, pc.sid, pc.job, pc.phase.next);
    } else {
      RetryOk(w', a, pc);
    }
  }

  lemma ApprovalsCommitted(w: World, a: ActorId, pc: Pc, reported: bool)
    requires LockInv(w) && PathInv(w) && ApprovalInv(w)
    requires a in w.actors && pc == w.actors[a] && TxEnabled(w, TxCommit(reported), pc)
    ensures ApprovalInv(Commit(w, a, pc, reported))
  {
    var w' := Commit(w, a, pc, reported);
    HistoryGrows(w, a, pc, reported);
    MarksRemembered(w.log, Committed(pc.sid, EventOf(pc.job), pc.phase.next, a));
    CommitJustified(w, a, pc, reported);
    forall b | b in w'.actors
      ensures PcOk(w', b, w'.actors[b])
    {
      assert PcOk(w, b, w.actors[b]);
      if b == a { CommitterOk(w, a, pc, reported); }
    }
  }

  // ---------- all steps ----------

  lemma ApprovalsUnlocked(w: World, lock: map<SessionId, ActorId>)
    requires ApprovalInv(w)
    ensures ApprovalInv(w.(lock := lock))
  {
    forall b | b in w.actors
      ensures PcOk(w.(lock := lock), b, w.actors[b])
    {
      assert PcOk(w, b, w.actors[b]);
    }
  }

  lemma ApprovalsElsewhere(w: World, st: Step)
    requires LockInv(w) && ApprovalInv(w) && Enabled(w, st) && (st.InsertFix? || st.CreateSession?)
    ensures ApprovalInv(Apply(w, st))
  {
    var w' := Apply(w, st);
    assert forall s | s in w.hist :: s in w'.hist && w'.hist[s] == w.hist[s];
    forall b | b in w'.actors
      ensures PcOk(w', b, w'.actors[b])
    {
      assert PcOk(w, b, w.actors[b]);
    }
  }

  lemma ApprovalsKept(w: World, st: Step)
    requires LockInv(w) && PathInv(w) && EffectInv(w) && ApprovalInv(w) && Enabled(w, st)
    ensures ApprovalInv(Apply(w, st))
  {
    if IsCommit(st) {
      ApprovalsCommitted(w, st.a, w.actors[st.a], st.tx.reported);
    } else if Patches(st) {
      ApprovalDeltas(w, st);
      RowsKept(w, st);
      ApprovalsPatched(w, st.a, DeltaOf(w, st));
      ApprovalsUnlocked(Patched(w, st.a, DeltaOf(w, st)), LockOf(w, st));
    } else {
      ApprovalsElsewhere(w, st);
    }
  }
}
