/** What RESOLVED means when no table write is lost and only the event loop calls
  * ExecuteFixActions: the one execution loop has run to its end, and everything it
  * was allowed to run succeeded.
  */
module Resolution {
  import opened Domain
  import opened Protocol
  import opened Locking
  import opened Effects
  import opened Execution

  predicate Closed(cfg: Config) { !cfg.strayExecute && cfg.writesLand }

  predicate Settled(row: FixRow) { row.exec == Succeeded || row.exec == FailedRun }

  /** EXECUTE_COMPLETE has been committed. */
  ghost predicate Completed(log: seq<Mark>, s: SessionId) {
    exists m | m in log :: m.Committed? && m.sid == s && m.event == ExecuteComplete
  }

  ghost predicate NoSnapshot(log: seq<Mark>, s: SessionId) {
    forall m | m in log && m.Snapshot? :: m.sid != s
  }

  ghost predicate Untouched(w: World, s: SessionId) {
    forall f | f in w.fix && w.fix[f].sid == s :: w.fix[f].exec == NotStarted
  }

  /** Everything the snapshots of s cleared has been settled, or is still listed. */
  ghost predicate Drained(w: World, s: SessionId, todo: seq<FixId>) {
    forall m, f | m in w.log && m.Snapshot? && m.sid == s && f in m.cleared ::
      f in w.fix && w.fix[f].sid == s && (f in todo || Settled(w.fix[f]))
  }

  predicate Executing(pc: Pc) { pc.ExecRead? || InLoop(pc) }

  predicate Finishing(pc: Pc) { pc.Tx? && pc.job.FinishJob? }

  ghost predicate RunPc(w: World, a: ActorId, pc: Pc) {
    && (Executing(pc) || Finishing(pc) ==> Invoked(pc.sid, ExecuteFx, a) in w.log)
    && (Executing(pc) ==> !Completed(w.log, pc.sid))
    && (pc.ExecRead? ==> Untouched(w, pc.sid) && NoSnapshot(w.log, pc.sid))
    && (InLoop(pc) ==> Drained(w, pc.sid, pc.todo) && !NoSnapshot(w.log, pc.sid))
    && (Finishing(pc) ==> Drained(w, pc.sid, []))
  }

  ghost predicate GoodOutcome(w: World, s: SessionId) {
    Completed(w.log, s) && HasAction(w, s) && NoneFailed(w, s)
  }

  ghost predicate VerifyPc(w: World, pc: Pc) {
    && (pc.VerifyRead? ==> Completed(w.log, pc.sid))
    && (pc.Tx? && pc.job == VerifyJob(true) ==> GoodOutcome(w, pc.sid))
  }

  ghost predicate ResPc(w: World, a: ActorId, pc: Pc) { RunPc(w, a, pc) && VerifyPc(w, pc) }

  ghost predicate SnapshotsOwned(w: World) {
    forall m | m in w.log && m.Snapshot? :: Invoked(m.sid, ExecuteFx, m.who) in w.log
  }

  ghost predicate CompletionsOwned(w: World) {
    forall m | m in w.log && m.Committed? && m.event == ExecuteComplete :: Invoked(m.sid, ExecuteFx, m.who) in w.log
  }

  ghost predicate TouchedAfterSnapshot(w: World) {
    forall f | f in w.fix && w.fix[f].exec != NotStarted :: !NoSnapshot(w.log, w.fix[f].sid)
  }

  ghost predicate ResTables(w: World) {
    && SnapshotsOwned(w)
    && CompletionsOwned(w)
    && TouchedAfterSnapshot(w)
    && (forall s | Completed(w.log, s) :: Drained(w, s, []))
    && (forall s | s in w.session && w.session[s] == Verifying :: Completed(w.log, s))
    && (forall s | s in w.session && w.session[s] == Resolved :: GoodOutcome(w, s))
  }

  ghost predicate ResInv(w: World) {
    ResTables(w) && forall a | a in w.actors :: ResPc(w, a, w.actors[a])
  }

  // ---------- steps outside the commit ----------

  lemma CompletionRemembered(log: seq<Mark>, m: Mark)
    ensures forall s :: Completed(log, s) ==> Completed(log + [m], s)
    ensures forall s :: !(m.Committed? && m.event == ExecuteComplete && m.sid == s) && Completed(log + [m], s) ==>
      Completed(log, s)
  {
    forall s | Completed(log, s) ensures Completed(log + [m], s) {
      var n :| n in log && n.Committed? && n.sid == s && n.event == ExecuteComplete;
      assert n in log + [m];
    }
    forall s | Completed(log + [m], s) && !(m.Committed? && m.event == ExecuteComplete && m.sid == s)
      ensures Completed(log, s)
    {
      var n :| n in log + [m] && n.Committed? && n.sid == s && n.event == ExecuteComplete;
      assert n in log;
    }
  }

  lemma RunnersDiffer(w: World, a: ActorId, s: SessionId, b: ActorId, t: SessionId)
    requires Closed(w.cfg) && OneCallPerEffect(w.cfg, w.log) && a != b
    requires Invoked(s, ExecuteFx, a) in w.log && Invoked(t, ExecuteFx, b) in w.log
    ensures s != t
  {
    if s == t { SameCaller(w.cfg, w.log, Invoked(s, ExecuteFx, a), Invoked(t, ExecuteFx, b)); }
  }

  /** The step of a on session s is allowed to touch what s's execution owns. */
  ghost predicate RunDelta(w: World, a: ActorId, d: Delta) {
    && SameRows(w.fix, d.fix)
    && (d.mark.Some? ==> !d.mark.value.Committed?)
    && (forall f | f in w.fix && d.fix[f].exec != w.fix[f].exec ::
          a in w.actors && InLoop(w.actors[a]) && w.actors[a].sid == w.fix[f].sid)
    && (d.mark.Some? && d.mark.value.Snapshot? ==>
          && a in w.actors && w.actors[a].ExecRead? && w.actors[a].sid == d.mark.value.sid && d.mark.value.who == a
          && forall f | f in d.mark.value.cleared :: f in w.fix && w.fix[f].sid == d.mark.value.sid)
  }

  /** Sessions whose execution is not a's are untouched by a's step. */
  ghost predicate Elsewhere(w: World, a: ActorId, s: SessionId) {
    a in w.actors && Executing(w.actors[a]) ==> w.actors[a].sid != s
  }

  lemma DrainedElsewhere(w: World, a: ActorId, d: Delta, s: SessionId, todo: seq<FixId>)
    requires RunDelta(w, a, d) && Elsewhere(w, a, s)
    ensures Drained(w, s, todo) ==> Drained(Patched(w, a, d), s, todo)
    ensures NoSnapshot(w.log, s) ==> NoSnapshot(Logged(w.log, d.mark), s)
    ensures Untouched(w, s) ==> Untouched(Patched(w, a, d), s)
    ensures NoneFailed(w, s) ==> NoneFailed(Patched(w, a, d), s)
  {
  }

  lemma ActionsRemain(w: World, a: ActorId, d: Delta, s: SessionId)
    requires SameRows(w.fix, d.fix)
    ensures HasAction(w, s) ==> HasAction(Patched(w, a, d), s)
  {
    if HasAction(w, s) {
      var f :| f in w.fix && w.fix[f].sid == s;
      assert f in d.fix && d.fix[f].sid == s;
    }
  }

  lemma OutcomeKept(w: World, a: ActorId, d: Delta, s: SessionId)
    requires RunDelta(w, a, d) && (a in w.actors ==> RunPc(w, a, w.actors[a])) && Completed(w.log, s)
    ensures Elsewhere(w, a, s)
    ensures GoodOutcome(w, s) ==> GoodOutcome(Patched(w, a, d), s)
  {
    DrainedElsewhere(w, a, d, s, []);
    ActionsRemain(w, a, d, s);
    if d.mark.Some? { CompletionRemembered(w.log, d.mark.value); }
  }

  lemma RunsElsewhere(w: World, a: ActorId, b: ActorId)
    requires Closed(w.cfg) && OneCallPerEffect(w.cfg, w.log) && ResInv(w)
    requires b in w.actors && b != a && (Executing(w.actors[b]) || Finishing(w.actors[b]))
    ensures Elsewhere(w, a, w.actors[b].sid)
  {
    assert ResPc(w, b, w.actors[b]);
    if a in w.actors && Executing(w.actors[a]) {
      assert ResPc(w, a, w.actors[a]);
      RunnersDiffer(w, a, w.actors[a].sid, b, w.actors[b].sid);
    }
  }

  lemma OtherRunsKept(w: World, a: ActorId, d: Delta, b: ActorId)
    requires Closed(w.cfg) && OneCallPerEffect(w.cfg, w.log) && ResInv(w) && RunDelta(w, a, d)
    requires b in w.actors && b != a
    ensures RunPc(Patched(w, a, d), b, w.actors[b])
  {
    var pc := w.actors[b];
    assert ResPc(w, b, pc);
    if Executing(pc) || Finishing(pc) {
      RunsElsewhere(w, a, b);
      DrainedElsewhere(w, a, d, pc.sid, if InLoop(pc) then pc.todo else []);
      if d.mark.Some? { CompletionRemembered(w.log, d.mark.value); }
    }
  }

  lemma OtherVerdictsKept(w: World, a: ActorId, d: Delta, b: ActorId)
    requires ResInv(w) && RunDelta(w, a, d) && b in w.actors && b != a
    ensures VerifyPc(Patched(w, a, d), w.actors[b])
  {
    var pc := w.actors[b];
    assert ResPc(w, b, pc);
    assert a in w.actors ==> ResPc(w, a, w.actors[a]);
    if pc.VerifyRead? || (pc.Tx? && pc.job == VerifyJob(true)) {
      OutcomeKept(w, a, d, pc.sid);
      if d.mark.Some? { CompletionRemembered(w.log, d.mark.value); }
    }
  }

  lemma OwnershipPatched(w: World, a: ActorId, d: Delta)
    requires ResTables(w) && RunDelta(w, a, d) && (a in w.actors ==> RunPc(w, a, w.actors[a]))
    ensures var w' := Patched(w, a, d); SnapshotsOwned(w') && CompletionsOwned(w') && TouchedAfterSnapshot(w')
  {
    var w' := Patched(w, a, d);
    forall f | f in w'.fix && w'.fix[f].exec != NotStarted
      ensures !NoSnapshot(w'.log, w'.fix[f].sid)
    {
      assert !NoSnapshot(w.log, w.fix[f].sid);
      var m :| m in w.log && m.Snapshot? && m.sid == w.fix[f].sid;
      assert m in w'.log;
    }
  }

  lemma TablesPatched(w: World, a: ActorId, d: Delta)
    requires ResTables(w) && RunDelta(w, a, d) && (a in w.actors ==> RunPc(w, a, w.actors[a]))
    ensures ResTables(Patched(w, a, d))
  {
    var w' := Patched(w, a, d);
    OwnershipPatched(w, a, d);
    if d.mark.Some? { CompletionRemembered(w.log, d.mark.value); }
    forall s | Completed(w'.log, s) ensures Drained(w', s, []) {
      OutcomeKept(w, a, d, s);
      DrainedElsewhere(w, a, d, s, []);
    }
    forall s | s in w'.session && w'.session[s] == Resolved ensures GoodOutcome(w', s) {
      OutcomeKept(w, a, d, s);
    }
  }

  lemma ResPatched(w: World, a: ActorId, d: Delta)
    requires Closed(w.cfg) && OneCallPerEffect(w.cfg, w.log) && ResInv(w) && RunDelta(w, a, d)
    requires ResPc(Patched(w, a, d), a, d.pc)
    ensures ResInv(Patched(w, a, d))
  {
    assert a in w.actors ==> ResPc(w, a, w.actors[a]);
    TablesPatched(w, a, d);
    forall b | b in w.actors && b != a
      ensures ResPc(Patched(w, a, d), b, w.actors[b])
    {
      OtherRunsKept(w, a, d, b);
      OtherVerdictsKept(w, a, d, b);
    }
  }

  // ---------- each family of steps ----------

  lemma RunOpened(w: World, a: ActorId, pc: Pc)
    requires Closed(w.cfg) && EffectInv(w) && ResTables(w) && a in w.actors && pc == w.actors[a] && pc.ExecCall?
    ensures RunPc(Patched(w, a, ExecStep(w, a, ExecOpen, pc)), a, ExecRead(pc.sid))
  {
    assert Entitled(w, a, pc);
    CompletionRemembered(w.log, Invoked(pc.sid, ExecuteFx, a));
  }

  lemma RunListed(w: World, a: ActorId, pc: Pc, cleared: seq<FixId>, todo: seq<FixId>)
    requires RunPc(w, a, pc) && ExecEnabled(w, ExecList(cleared, todo), pc)
    ensures var d := ExecStep(w, a, ExecList(cleared, todo), pc); RunPc(Patched(w, a, d), a, d.pc)
  {
    var m := Snapshot(pc.sid, cleared, a);
    CompletionRemembered(w.log, m);
    assert m in w.log + [m];
    assert forall f | f in cleared :: f in todo;
  }

  lemma RunLooped(w: World, a: ActorId, pc: Pc, exec: ExecAct)
    requires Closed(w.cfg) && RunPc(w, a, pc) && ExecEnabled(w, exec, pc)
    requires exec.ExecBegin? || exec.ExecEnd? || exec.ExecFinish?
    ensures var d := ExecStep(w, a, exec, pc); RunPc(Patched(w, a, d), a, d.pc)
  {
    match exec
    case ExecBegin(_) =>
    case ExecEnd(_) => assert pc.todo == [pc.todo[0]] + pc.todo[1..];
    case ExecFinish =>
  }

  lemma RunDone(w: World, a: ActorId, pc: Pc, ok: bool)
    requires RunPc(w, a, pc) && ExecEnabled(w, ExecDo(ok), pc)
    ensures var d := ExecStep(w, a, ExecDo(ok), pc); RunPc(Patched(w, a, d), a, d.pc)
  {
    var m := Executed(pc.todo[0], a);
    CompletionRemembered(w.log, m);
    assert forall n | n in w.log :: n in w.log + [m];
  }

  lemma ResOfExec(w: World, a: ActorId, pc: Pc, exec: ExecAct)
    requires Closed(w.cfg) && EffectInv(w) && ExecInv(w) && ResInv(w)
    requires a in w.actors && pc == w.actors[a] && ExecEnabled(w, exec, pc)
    ensures var d := ExecStep(w, a, exec, pc); RunPc(Patched(w, a, d), a, d.pc) && VerifyPc(Patched(w, a, d), d.pc)
  {
    assert ResPc(w, a, pc);
    match exec
    case ExecOpen => RunOpened(w, a, pc);
    case ExecList(cleared, todo) => RunListed(w, a, pc, cleared, todo);
    case ExecDo(ok) => RunDone(w, a, pc, ok);
    case _ => RunLooped(w, a, pc, exec);
  }

  lemma DeltaOfExec(w: World, a: ActorId, pc: Pc, exec: ExecAct)
    requires ExecPc(w, a, pc) && a in w.actors && pc == w.actors[a] && ExecEnabled(w, exec, pc)
    ensures RunDelta(w, a, ExecStep(w, a, exec, pc))
  {
    match exec
    case ExecOpen =>
    case ExecList(_, _) =>
    case ExecBegin(_) =>
    case ExecDo(_) =>
    case ExecEnd(_) =>
    case ExecFinish =>
  }

  lemma ResOfTx(w: World, a: ActorId, pc: Pc, tx: TxAct)
    requires ResPc(w, a, pc) && TxEnabled(w, tx, pc) && !tx.TxCommit?
    ensures var d := TxDelta(w, a, tx, pc); RunDelta(w, a, d) && ResPc(Patched(w, a, d), a, d.pc)
  {
    match tx
    case TxChoose => CompletionRemembered(w.log, Routed(pc.sid, HighPending(w, pc.sid), a));
    case _ =>
  }

  lemma ResOfGate(w: World, a: ActorId, pc: Pc, gate: GateAct)
    requires GateEnabled(w, gate, pc)
    ensures var d := GateStep(w, a, gate, pc); RunDelta(w, a, d) && ResPc(Patched(w, a, d), a, d.pc)
  {
    match gate
    case GatePending(_) =>
    case _ =>
  }

  lemma ResOfDecide(w: World, a: ActorId, pc: Pc, decide: DecideAct)
    requires DecideEnabled(w, decide, pc)
    ensures var d := DecideStep(w, a, decide, pc); RunDelta(w, a, d) && ResPc(Patched(w, a, d), a, d.pc)
  {
    match decide
    case DecideRow(_, _) =>
    case DecideFix(_) =>
  }

  lemma ResElsewhere(w: World, st: Step)
    requires Closed(w.cfg) && ResInv(w) && Enabled(w, st) && Patches(st)
    requires !st.InGate? && !st.InDecide? && !st.InTx? && !st.InExec?
    ensures var d := DeltaOf(w, st); RunDelta(w, st.a, d) && ResPc(Patched(w, st.a, d), st.a, d.pc)
  {
    assert st.a in w.actors ==> ResPc(w, st.a, w.actors[st.a]);
    match st
    case VerifyList(_, _) =>
    case Dispatch(_) =>
    case Call(_, _) =>
    case ReadStatus(_) =>
    case Die(_) =>
  }

  lemma ResDeltas(w: World, st: Step)
    requires Closed(w.cfg) && EffectInv(w) && ExecInv(w) && ResInv(w) && Enabled(w, st) && Patches(st)
    ensures var d := DeltaOf(w, st); RunDelta(w, st.a, d) && ResPc(Patched(w, st.a, d), st.a, d.pc)
  {
    match st
    case InExec(a, exec) =>
      assert ExecPc(w, a, w.actors[a]);
      ResOfExec(w, a, w.actors[a], exec);
      DeltaOfExec(w, a, w.actors[a], exec);
    case InGate(a, gate) => ResOfGate(w, a, w.actors[a], gate);
    case InDecide(a, decide) => ResOfDecide(w, a, w.actors[a], decide);
    case InTx(a, tx) =>
      assert ResPc(w, a, w.actors[a]);
      ResOfTx(w, a, w.actors[a], tx);
    case _ => ResElsewhere(w, st);
  }

  // ---------- the commit ----------

  lemma WhoCompletes(job: Job, s: Status, t: Status)
    requires TableMove(s, EventOf(job), t)
    ensures EventOf(job) == ExecuteComplete ==> job == FinishJob
    ensures t == Verifying ==> EventOf(job) == ExecuteComplete
    ensures t == Resolved ==> job == VerifyJob(true)
  {
  }

  /** Appending a commit disturbs only an execution of the session it completes. */
  lemma ResPcLogged(w: World, w': World, m: Mark, b: ActorId, pc: Pc)
    requires m.Committed? && w'.log == w.log + [m] && w'.fix == w.fix && ResPc(w, b, pc)
    requires Executing(pc) && m.event == ExecuteComplete ==> m.sid != pc.sid
    ensures ResPc(w', b, pc)
  {
    CompletionRemembered(w.log, m);
    assert forall n | n in w.log :: n in w'.log;
  }

  lemma DrainedLogged(w: World, w': World, m: Mark, s: SessionId)
    requires m.Committed? && w'.log == w.log + [m] && w'.fix == w.fix
    ensures Drained(w, s, []) ==> Drained(w', s, [])
    ensures GoodOutcome(w, s) ==> GoodOutcome(w', s)
  {
    CompletionRemembered(w.log, m);
  }

  lemma OwnershipLogged(w: World, w': World, m: Mark)
    requires m.Committed? && w'.log == w.log + [m] && w'.fix == w.fix && ResTables(w)
    requires m.event == ExecuteComplete ==> Invoked(m.sid, ExecuteFx, m.who) in w.log
    ensures SnapshotsOwned(w') && CompletionsOwned(w') && TouchedAfterSnapshot(w')
  {
    forall f | f in w'.fix && w'.fix[f].exec != NotStarted
      ensures !NoSnapshot(w'.log, w'.fix[f].sid)
    {
      assert !NoSnapshot(w.log, w.fix[f].sid);
      var n :| n in w.log && n.Snapshot? && n.sid == w.fix[f].sid;
      assert n in w'.log;
    }
  }

  lemma TablesLogged(w: World, w': World, m: Mark)
    requires m.Committed? && w'.log == w.log + [m] && w'.fix == w.fix && ResTables(w)
    requires w'.session == w.session[m.sid := m.to]
    requires m.event == ExecuteComplete ==> Invoked(m.sid, ExecuteFx, m.who) in w.log && Drained(w, m.sid, [])
    requires m.to == Verifying ==> m.event == ExecuteComplete
    requires m.to == Resolved ==> GoodOutcome(w, m.sid)
    ensures ResTables(w')
  {
    OwnershipLogged(w, w', m);
    CompletionRemembered(w.log, m);
    assert m in w'.log;
    forall s | Completed(w'.log, s) ensures Drained(w', s, []) {
      DrainedLogged(w, w', m, s);
    }
    forall s | s in w'.session && w'.session[s] == Resolved ensures GoodOutcome(w', s) {
      DrainedLogged(w, w', m, s);
    }
  }

  lemma ResCommitted(w: World, a: ActorId, pc: Pc, reported: bool)
    requires Closed(w.cfg) && OneCallPerEffect(w.cfg, w.log) && LockInv(w) && ResInv(w)
    requires a in w.actors && pc == w.actors[a] && TxEnabled(w, TxCommit(reported), pc)
    ensures ResInv(Commit(w, a, pc, reported))
  {
    var w' := Commit(w, a, pc, reported);
    var m := Committed(pc.sid, EventOf(pc.job), pc.phase.next, a);
    assert ResPc(w, a, pc);
    WhoCompletes(pc.job, pc.phase.seen, pc.phase.next);
    TablesLogged(w, w', m);
    forall b | b in w'.actors
      ensures ResPc(w', b, w'.actors[b])
    {
      if b == a {
        CommitterRes(w, a, pc, reported);
      } else {
        OtherAtCommit(w, a, pc, b);
        ResPcLogged(w, w', m, b, w.actors[b]);
      }
    }
  }

  lemma OtherAtCommit(w: World, a: ActorId, pc: Pc, b: ActorId)
    requires Closed(w.cfg) && OneCallPerEffect(w.cfg, w.log) && ResInv(w)
    requires a in w.actors && pc == w.actors[a] && b in w.actors && b != a
    ensures ResPc(w, b, w.actors[b])
    ensures Finishing(pc) && Executing(w.actors[b]) ==> w.actors[b].sid != pc.sid
  {
    assert ResPc(w, a, pc) && ResPc(w, b, w.actors[b]);
    if Finishing(pc) && Executing(w.actors[b]) {
      RunnersDiffer(w, a, pc.sid, b, w.actors[b].sid);
    }
  }

  lemma CommitterRes(w: World, a: ActorId, pc: Pc, reported: bool)
    requires ResPc(w, a, pc) && a in w.actors && pc == w.actors[a] && TxEnabled(w, TxCommit(reported), pc)
    ensures var w' := Commit(w, a, pc, reported); ResPc(w', a, w'.actors[a])
  {
    CompletionRemembered(w.log, Committed(pc.sid, EventOf(pc.job), pc.phase.next, a));
  }

  // ---------- all steps ----------

  lemma ResUnlocked(w: World, lock: map<SessionId, ActorId>)
    requires ResInv(w)
    ensures ResInv(w.(lock := lock))
  {
    forall b | b in w.actors
      ensures ResPc(w.(lock := lock), b, w.actors[b])
    {
      assert ResPc(w, b, w.actors[b]);
    }
  }

  lemma OutcomeInserted(w: World, w': World, f: FixId, row: FixRow, s: SessionId)
    requires f !in w.fix && row.exec == NotStarted && w'.fix == w.fix[f := row] && w'.log == w.log
    ensures GoodOutcome(w, s) ==> GoodOutcome(w', s)
    ensures Drained(w, s, []) ==> Drained(w', s, [])
  {
    if HasAction(w, s) {
      var g :| g in w.fix && w.fix[g].sid == s;
      assert g in w'.fix && w'.fix[g].sid == s;
    }
  }

  lemma ResPcInserted(w: World, w': World, f: FixId, row: FixRow, b: ActorId, pc: Pc)
    requires f !in w.fix && row.exec == NotStarted && w'.fix == w.fix[f := row] && w'.log == w.log
    ensures ResPc(w, b, pc) ==> ResPc(w', b, pc)
  {
    if pc.Tx? { OutcomeInserted(w, w', f, row, pc.sid); }
  }

  lemma ResInserted(w: World, f: FixId, row: FixRow)
    requires ResInv(w) && f !in w.fix && row.exec == NotStarted
    ensures ResInv(w.(fix := w.fix[f := row]))
  {
    var w' := w.(fix := w.fix[f := row]);
    forall s ensures GoodOutcome(w, s) ==> GoodOutcome(w', s) {
      OutcomeInserted(w, w', f, row, s);
    }
    forall b | b in w'.actors
      ensures ResPc(w', b, w'.actors[b])
    {
      assert ResPc(w, b, w.actors[b]);
      ResPcInserted(w, w', f, row, b, w.actors[b]);
    }
  }

  lemma ResCreated(w: World, s: SessionId)
    requires ResInv(w)
    ensures ResInv(w.(session := w.session[s := Created], hist := w.hist[s := []]))
  {
    var w' := w.(session := w.session[s := Created], hist := w.hist[s := []]);
    forall b | b in w'.actors
      ensures ResPc(w', b, w'.actors[b])
    {
      assert ResPc(w, b, w.actors[b]);
    }
  }

  lemma ResKept(w: World, st: Step)
    requires Closed(w.cfg) && LockInv(w) && EffectInv(w) && ExecInv(w) && ResInv(w) && Enabled(w, st)
    ensures ResInv(Apply(w, st))
  {
    if IsCommit(st) {
      ResCommitted(w, st.a, w.actors[st.a], st.tx.reported);
    } else if Patches(st) {
      ResDeltas(w, st);
      ResPatched(w, st.a, DeltaOf(w, st));
      ResUnlocked(Patched(w, st.a, DeltaOf(w, st)), LockOf(w, st));
    } else if st.InsertFix? {
      ResInserted(w, st.f, st.row);
    } else {
      ResCreated(w, st.s);
    }
  }
}
