/** What reaches Executor.Execute: every action at most once in the closed system,
  * and a HIGH-risk action only after a recorded approval, even if anybody may call
  * ExecuteFixActions at any time.
  */
module Execution {
  import opened Domain
  import opened Protocol
  import opened Effects

  // ---------- rows only ever change their two status columns ----------

  ghost predicate SameRows(r: map<FixId, FixRow>, r': map<FixId, FixRow>) {
    && r.Keys == r'.Keys
    && forall f | f in r :: r'[f] == r[f].(approval := r'[f].approval, exec := r'[f].exec)
  }

  lemma RowsKeptAtGate(w: World, a: ActorId, gate: GateAct, pc: Pc)
    requires GateEnabled(w, gate, pc)
    ensures SameRows(w.fix, GateStep(w, a, gate, pc).fix)
  {
    match gate
    case GatePending(_) =>
    case _ =>
  }

  lemma RowsKeptByExec(w: World, a: ActorId, exec: ExecAct, pc: Pc)
    requires ExecEnabled(w, exec, pc)
    ensures SameRows(w.fix, ExecStep(w, a, exec, pc).fix)
  {
    match exec
    case ExecBegin(_) =>
    case ExecEnd(_) =>
    case _ =>
  }

  lemma RowsKeptByDecision(w: World, a: ActorId, decide: DecideAct, pc: Pc)
    requires DecideEnabled(w, decide, pc)
    ensures SameRows(w.fix, DecideStep(w, a, decide, pc).fix)
  {
    match decide
    case DecideFix(_) =>
    case _ =>
  }

  lemma RowsKept(w: World, st: Step)
    requires Enabled(w, st) && Patches(st)
    ensures SameRows(w.fix, DeltaOf(w, st).fix)
  {
    match st
    case InGate(a, gate) => RowsKeptAtGate(w, a, gate, w.actors[a]);
    case InExec(a, exec) => RowsKeptByExec(w, a, exec, w.actors[a]);
    case InDecide(a, decide) => RowsKeptByDecision(w, a, decide, w.actors[a]);
    case _ => OtherRowsKept(w, st);
  }

  /** Every other step leaves the fix_actions table as it is. */
  lemma OtherRowsKept(w: World, st: Step)
    requires Enabled(w, st) && Patches(st) && !st.InGate? && !st.InExec? && !st.InDecide?
    ensures DeltaOf(w, st).fix == w.fix
  {
  }

  // ---------- at most once ----------

  predicate InLoop(pc: Pc) { pc.ExecLoop? || pc.ExecRun? || pc.ExecSettle? }

  /** The actions the loop has not handed to Execute yet. */
  function Remaining(pc: Pc): seq<FixId> {
    if pc.ExecLoop? || pc.ExecRun? then pc.todo
    else if pc.ExecSettle? && pc.todo != [] then pc.todo[1..]
    else []
  }

  ghost predicate OneRunPerAction(log: seq<Mark>) {
    forall i, j | 0 <= i < j < |log| && log[i].Executed? && log[j].Executed? :: log[i].fix != log[j].fix
  }

  ghost predicate NeverRun(log: seq<Mark>, f: FixId) {
    forall m | m in log && m.Executed? :: m.fix != f
  }

  ghost predicate ExecPc(w: World, a: ActorId, pc: Pc) {
    && (pc.ExecRead? || InLoop(pc) ==> Invoked(pc.sid, ExecuteFx, a) in w.log)
    && (InLoop(pc) ==>
          && Distinct(pc.todo) && (!pc.ExecLoop? ==> pc.todo != [])
          && forall f | f in pc.todo :: f in w.fix && w.fix[f].sid == pc.sid)
    && (!w.cfg.strayExecute ==>
          && (pc.ExecRead? ==> forall f | f in w.fix && w.fix[f].sid == pc.sid :: NeverRun(w.log, f))
          && (forall f | f in Remaining(pc) :: NeverRun(w.log, f)))
  }

  ghost predicate ExecInv(w: World) {
    && (forall m | m in w.log && m.Executed? ::
          m.fix in w.fix && Invoked(w.fix[m.fix].sid, ExecuteFx, m.who) in w.log)
    && (!w.cfg.strayExecute ==> OneRunPerAction(w.log))
    && (forall a | a in w.actors :: ExecPc(w, a, w.actors[a]))
  }

  /** Only the head of a running loop is ever executed. */
  ghost predicate RunsItsHead(w: World, a: ActorId, d: Delta) {
    d.mark.Some? && d.mark.value.Executed? ==>
      && a in w.actors && w.actors[a].ExecRun? && w.actors[a].todo != []
      && d.mark.value == Executed(w.actors[a].todo[0], a)
  }

  lemma OthersFramed(w: World, a: ActorId, d: Delta, b: ActorId, pc: Pc)
    requires SameRows(w.fix, d.fix) && ExecPc(w, b, pc)
    requires d.mark.Some? && d.mark.value.Executed? && !w.cfg.strayExecute ==>
      d.mark.value.fix in w.fix && (pc.ExecRead? || InLoop(pc) ==> w.fix[d.mark.value.fix].sid != pc.sid)
    ensures ExecPc(Patched(w, a, d), b, pc)
  {
  }

  /** Nobody else runs the actions an executing actor still has to run. */
  lemma OthersStayFresh(w: World, a: ActorId, d: Delta, b: ActorId)
    requires EffectInv(w) && ExecInv(w) && SameRows(w.fix, d.fix) && RunsItsHead(w, a, d)
    requires b in w.actors && b != a
    ensures ExecPc(Patched(w, a, d), b, w.actors[b])
  {
    var pc := w.actors[b];
    assert ExecPc(w, b, pc);
    if !w.cfg.strayExecute && d.mark.Some? && d.mark.value.Executed? {
      assert ExecPc(w, a, w.actors[a]);
      var s := w.actors[a].sid;
      assert w.fix[d.mark.value.fix].sid == s;
      if (pc.ExecRead? || InLoop(pc)) && s == pc.sid {
        SameCaller(w.cfg, w.log, Invoked(s, ExecuteFx, a), Invoked(s, ExecuteFx, b));
      }
    }
    OthersFramed(w, a, d, b, pc);
  }

  lemma RunsStayUnique(w: World, a: ActorId, d: Delta)
    requires ExecInv(w) && SameRows(w.fix, d.fix) && RunsItsHead(w, a, d)
    ensures !w.cfg.strayExecute ==> OneRunPerAction(Logged(w.log, d.mark))
    ensures forall m | m in Logged(w.log, d.mark) && m.Executed? ::
      m.fix in d.fix && Invoked(d.fix[m.fix].sid, ExecuteFx, m.who) in w.log
  {
    if d.mark.Some? && d.mark.value.Executed? {
      assert ExecPc(w, a, w.actors[a]);
      assert d.mark.value.fix in Remaining(w.actors[a]);
      assert !w.cfg.strayExecute ==> NeverRun(w.log, d.mark.value.fix);
    }
  }

  lemma ExecPatched(w: World, a: ActorId, d: Delta)
    requires EffectInv(w) && ExecInv(w) && SameRows(w.fix, d.fix) && RunsItsHead(w, a, d)
    requires ExecPc(Patched(w, a, d), a, d.pc)
    ensures ExecInv(Patched(w, a, d))
  {
    RunsStayUnique(w, a, d);
    forall b | b in w.actors && b != a
      ensures ExecPc(Patched(w, a, d), b, w.actors[b])
    {
      OthersStayFresh(w, a, d, b);
    }
  }

  /** A call of the executor is entitled, so it is the first. */
  lemma CallerIsFirst(w: World, a: ActorId, pc: Pc)
    requires EffectInv(w) && a in w.actors && pc == w.actors[a] && pc.ExecCall? && !w.cfg.strayExecute
    ensures NotInvoked(w.log, pc.sid, ExecuteFx)
  {
    assert Entitled(w, a, pc);
  }

  lemma ExecPcOpened(w: World, a: ActorId, pc: Pc)
    requires EffectInv(w) && ExecInv(w) && a in w.actors && pc == w.actors[a] && pc.ExecCall?
    ensures ExecPc(Patched(w, a, ExecStep(w, a, ExecOpen, pc)), a, ExecRead(pc.sid))
  {
    if !w.cfg.strayExecute {
      CallerIsFirst(w, a, pc);
      forall f | f in w.fix && w.fix[f].sid == pc.sid
        ensures NeverRun(w.log, f)
      {
      }
    }
    OpenedReads(w, a, pc);
  }

  lemma OpenedReads(w: World, a: ActorId, pc: Pc)
    requires a in w.actors && pc == w.actors[a] && pc.ExecCall?
    requires !w.cfg.strayExecute ==> forall f | f in w.fix && w.fix[f].sid == pc.sid :: NeverRun(w.log, f)
    ensures ExecPc(Patched(w, a, ExecStep(w, a, ExecOpen, pc)), a, ExecRead(pc.sid))
  {
    var log := w.log + [Invoked(pc.sid, ExecuteFx, a)];
    assert Invoked(pc.sid, ExecuteFx, a) in log;
  }

  lemma ExecPcListed(w: World, a: ActorId, pc: Pc, exec: ExecAct)
    requires ExecPc(w, a, pc) && exec.ExecList? && ExecEnabled(w, exec, pc)
    ensures var d := ExecStep(w, a, exec, pc); ExecPc(Patched(w, a, d), a, d.pc)
  {
  }

  lemma ExecPcDone(w: World, a: ActorId, pc: Pc, ok: bool)
    requires ExecPc(w, a, pc) && pc.ExecRun?
    ensures var d := ExecStep(w, a, ExecDo(ok), pc); ExecPc(Patched(w, a, d), a, d.pc)
  {
    var log := w.log + [Executed(pc.todo[0], a)];
    forall f | f in pc.todo[1..] && !w.cfg.strayExecute
      ensures NeverRun(log, f)
    {
      assert f in Remaining(pc) && f != pc.todo[0];
      assert NeverRun(w.log, f);
    }
  }

  lemma ExecPcLooped(w: World, a: ActorId, pc: Pc, exec: ExecAct)
    requires ExecPc(w, a, pc) && ExecEnabled(w, exec, pc)
    requires exec.ExecBegin? || exec.ExecEnd? || exec.ExecFinish?
    ensures var d := ExecStep(w, a, exec, pc); ExecPc(Patched(w, a, d), a, d.pc)
  {
    match exec
    case ExecBegin(_) =>
    case ExecEnd(_) =>
    case ExecFinish =>
  }

  lemma ExecDeltas(w: World, st: Step)
    requires EffectInv(w) && ExecInv(w) && Enabled(w, st) && Patches(st)
    ensures var d := DeltaOf(w, st); RunsItsHead(w, st.a, d) && ExecPc(Patched(w, st.a, d), st.a, d.pc)
  {
    if st.InExec? {
      var pc := w.actors[st.a];
      assert ExecPc(w, st.a, pc);
      match st.exec
      case ExecOpen => ExecPcOpened(w, st.a, pc);
      case ExecList(_, _) => ExecPcListed(w, st.a, pc, st.exec);
      case ExecDo(ok) => ExecPcDone(w, st.a, pc, ok);
      case _ => ExecPcLooped(w, st.a, pc, st.exec);
    } else {
      NotExecuting(w, st);
    }
  }

  lemma NotExecuting(w: World, st: Step)
    requires Enabled(w, st) && Patches(st) && !st.InExec?
    ensures var d := DeltaOf(w, st);
      !d.pc.ExecRead? && !InLoop(d.pc) && (d.mark.Some? ==> !d.mark.value.Executed?)
  {
    match st
    case InGate(_, _) =>
    case InDecide(_, _) =>
    case InTx(_, _) =>
    case _ =>
  }

  lemma ExecCommitted(w: World, a: ActorId, pc: Pc, reported: bool)
    requires ExecInv(w) && a in w.actors && pc == w.actors[a] && TxEnabled(w, TxCommit(reported), pc)
    ensures ExecInv(Commit(w, a, pc, reported))
  {
    var w' := Commit(w, a, pc, reported);
    forall b | b in w'.actors
      ensures ExecPc(w', b, w'.actors[b])
    {
      assert b != a ==> ExecPc(w, b, w.actors[b]);
    }
  }

  lemma ExecKept(w: World, st: Step)
    requires EffectInv(w) && ExecInv(w) && Enabled(w, st)
    ensures ExecInv(Apply(w, st))
  {
    if IsCommit(st) {
      ExecCommitted(w, st.a, w.actors[st.a], st.tx.reported);
    } else if Patches(st) {
      ExecDeltas(w, st);
      RowsKept(w, st);
      ExecPatched(w, st.a, DeltaOf(w, st));
      ExecUnlocked(Patched(w, st.a, DeltaOf(w, st)), LockOf(w, st));
    } else if st.InsertFix? {
      ExecInserted(w, st.f, st.row);
    }
  }

  lemma ExecInserted(w: World, f: FixId, row: FixRow)
    requires ExecInv(w) && f !in w.fix
    ensures ExecInv(w.(fix := w.fix[f := row]))
  {
    var w' := w.(fix := w.fix[f := row]);
    assert forall m | m in w.log && m.Executed? :: m.fix in w.fix;
    forall b | b in w'.actors
      ensures ExecPc(w', b, w'.actors[b])
    {
      assert ExecPc(w, b, w.actors[b]);
    }
  }

  lemma ExecUnlocked(w: World, lock: map<SessionId, ActorId>)
    requires ExecInv(w)
    ensures ExecInv(w.(lock := lock))
  {
    forall b | b in w.actors
      ensures ExecPc(w.(lock := lock), b, w.actors[b])
    {
      assert ExecPc(w, b, w.actors[b]);
    }
  }
}
