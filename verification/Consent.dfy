/** A HIGH-risk action runs only after somebody approved it, whoever calls
  * ExecuteFixActions and whenever. */
module Consent {
  import opened Domain
  import opened Protocol
  import opened Execution

  /** An approve decision for f has been recorded. */
  ghost predicate ApprovedIn(log: seq<Mark>, f: FixId) {
    exists m | m in log :: m.Decided? && m.fix == f && m.approve
  }

  ghost predicate ConsentPc(w: World, pc: Pc) {
    && (InLoop(pc) ==> forall f | f in pc.todo :: f in w.fix && (w.fix[f].requiresApproval ==> ApprovedIn(w.log, f)))
    && (pc.DecideMark? && pc.approve ==> ApprovedIn(w.log, pc.fix))
  }

  ghost predicate ConsentRows(fix: map<FixId, FixRow>, log: seq<Mark>) {
    forall f | f in fix ::
      && (fix[f].requiresApproval <==> fix[f].risk == High)
      && (fix[f].approval == Approved ==> ApprovedIn(log, f))
  }

  ghost predicate RunsWithConsent(fix: map<FixId, FixRow>, log: seq<Mark>) {
    forall i | 0 <= i < |log| && log[i].Executed? ::
      log[i].fix in fix && (fix[log[i].fix].requiresApproval ==> ApprovedIn(log[..i], log[i].fix))
  }

  ghost predicate ConsentInv(w: World) {
    && ConsentRows(w.fix, w.log)
    && RunsWithConsent(w.fix, w.log)
    && (forall a | a in w.actors :: ConsentPc(w, w.actors[a]))
  }

  lemma ApprovalRemembered(log: seq<Mark>, m: Mark)
    ensures forall f :: ApprovedIn(log, f) ==> ApprovedIn(log + [m], f)
  {
    forall f | ApprovedIn(log, f) ensures ApprovedIn(log + [m], f) {
      var n :| n in log && n.Decided? && n.fix == f && n.approve;
      assert n in log + [m];
    }
  }

  lemma ConsentLogged(fix: map<FixId, FixRow>, fix': map<FixId, FixRow>, log: seq<Mark>, m: Mark)
    requires RunsWithConsent(fix, log) && SameRows(fix, fix')
    requires m.Executed? ==> m.fix in fix && (fix[m.fix].requiresApproval ==> ApprovedIn(log, m.fix))
    ensures RunsWithConsent(fix', log + [m])
  {
    var log' := log + [m];
    forall i | 0 <= i < |log'| && log'[i].Executed?
      ensures log'[i].fix in fix' && (fix'[log'[i].fix].requiresApproval ==> ApprovedIn(log'[..i], log'[i].fix))
    {
      if i < |log| {
        assert log'[..i] == log[..i] && log'[i] == log[i];
      } else {
        assert log'[..i] == log;
      }
    }
  }

  /** An UPDATE writes APPROVED only for an actor that has recorded the approval. */
  ghost predicate ApprovesWithConsent(w: World, d: Delta) {
    forall f | f in d.fix && d.fix[f].approval == Approved ::
      f in w.fix && (w.fix[f].approval == Approved || ApprovedIn(w.log, f))
  }

  lemma ConsentPatched(w: World, a: ActorId, d: Delta)
    requires ConsentInv(w) && SameRows(w.fix, d.fix) && RunsItsHead(w, a, d)
    requires ApprovesWithConsent(w, d) && ConsentPc(Patched(w, a, d), d.pc)
    ensures ConsentInv(Patched(w, a, d))
  {
    var w' := Patched(w, a, d);
    if d.mark.Some? {
      ApprovalRemembered(w.log, d.mark.value);
      if d.mark.value.Executed? { assert ConsentPc(w, w.actors[a]); }
      ConsentLogged(w.fix, d.fix, w.log, d.mark.value);
    }
    forall b | b in w.actors && b != a
      ensures ConsentPc(w', w.actors[b])
    {
      assert ConsentPc(w, w.actors[b]);
    }
  }

  lemma ConsentDeltas(w: World, st: Step)
    requires ConsentInv(w) && Enabled(w, st) && Patches(st)
    ensures var d := DeltaOf(w, st); ApprovesWithConsent(w, d) && ConsentPc(Patched(w, st.a, d), d.pc)
  {
    match st
    case InExec(a, exec) => ConsentOfExec(w, a, w.actors[a], exec);
    case InDecide(a, decide) => ConsentOfDecide(w, a, w.actors[a], decide);
    case _ => NoConsentNeeded(w, st);
  }

  lemma NoConsentNeeded(w: World, st: Step)
    requires Enabled(w, st) && Patches(st) && !st.InExec? && !st.InDecide?
    ensures var d := DeltaOf(w, st);
      && !InLoop(d.pc) && !d.pc.DecideMark?
      && forall f | f in d.fix && d.fix[f].approval == Approved :: f in w.fix && w.fix[f].approval == Approved
  {
    match st
    case InGate(_, gate) =>
    case _ =>
  }

  lemma ConsentOfExec(w: World, a: ActorId, pc: Pc, exec: ExecAct)
    requires ConsentRows(w.fix, w.log) && ConsentPc(w, pc) && ExecEnabled(w, exec, pc)
    ensures var d := ExecStep(w, a, exec, pc); ApprovesWithConsent(w, d) && ConsentPc(Patched(w, a, d), d.pc)
  {
    match exec
    case ExecList(cleared, todo) => ApprovalRemembered(w.log, Snapshot(pc.sid, cleared, a));
    case ExecDo(_) => if pc.todo != [] { ApprovalRemembered(w.log, Executed(pc.todo[0], a)); }
    case _ =>
  }

  lemma ConsentOfDecide(w: World, a: ActorId, pc: Pc, decide: DecideAct)
    requires ConsentPc(w, pc) && DecideEnabled(w, decide, pc)
    ensures var d := DecideStep(w, a, decide, pc); ApprovesWithConsent(w, d) && ConsentPc(Patched(w, a, d), d.pc)
  {
    match decide
    case DecideRow(took, reported) =>
      var m := Decided(pc.sid, w.approvals[pc.row].fix, pc.approve, a);
      assert m in w.log + [m];
    case DecideFix(_) =>
  }

  lemma ConsentCommitted(w: World, a: ActorId, pc: Pc, reported: bool)
    requires ConsentInv(w) && a in w.actors && pc == w.actors[a] && TxEnabled(w, TxCommit(reported), pc)
    ensures ConsentInv(Commit(w, a, pc, reported))
  {
    var w' := Commit(w, a, pc, reported);
    var m := w'.log[|w.log|];
    ApprovalRemembered(w.log, m);
    ConsentLogged(w.fix, w.fix, w.log, m);
    forall b | b in w'.actors
      ensures ConsentPc(w', w'.actors[b])
    {
      assert b != a ==> ConsentPc(w, w.actors[b]);
    }
  }

  lemma ConsentKept(w: World, st: Step)
    requires ConsentInv(w) && Enabled(w, st)
    requires Patches(st) ==> RunsItsHead(w, st.a, DeltaOf(w, st))
    ensures ConsentInv(Apply(w, st))
  {
    if IsCommit(st) {
      ConsentCommitted(w, st.a, w.actors[st.a], st.tx.reported);
    } else if Patches(st) {
      ConsentDeltas(w, st);
      RowsKept(w, st);
      ConsentPatched(w, st.a, DeltaOf(w, st));
      ConsentUnlocked(Patched(w, st.a, DeltaOf(w, st)), LockOf(w, st));
    } else if st.InsertFix? {
      ConsentInserted(w, st.f, st.row);
    }
  }

  lemma ConsentUnlocked(w: World, lock: map<SessionId, ActorId>)
    requires ConsentInv(w)
    ensures ConsentInv(w.(lock := lock))
  {
  }

  lemma ConsentInserted(w: World, f: FixId, row: FixRow)
    requires ConsentInv(w) && f !in w.fix && FreshFromAgent(row)
    ensures ConsentInv(w.(fix := w.fix[f := row]))
  {
  }
}
