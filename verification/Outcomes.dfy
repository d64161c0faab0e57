/** What the statuses that a run writes say about what has happened: where each kind of
  * transition leads, when the verdict is good, and that an action's status is what the
  * executor reported.
  */
module Outcomes {
  import opened Domain
  import opened Protocol
  import opened Locking
  import opened Execution
  import opened Safety

  // ---------- transitions ----------

  /** Where a commit for a job takes the session, and from where. */
  predicate Leads(job: Job, from: Status, to: Status) {
    match job
    case StartJob => from == Created && to == Collecting
    case CollectedJob => from == Collecting && to == Analyzing
    case AnalyzedJob => from == Analyzing && to == RcaDone
    case ProposeJob => from == RcaDone && to == FixProposed
    case RouteJob => from == FixProposed && (to == AwaitingApproval || to == FixSuggested)
    case SweepRouteJob => from == FixProposed && (to == AwaitingApproval || to == FixSuggested)
    case ExecuteJob => from == FixSuggested && to == FixExecuting
    case FinishJob => from == FixExecuting && to == Verifying
    case DecisionJob(_, true) => (from == AwaitingApproval || from == FixProposed) && to == FixExecuting
    case DecisionJob(_, false) => from == AwaitingApproval && to == Rejected
    case VerifyJob(true) => from == Verifying && to == Resolved
    case VerifyJob(false) => from == Verifying && to == RolledBack
    case SweepFailJob => from !in {Resolved, Rejected, RolledBack, Ignored, Failed} && to == Failed
    case IgnoreJob => from !in {Resolved, Rejected, RolledBack, Ignored, Failed} && to == Ignored
    case RetryJob => false
  }

  lemma TableLeads(job: Job, from: Status, to: Status)
    requires TableMove(from, EventOf(job), to)
    ensures Leads(job, from, to)
  {
  }

  lemma CommitLeads(w: World, a: ActorId, reported: bool)
    requires LockInv(w) && Enabled(w, InTx(a, TxCommit(reported)))
    ensures var pc, w' := w.actors[a], Apply(w, InTx(a, TxCommit(reported)));
      && pc.Tx? && pc.sid in w.session && pc.sid in w'.session
      && Leads(pc.job, w.session[pc.sid], w'.session[pc.sid])
  {
    var pc := w.actors[a];
    assert OwnsRow(w, a, pc);
    TableLeads(pc.job, pc.phase.seen, pc.phase.next);
  }

  /** Every commit of a run takes its session where the job says. */
  lemma WhereJobsLead(ws: seq<World>, steps: seq<Step>, i: nat)
    requires Run(ws, steps) && i < |steps| && IsCommit(steps[i])
    ensures steps[i].a in ws[i].actors && ws[i].actors[steps[i].a].Tx?
    ensures var pc := ws[i].actors[steps[i].a];
      && pc.sid in ws[i].session && pc.sid in ws[i + 1].session
      && Leads(pc.job, ws[i].session[pc.sid], ws[i + 1].session[pc.sid])
  {
    Reachable(ws, steps, i);
    CommitLeads(ws[i], steps[i].a, steps[i].tx.reported);
  }

  /** The sweep votes for success exactly when it read the actions, there are some, and none
    * is FAILED. */
  lemma WhenTheVerdictIsGood(ws: seq<World>, steps: seq<Step>, i: nat)
    requires Run(ws, steps) && i < |steps| && steps[i].VerifyList?
    ensures var a, s := steps[i].a, ws[i].actors[steps[i].a].sid;
      && a in ws[i + 1].actors && ws[i + 1].actors[a].Tx? && ws[i + 1].actors[a].sid == s
      && ws[i + 1].actors[a].job.VerifyJob?
      && (ws[i + 1].actors[a].job.success <==>
            && steps[i].ok && (exists f :: f in ws[i].fix && ws[i].fix[f].sid == s)
            && forall f | f in ws[i].fix && ws[i].fix[f].sid == s :: ws[i].fix[f].exec != FailedRun)
  {
  }

  // ---------- attempts ----------

  /** Nobody is in a fourth attempt. */
  ghost predicate AtMostThree(w: World) { forall a | a in w.actors && w.actors[a].Tx? :: w.actors[a].attempt < 3 }

  lemma TxAttempts(w: World, a: ActorId, tx: TxAct, pc: Pc)
    requires TxEnabled(w, tx, pc) && pc.attempt < 3
    ensures !tx.TxCommit? ==> var next := TxDelta(w, a, tx, pc).pc; next.Tx? ==> next.attempt < 3
    ensures AfterError(pc).Tx? ==> AfterError(pc).attempt < 3
    ensures forall s, job, to :: var next := AfterSuccess(s, job, to); next.Tx? ==> next.attempt == 0
  {
  }

  /** Any other Transition begins with its first attempt. */
  lemma FirstAttempts(w: World, st: Step)
    requires Enabled(w, st) && Patches(st) && !st.InTx?
    ensures DeltaOf(w, st).pc.Tx? ==> DeltaOf(w, st).pc.attempt == 0
  {
    match st
    case InGate(_, _) =>
    case InExec(_, _) =>
    case InDecide(_, _) =>
    case _ =>
  }

  lemma AttemptsKept(w: World, st: Step)
    requires AtMostThree(w) && Enabled(w, st)
    ensures AtMostThree(Apply(w, st))
  {
    if st.InTx? { TxAttempts(w, st.a, st.tx, w.actors[st.a]); } else if Patches(st) { FirstAttempts(w, st); }
  }

  lemma {:induction false} AttemptsAreThree(ws: seq<World>, steps: seq<Step>, n: nat)
    requires Run(ws, steps) && n < |ws|
    ensures AtMostThree(ws[n])
  {
    if n > 0 {
      AttemptsAreThree(ws, steps, n - 1);
      AttemptsKept(ws[n - 1], steps[n - 1]);
    }
  }

  /** A transient failure frees the row and is followed by another attempt, but for the third,
    * after which the caller gets the error; a commit that takes effect unreported too. */
  lemma FailuresAreRetried(ws: seq<World>, steps: seq<Step>, i: nat)
    requires Run(ws, steps) && i < |steps|
    requires steps[i].InTx? && (steps[i].tx == TxAbort || steps[i].tx == TxCommit(false))
    ensures var a := steps[i].a;
      var pc := ws[i].actors[a];
      && a in ws[i + 1].actors && (Holds(pc) ==> pc.sid !in ws[i + 1].lock)
      && ws[i + 1].actors[a] ==
           if pc.attempt == 0 then Tx(pc.sid, pc.job, 1, Begin)
           else if pc.attempt == 1 then Tx(pc.sid, pc.job, 2, Begin)
           else Gone
  {
    AttemptsAreThree(ws, steps, i);
  }

  // ---------- what the executor said ----------

  /** Before moment n the executor was handed f and answered ok. */
  ghost predicate Answered(ws: seq<World>, steps: seq<Step>, n: nat, f: FixId, ok: bool)
    requires |ws| == |steps| + 1
  {
    exists j: nat :: AnsweredAt(ws, steps, n, j, f, ok)
  }

  ghost predicate AnsweredAt(ws: seq<World>, steps: seq<Step>, n: nat, j: nat, f: FixId, ok: bool)
    requires |ws| == |steps| + 1
  {
    && j < n && j < |steps| && steps[j].InExec? && steps[j].exec == ExecDo(ok)
    && Hands(ws[j], steps[j].a, f)
  }

  /** Actor a is about to hand f to the executor. */
  ghost predicate Hands(w: World, a: ActorId, f: FixId) {
    a in w.actors && w.actors[a].ExecRun? && w.actors[a].todo != [] && w.actors[a].todo[0] == f
  }

  /** A column in the table, or in an actor's hands, is what the executor answered. */
  ghost predicate Reported(ws: seq<World>, steps: seq<Step>, n: nat)
    requires |ws| == |steps| + 1 && n < |ws|
  {
    && (forall f | f in ws[n].fix ::
          && (ws[n].fix[f].exec == Succeeded ==> Answered(ws, steps, n, f, true))
          && (ws[n].fix[f].exec == FailedRun ==> Answered(ws, steps, n, f, false)))
    && (forall a | a in ws[n].actors && ws[n].actors[a].ExecSettle? && ws[n].actors[a].todo != [] ::
          Answered(ws, steps, n, ws[n].actors[a].todo[0], ws[n].actors[a].ok))
  }

  /** A step writes SUCCEEDED or FAILED only as the actor's answer says. */
  lemma ColumnsChange(w: World, st: Step, f: FixId)
    requires Enabled(w, st) && f in Apply(w, st).fix
    ensures var e := Apply(w, st).fix[f].exec;
      || e == NotStarted || e == Running
      || (f in w.fix && e == w.fix[f].exec)
      || (&& st.InExec? && st.a in w.actors && w.actors[st.a].ExecSettle? && w.actors[st.a].todo != []
          && w.actors[st.a].todo[0] == f && e == if w.actors[st.a].ok then Succeeded else FailedRun)
  {
    match st
    case InGate(_, _) =>
    case InExec(_, exec) =>
      match exec {
        case ExecEnd(_) =>
        case ExecBegin(_) =>
        case _ =>
      }
    case InDecide(_, _) =>
    case InTx(_, _) =>
    case _ =>
  }

  lemma AskedInLoop(w: World, a: ActorId, exec: ExecAct, pc: Pc)
    requires ExecEnabled(w, exec, pc)
    ensures var d := ExecStep(w, a, exec, pc);
      d.pc.ExecSettle? ==> exec == ExecDo(d.pc.ok) && pc.ExecRun? && pc.todo == d.pc.todo
  {
    match exec
    case ExecDo(_) =>
    case _ =>
  }

  /** An actor comes to have an answer only by asking the executor. */
  lemma AnswersArise(w: World, st: Step, b: ActorId)
    requires Enabled(w, st) && b in Apply(w, st).actors && Apply(w, st).actors[b].ExecSettle?
    ensures var pc := Apply(w, st).actors[b];
      || (b in w.actors && w.actors[b] == pc)
      || (st == InExec(b, ExecDo(pc.ok)) && b in w.actors && w.actors[b].ExecRun? && w.actors[b].todo == pc.todo)
  {
    if Patches(st) {
      if st.InExec? { AskedInLoop(w, st.a, st.exec, w.actors[st.a]); } else { NotExecuting(w, st); }
    }
  }

  lemma AnsweredLater(ws: seq<World>, steps: seq<Step>, n: nat, f: FixId, ok: bool)
    requires |ws| == |steps| + 1 && Answered(ws, steps, n, f, ok)
    ensures Answered(ws, steps, n + 1, f, ok)
  {
    var j: nat :| AnsweredAt(ws, steps, n, j, f, ok);
    assert AnsweredAt(ws, steps, n + 1, j, f, ok);
  }

  lemma ReportedKept(ws: seq<World>, steps: seq<Step>, n: nat)
    requires Run(ws, steps) && n < |steps| && Reported(ws, steps, n)
    ensures Reported(ws, steps, n + 1)
  {
    var w, w', st := ws[n], ws[n + 1], steps[n];
    forall f | f in w'.fix
      ensures w'.fix[f].exec == Succeeded ==> Answered(ws, steps, n + 1, f, true)
      ensures w'.fix[f].exec == FailedRun ==> Answered(ws, steps, n + 1, f, false)
    {
      ColumnsChange(w, st, f);
      if Answered(ws, steps, n, f, true) { AnsweredLater(ws, steps, n, f, true); }
      if Answered(ws, steps, n, f, false) { AnsweredLater(ws, steps, n, f, false); }
    }
    forall b | b in w'.actors && w'.actors[b].ExecSettle? && w'.actors[b].todo != []
      ensures Answered(ws, steps, n + 1, w'.actors[b].todo[0], w'.actors[b].ok)
    {
      var pc := w'.actors[b];
      AnswersArise(w, st, b);
      if b in w.actors && w.actors[b] == pc {
        AnsweredLater(ws, steps, n, pc.todo[0], pc.ok);
      } else {
        assert AnsweredAt(ws, steps, n + 1, n, pc.todo[0], pc.ok);
      }
    }
  }

  /** An action is SUCCEEDED or FAILED only if the executor was handed it before and said so. */
  lemma {:induction false} StatusesAreReported(ws: seq<World>, steps: seq<Step>, n: nat)
    requires Run(ws, steps) && n < |ws|
    ensures Reported(ws, steps, n)
  {
    if n > 0 {
      StatusesAreReported(ws, steps, n - 1);
      ReportedKept(ws, steps, n - 1);
    }
  }
}
