/** The orchestrator as one concurrent step system over the shared tables.
  *
  * Every handler invocation, event-loop delivery and sweep item is an actor with
  * its own program counter; any number of them interleave, in any number of
  * processes. Postgres contributes the row locks, the atomicity of single
  * statements, commits that may take effect yet report failure, and writes that
  * may fail. An actor may die between any two steps.
  */
module Protocol {
  import opened Domain
  import opened Lifecycle

  type ActorId = nat

  /** strayExecute lets anybody call ExecuteFixActions at any time;
    * writesLand says that no UPDATE outside Transition that a handler goes on after is lost,
    * be it that the UPDATE fails or that a SELECT it depends on does. */
  datatype Config = Config(strayExecute: bool, writesLand: bool)

  // ---------- what an actor wants from Transition ----------

  datatype Job =
    | StartJob                              // StartSession
    | CollectedJob                          // evidence while COLLECTING
    | AnalyzedJob                           // RCA_RESULT while ANALYZING
    | ProposeJob                            // FIX_ACTION while RCA_DONE, first step
    | RouteJob                              // ... second step
    | ExecuteJob                            // ... third step without HIGH risk
    | FinishJob                             // end of ExecuteFixActions
    | DecisionJob(fix: FixId, approve: bool) // DecisionApproval
    | VerifyJob(success: bool)              // SweepVerifying
    | SweepRouteJob                         // SweepFixProposed
    | SweepFailJob                          // Sweep
    | IgnoreJob                             // IgnoreSession
    | RetryJob                              // RetrySession

  function EventOf(job: Job): Event {
    match job
    case StartJob => StartCollect
    case CollectedJob => CollectComplete
    case AnalyzedJob => AnalysisComplete
    case ProposeJob => RcaGenerated
    case RouteJob => FixGenerated
    case ExecuteJob => Execute
    case FinishJob => ExecuteComplete
    case DecisionJob(_, approve) => if approve then Approve else Reject
    case VerifyJob(success) => if success then VerifySuccess else VerifyFailure
    case SweepRouteJob => FixGenerated
    case SweepFailJob => Fail
    case IgnoreJob => Ignore
    case RetryJob => Retry
  }

  // ---------- program counters ----------

  /** Where one attempt of tryTransition stands. */
  datatype Phase =
    | Begin
    | Holding(seen: Status)                 // row locked, status read
    | Chosen(seen: Status, next: Status)    // table consulted
    | Written(seen: Status, next: Status)   // UPDATE done, not yet committed

  datatype Pc =
    | Gone                                                      // returned or crashed
    | Tx(sid: SessionId, job: Job, attempt: nat, phase: Phase)  // inside Transition
    | Observing(sid: SessionId, kind: EvidenceType)             // handleObservation, before GetStatus
    | CollectCall(sid: SessionId)                               // about to DispatchCollect
    | AnalyzeCall(sid: SessionId)                               // about to DispatchAnalyze
    | GateCall(sid: SessionId)                                  // about to call TriggerApprovalGate
    | GateRead(sid: SessionId)
    | GateLoop(sid: SessionId, todo: seq<FixId>)
    | GateMark(sid: SessionId, todo: seq<FixId>)                // approvals row written for todo[0]
    | ExecCall(sid: SessionId)                                  // about to call ExecuteFixActions
    | ExecRead(sid: SessionId)
    | ExecLoop(sid: SessionId, todo: seq<FixId>)
    | ExecRun(sid: SessionId, todo: seq<FixId>)                 // todo[0] marked RUNNING
    | ExecSettle(sid: SessionId, todo: seq<FixId>, ok: bool)    // Execute returned for todo[0]
    | DecideWrite(sid: SessionId, row: ApprovalId, approve: bool)
    | DecideMark(sid: SessionId, fix: FixId, approve: bool)
    | VerifyRead(sid: SessionId)                                // SweepVerifying, before reading actions

  // ---------- the record of what happened ----------

  datatype Effect = CollectFx | AnalyzeFx | GateFx | ExecuteFx

  datatype Mark =
    | Committed(sid: SessionId, event: Event, to: Status, who: ActorId)
    | Routed(sid: SessionId, pendingHigh: bool, who: ActorId)
    | Invoked(sid: SessionId, fx: Effect, who: ActorId)
    | Snapshot(sid: SessionId, cleared: seq<FixId>, who: ActorId)
    | Executed(fix: FixId, who: ActorId)
    | Decided(sid: SessionId, fix: FixId, approve: bool, who: ActorId)

  datatype World = World(
    cfg: Config,
    session: map<SessionId, Status>,
    hist: map<SessionId, seq<Move>>,
    lock: map<SessionId, ActorId>,
    fix: map<FixId, FixRow>,
    approvals: map<ApprovalId, ApprovalRow>,
    actors: map<ActorId, Pc>,
    log: seq<Mark>)

  function Initial(cfg: Config): World {
    World(cfg, map[], map[], map[], map[], map[], map[], [])
  }

  // ---------- reading the tables ----------

  ghost predicate HighPending(w: World, s: SessionId) { PendingHigh(w.fix, s) }

  ghost predicate HasAction(w: World, s: SessionId) {
    exists f | f in w.fix :: w.fix[f].sid == s
  }

  ghost predicate NoneFailed(w: World, s: SessionId) {
    forall f | f in w.fix && w.fix[f].sid == s :: w.fix[f].exec != FailedRun
  }

  // ---------- steps ----------

  /** Inside Transition. */
  datatype TxAct =
    | TxLock
    | TxSkip                                        // no row returned
    | TxReject                                      // the table has no entry
    | TxChoose
    | TxWrite
    | TxCommit(reported: bool)                      // takes effect; may report failure
    | TxAbort                                       // any transient error

  /** Inside TriggerApprovalGate. */
  datatype GateAct =
    | GateOpen
    | GateList(todo: seq<FixId>)
    | GateSkip                                      // RequestApproval or the INSERT failed
    | GateInsert(x: ApprovalId, reported: bool)
    | GatePending(took: bool)

  /** Inside ExecuteFixActions. */
  datatype ExecAct =
    | ExecOpen
    | ExecList(cleared: seq<FixId>, todo: seq<FixId>)
    | ExecBegin(took: bool)
    | ExecDo(ok: bool)                              // Executor.Execute
    | ExecEnd(took: bool)
    | ExecFinish

  /** Inside DecisionApproval. took of DecideFix is false if the SELECT of the action fails,
    * which skips its UPDATE, as well as if the UPDATE fails; no error of either is looked at. */
  datatype DecideAct =
    | DecideRow(took: bool, reported: bool)
    | DecideFix(took: bool)

  /** A step label carries every choice the environment makes. */
  datatype Step =
    | CreateSession(s: SessionId)
    | InsertFix(f: FixId, row: FixRow)              // one INSERT of the fix agent
    | Call(a: ActorId, pc: Pc)                      // a handler, delivery or sweep item starts
    | InTx(a: ActorId, tx: TxAct)
    | InGate(a: ActorId, gate: GateAct)
    | InExec(a: ActorId, exec: ExecAct)
    | InDecide(a: ActorId, decide: DecideAct)
    | ReadStatus(a: ActorId)                        // GetStatus of handleObservation
    | Dispatch(a: ActorId)                          // DispatchCollect / DispatchAnalyze
    | VerifyList(a: ActorId, ok: bool)              // SweepVerifying reads the actions
    | Die(a: ActorId)                               // early error return, or crash

  predicate Holds(pc: Pc) { pc.Tx? && !pc.phase.Begin? }

  /** Where a call may start. Sweep items need the status their SELECT looked for. */
  predicate Opens(w: World, pc: Pc) {
    match pc
    case Tx(s, job, attempt, phase) =>
      && attempt == 0 && phase == Begin
      && match job {
           case StartJob | IgnoreJob | RetryJob => true
           case SweepFailJob => s in w.session && w.session[s] == Collecting
           case SweepRouteJob => s in w.session && w.session[s] == FixProposed
           case _ => false
         }
    case Observing(s, kind) => true
    case DecideWrite(s, x, _) => x in w.approvals && w.approvals[x].sid == s
    case VerifyRead(s) => s in w.session && w.session[s] == Verifying
    case ExecCall(s) => w.cfg.strayExecute
    case _ => false
  }

  ghost predicate Enabled(w: World, st: Step) {
    match st
    case CreateSession(s) => s !in w.session
    case InsertFix(f, row) =>
      f !in w.fix && row.sid in w.session && FreshFromAgent(row) && SeqFree(w.fix, row)
    case Call(a, pc) => a !in w.actors && Opens(w, pc)
    case InTx(a, tx) => a in w.actors && TxEnabled(w, tx, w.actors[a])
    case InGate(a, gate) => a in w.actors && GateEnabled(w, gate, w.actors[a])
    case InExec(a, exec) => a in w.actors && ExecEnabled(w, exec, w.actors[a])
    case InDecide(a, decide) => a in w.actors && DecideEnabled(w, decide, w.actors[a])
    case ReadStatus(a) => a in w.actors && w.actors[a].Observing? && w.actors[a].sid in w.session
    case Dispatch(a) => a in w.actors && (w.actors[a].CollectCall? || w.actors[a].AnalyzeCall?)
    case VerifyList(a, _) => a in w.actors && w.actors[a].VerifyRead?
    case Die(a) => a in w.actors
  }

  predicate TxEnabled(w: World, tx: TxAct, pc: Pc) {
    pc.Tx? &&
    match tx
    case TxLock => pc.phase.Begin? && pc.sid in w.session && pc.sid !in w.lock
    // the row is missing, or locked by another transaction or by the sweep's SELECT
    case TxSkip => pc.phase.Begin?
    case TxReject => pc.phase.Holding? && Lookup(pc.phase.seen, EventOf(pc.job)) == None
    case TxChoose => pc.phase.Holding? && Lookup(pc.phase.seen, EventOf(pc.job)) != None
    case TxWrite => pc.phase.Chosen?
    case TxCommit(_) => pc.phase.Written?
    case TxAbort => true
  }

  ghost predicate GateEnabled(w: World, gate: GateAct, pc: Pc) {
    match gate
    case GateOpen => pc.GateCall?
    case GateList(todo) => pc.GateRead? && Lists(w.fix, pc.sid, todo, NeedsGate)
    case GateSkip => pc.GateLoop? && pc.todo != []
    case GateInsert(x, _) => pc.GateLoop? && pc.todo != [] && x !in w.approvals && pc.todo[0] in w.fix
    case GatePending(took) =>
      pc.GateMark? && pc.todo != [] && pc.todo[0] in w.fix && (w.cfg.writesLand ==> took)
  }

  ghost predicate ExecEnabled(w: World, exec: ExecAct, pc: Pc) {
    match exec
    case ExecOpen => pc.ExecCall?
    case ExecList(cleared, todo) =>
      pc.ExecRead? && Lists(w.fix, pc.sid, cleared, Cleared) && Lists(w.fix, pc.sid, todo, Runnable)
    case ExecBegin(took) =>
      pc.ExecLoop? && pc.todo != [] && pc.todo[0] in w.fix && (w.cfg.writesLand ==> took)
    case ExecDo(_) => pc.ExecRun? && pc.todo != []
    case ExecEnd(took) =>
      pc.ExecSettle? && pc.todo != [] && pc.todo[0] in w.fix && (w.cfg.writesLand ==> took)
    case ExecFinish => pc.ExecLoop? && pc.todo == []
  }

  predicate DecideEnabled(w: World, decide: DecideAct, pc: Pc) {
    match decide
    case DecideRow(took, reported) => pc.DecideWrite? && pc.row in w.approvals && (reported ==> took)
    case DecideFix(took) => pc.DecideMark? && pc.fix in w.fix && (w.cfg.writesLand ==> took)
  }

  // ---------- effects ----------

  /** What one statement outside a session-row transaction changes, besides the
    * program counter of the actor that ran it. */
  datatype Delta = Delta(
    pc: Pc, mark: Option<Mark>, fix: map<FixId, FixRow>, approvals: map<ApprovalId, ApprovalRow>)

  function Goto(w: World, pc: Pc): Delta { Delta(pc, None, w.fix, w.approvals) }

  function Note(w: World, pc: Pc, m: Mark): Delta { Delta(pc, Some(m), w.fix, w.approvals) }

  function SetExec(w: World, pc: Pc, f: FixId, took: bool, e: ExecStatus): Delta
    requires f in w.fix
  {
    Delta(pc, None, if took then w.fix[f := w.fix[f].(exec := e)] else w.fix, w.approvals)
  }

  function SetApproval(w: World, pc: Pc, f: FixId, took: bool, v: ApprovalStatus): Delta
    requires f in w.fix
  {
    Delta(pc, None, if took then w.fix[f := w.fix[f].(approval := v)] else w.fix, w.approvals)
  }

  function Logged(log: seq<Mark>, mark: Option<Mark>): seq<Mark> {
    match mark
    case None => log
    case Some(m) => log + [m]
  }

  function Patched(w: World, a: ActorId, d: Delta): World {
    w.(actors := w.actors[a := d.pc], log := Logged(w.log, d.mark), fix := d.fix, approvals := d.approvals)
  }

  /** Rollback or commit ends the transaction and frees the row. */
  function Freed(w: World, pc: Pc): map<SessionId, ActorId> {
    if Holds(pc) then w.lock - {pc.sid} else w.lock
  }

  function Verdict(approve: bool): ApprovalStatus { if approve then Approved else Refused }

  /** What the caller does once Transition has returned the new status. */
  function AfterSuccess(s: SessionId, job: Job, next: Status): Pc {
    match job
    case StartJob => CollectCall(s)
    case CollectedJob => if next == Analyzing then AnalyzeCall(s) else Gone
    case ProposeJob => Tx(s, RouteJob, 0, Begin)
    case RouteJob =>
      if next == AwaitingApproval then GateCall(s)
      else if next == FixSuggested then Tx(s, ExecuteJob, 0, Begin)
      else Gone
    case ExecuteJob => ExecCall(s)
    case _ => Gone
  }

  /** A transient error: three attempts, then the error is returned. */
  function AfterError(pc: Pc): Pc
    requires pc.Tx?
  {
    if pc.attempt < 2 then Tx(pc.sid, pc.job, pc.attempt + 1, Begin) else Gone
  }

  /** handleObservation's dispatch on the stored status and the evidence type. */
  function OnObservation(s: SessionId, status: Status, kind: EvidenceType): Pc {
    match status
    case Collecting =>
      if kind in {LogEvidence, MetricEvidence, TraceEvidence} then Tx(s, CollectedJob, 0, Begin) else Gone
    case Analyzing => if kind == RcaResult then Tx(s, AnalyzedJob, 0, Begin) else Gone
    case RcaDone => if kind == FixAction then Tx(s, ProposeJob, 0, Begin) else Gone
    case _ => Gone
  }

  /** The inside of tryTransition up to the commit: the row lock ... */
  function LockAfter(w: World, a: ActorId, tx: TxAct, pc: Pc): map<SessionId, ActorId>
    requires TxEnabled(w, tx, pc)
  {
    match tx
    case TxLock => w.lock[pc.sid := a]
    case TxReject => Freed(w, pc)
    case TxAbort => Freed(w, pc)
    case _ => w.lock
  }

  /** ... and everything else. */
  ghost function TxDelta(w: World, a: ActorId, tx: TxAct, pc: Pc): Delta
    requires TxEnabled(w, tx, pc) && !tx.TxCommit?
  {
    match tx
    case TxLock => Goto(w, pc.(phase := Holding(w.session[pc.sid])))
    case TxSkip => Goto(w, Gone)
    case TxReject => Goto(w, Gone)
    case TxChoose =>
      var seen, e, high := pc.phase.seen, EventOf(pc.job), HighPending(w, pc.sid);
      Delta(pc.(phase := Chosen(seen, Successor(seen, e, high).value)),
            if seen == FixProposed && e == FixGenerated then Some(Routed(pc.sid, high, a)) else None,
            w.fix, w.approvals)
    case TxWrite => Goto(w, pc.(phase := Written(pc.phase.seen, pc.phase.next)))
    case TxAbort => Goto(w, AfterError(pc))
  }

  function Commit(w: World, a: ActorId, pc: Pc, reported: bool): World
    requires TxEnabled(w, TxCommit(reported), pc)
  {
    var s, e, next := pc.sid, EventOf(pc.job), pc.phase.next;
    var past := if s in w.hist then w.hist[s] else [];
    w.(session := w.session[s := next],
       hist := w.hist[s := past + [Move(e, pc.phase.seen, next)]],
       lock := Freed(w, pc),
       log := w.log + [Committed(s, e, next, a)],
       actors := w.actors[a := if reported then AfterSuccess(s, pc.job, next) else AfterError(pc)])
  }

  ghost function GateStep(w: World, a: ActorId, gate: GateAct, pc: Pc): (d: Delta)
    requires GateEnabled(w, gate, pc)
    ensures !Holds(d.pc)
  {
    match gate
    case GateOpen => Note(w, GateRead(pc.sid), Invoked(pc.sid, GateFx, a))
    case GateList(todo) => Goto(w, GateLoop(pc.sid, todo))
    case GateSkip => Goto(w, GateLoop(pc.sid, pc.todo[1..]))
    case GateInsert(x, reported) =>
      Delta(if reported then GateMark(pc.sid, pc.todo) else GateLoop(pc.sid, pc.todo[1..]), None,
            w.fix, w.approvals[x := ApprovalRow(pc.sid, pc.todo[0], Pending)])
    case GatePending(took) => SetApproval(w, GateLoop(pc.sid, pc.todo[1..]), pc.todo[0], took, Pending)
  }

  ghost function ExecStep(w: World, a: ActorId, exec: ExecAct, pc: Pc): (d: Delta)
    requires ExecEnabled(w, exec, pc)
    ensures !Holds(d.pc)
  {
    match exec
    case ExecOpen => Note(w, ExecRead(pc.sid), Invoked(pc.sid, ExecuteFx, a))
    case ExecList(cleared, todo) => Note(w, ExecLoop(pc.sid, todo), Snapshot(pc.sid, cleared, a))
    case ExecBegin(took) => SetExec(w, ExecRun(pc.sid, pc.todo), pc.todo[0], took, Running)
    case ExecDo(ok) => Note(w, ExecSettle(pc.sid, pc.todo, ok), Executed(pc.todo[0], a))
    case ExecEnd(took) =>
      SetExec(w, ExecLoop(pc.sid, pc.todo[1..]), pc.todo[0], took, if pc.ok then Succeeded else FailedRun)
    case ExecFinish => Goto(w, Tx(pc.sid, FinishJob, 0, Begin))
  }

  function DecideStep(w: World, a: ActorId, decide: DecideAct, pc: Pc): (d: Delta)
    requires DecideEnabled(w, decide, pc)
    ensures !Holds(d.pc)
  {
    match decide
    case DecideRow(took, reported) =>
      var row := w.approvals[pc.row];
      Delta(if reported then DecideMark(pc.sid, row.fix, pc.approve) else Gone,
            if took then Some(Decided(pc.sid, row.fix, pc.approve, a)) else None,
            w.fix,
            if took then w.approvals[pc.row := row.(status := Verdict(pc.approve))] else w.approvals)
    case DecideFix(took) =>
      SetApproval(w, Tx(pc.sid, DecisionJob(pc.fix, pc.approve), 0, Begin), pc.fix, took, Verdict(pc.approve))
  }

  predicate IsCommit(st: Step) { st.InTx? && st.tx.TxCommit? }

  /** Steps by an actor that leave the session rows alone. */
  predicate Patches(st: Step) { !st.CreateSession? && !st.InsertFix? && !IsCommit(st) }

  ghost function DeltaOf(w: World, st: Step): Delta
    requires Enabled(w, st) && Patches(st)
  {
    match st
    case Call(_, pc) => Goto(w, pc)
    case InTx(a, tx) => TxDelta(w, a, tx, w.actors[a])
    case InGate(a, gate) => GateStep(w, a, gate, w.actors[a])
    case InExec(a, exec) => ExecStep(w, a, exec, w.actors[a])
    case InDecide(a, decide) => DecideStep(w, a, decide, w.actors[a])
    case ReadStatus(a) =>
      var pc := w.actors[a];
      Goto(w, OnObservation(pc.sid, w.session[pc.sid], pc.kind))
    case Dispatch(a) =>
      var pc := w.actors[a];
      Note(w, Gone, Invoked(pc.sid, if pc.CollectCall? then CollectFx else AnalyzeFx, a))
    case VerifyList(a, ok) =>
      var s := w.actors[a].sid;
      Goto(w, Tx(s, VerifyJob(ok && HasAction(w, s) && NoneFailed(w, s)), 0, Begin))
    case Die(_) => Goto(w, Gone)
  }

  function LockOf(w: World, st: Step): map<SessionId, ActorId>
    requires (st.InTx? || st.Die?) ==> st.a in w.actors
    requires st.InTx? ==> TxEnabled(w, st.tx, w.actors[st.a])
  {
    match st
    case InTx(a, tx) => LockAfter(w, a, tx, w.actors[a])
    case Die(a) => Freed(w, w.actors[a])
    case _ => w.lock
  }

  ghost function Apply(w: World, st: Step): World
    requires Enabled(w, st)
  {
    if st.CreateSession? then
      w.(session := w.session[st.s := Created], hist := w.hist[st.s := []])
    else if st.InsertFix? then
      w.(fix := w.fix[st.f := st.row])
    else if IsCommit(st) then
      Commit(w, st.a, w.actors[st.a], st.tx.reported)
    else
      Patched(w.(lock := LockOf(w, st)), st.a, DeltaOf(w, st))
  }

  /** A step adds at most one mark to the log. */
  lemma LogGrows(w: World, st: Step)
    requires Enabled(w, st)
    ensures var log := Apply(w, st).log; log == w.log || (|log| == |w.log| + 1 && log[..|w.log|] == w.log)
  {
  }

  // ---------- runs ----------

  /** A finite run: ws[i+1] is what steps[i] makes of ws[i]. */
  ghost predicate Run(ws: seq<World>, steps: seq<Step>) {
    && |ws| == |steps| + 1
    && ws[0] == Initial(ws[0].cfg)
    && forall i | 0 <= i < |steps| :: Enabled(ws[i], steps[i]) && ws[i + 1] == Apply(ws[i], steps[i])
  }
}
