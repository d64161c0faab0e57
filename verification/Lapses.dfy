/** Each condition under which the two tables stay in step is needed: runs from the empty
  * database in which one lapse of its kind, and no other, leaves a row and its action in
  * disagreement with nobody left to write.
  */
module Lapses {
  import opened Domain
  import opened Protocol
  import opened Agreement

  /** The kinds of lapse a run may contain. */
  datatype Lapse = Overlap | FalseAlarm | HalfDeath | LostWrite

  ghost predicate KeepsAllBut(w: World, st: Step, lapse: Lapse)
    requires Enabled(w, st)
  {
    && (lapse.Overlap? || NoOverlap(w, st))
    && (lapse.FalseAlarm? || NoFalseAlarm(st))
    && (lapse.HalfDeath? || NoHalfDeath(w, st))
    && (lapse.LostWrite? || NoLostWrite(st))
  }

  ghost predicate RunWith(cfg: Config, lapse: Lapse, ws: seq<World>, steps: seq<Step>) {
    && Run(ws, steps) && ws[0].cfg == ws[|steps|].cfg == cfg
    && forall i | 0 <= i < |steps| :: KeepsAllBut(ws[i], steps[i], lapse)
  }

  // ---------- one transition ----------

  /** What the witnesses need to know of a world: one session, nothing locked. */
  ghost predicate Shows(w: World, status: Status, fix: map<FixId, FixRow>, approvals: map<ApprovalId, ApprovalRow>) {
    && w.session == map[0 := status] && w.lock == map[] && w.fix == fix && w.approvals == approvals
  }

  predicate Transacts(w: World, a: ActorId, job: Job, phase: Phase) {
    a in w.actors && w.actors[a] == Tx(0, job, 0, phase)
  }

  lemma Take(cfg: Config, lapse: Lapse, ws: seq<World>, steps: seq<Step>, st: Step)
      returns (ws': seq<World>, steps': seq<Step>)
    requires RunWith(cfg, lapse, ws, steps) && Enabled(ws[|steps|], st) && KeepsAllBut(ws[|steps|], st, lapse)
    ensures RunWith(cfg, lapse, ws', steps') && ws'[|steps'|] == Apply(ws[|steps|], st)
  {
    RunExtends(ws, steps, st);
    ws', steps' := ws + [Apply(ws[|steps|], st)], steps + [st];
    forall i | 0 <= i < |steps'|
      ensures KeepsAllBut(ws'[i], steps'[i], lapse)
    {
      assert ws'[i] == ws[i];
      if i < |steps| { assert steps'[i] == steps[i]; }
    }
  }

  /** The same with the session's row locked by a. */
  ghost predicate ShowsLocked(w: World, a: ActorId, status: Status, fix: map<FixId, FixRow>) {
    && w.session == map[0 := status] && w.lock == map[0 := a] && w.fix == fix && w.approvals == map[]
  }

  lemma WrittenNext(w: World, a: ActorId, job: Job, seen: Status, next: Status)
    requires Transacts(w, a, job, Chosen(seen, next))
    ensures TxEnabled(w, TxWrite, w.actors[a])
    ensures Apply(w, InTx(a, TxWrite)) == w.(actors := w.actors[a := Tx(0, job, 0, Written(seen, next))])
  {
  }

  lemma CommittedNext(w: World, a: ActorId, job: Job, seen: Status, next: Status)
    requires Transacts(w, a, job, Written(seen, next)) && w.lock == map[0 := a]
    ensures TxEnabled(w, TxCommit(true), w.actors[a])
    ensures var w' := Apply(w, InTx(a, TxCommit(true)));
      w' == w.(session := w.session[0 := next], hist := w'.hist, lock := map[], log := w'.log,
               actors := w.actors[a := AfterSuccess(0, job, next)])
  {
    assert w.lock - {0} == map[];
  }

  /** The row is locked and the next status chosen ... */
  lemma Chooses(
      cfg: Config, lapse: Lapse, ws: seq<World>, steps: seq<Step>, a: ActorId, job: Job, status: Status, next: Status,
      fix: map<FixId, FixRow>) returns (ws': seq<World>, steps': seq<Step>)
    requires RunWith(cfg, lapse, ws, steps) && Shows(ws[|steps|], status, fix, map[])
    requires Transacts(ws[|steps|], a, job, Begin) && Successor(status, EventOf(job), PendingHigh(fix, 0)) == Some(next)
    ensures RunWith(cfg, lapse, ws', steps') && ShowsLocked(ws'[|steps'|], a, status, fix)
    ensures ws'[|steps'|].actors == ws[|steps|].actors[a := Tx(0, job, 0, Chosen(status, next))]
  {
    ws', steps' := Take(cfg, lapse, ws, steps, InTx(a, TxLock));
    ws', steps' := ChoosesHeld(cfg, lapse, ws', steps', a, job, status, next, fix);
  }

  lemma ChoosesHeld(
      cfg: Config, lapse: Lapse, ws: seq<World>, steps: seq<Step>, a: ActorId, job: Job, status: Status, next: Status,
      fix: map<FixId, FixRow>) returns (ws': seq<World>, steps': seq<Step>)
    requires RunWith(cfg, lapse, ws, steps) && ShowsLocked(ws[|steps|], a, status, fix)
    requires Transacts(ws[|steps|], a, job, Holding(status))
    requires Successor(status, EventOf(job), PendingHigh(fix, 0)) == Some(next)
    ensures RunWith(cfg, lapse, ws', steps') && ShowsLocked(ws'[|steps'|], a, status, fix)
    ensures ws'[|steps'|].actors == ws[|steps|].actors[a := Tx(0, job, 0, Chosen(status, next))]
  {
    ws', steps' := Take(cfg, lapse, ws, steps, InTx(a, TxChoose));
  }

  /** ... then it is written and committed. */
  lemma Commits(
      cfg: Config, lapse: Lapse, ws: seq<World>, steps: seq<Step>, a: ActorId, job: Job, status: Status, next: Status,
      fix: map<FixId, FixRow>) returns (ws': seq<World>, steps': seq<Step>)
    requires RunWith(cfg, lapse, ws, steps) && ShowsLocked(ws[|steps|], a, status, fix)
    requires Transacts(ws[|steps|], a, job, Chosen(status, next))
    ensures RunWith(cfg, lapse, ws', steps') && Shows(ws'[|steps'|], next, fix, map[])
    ensures ws'[|steps'|].actors == ws[|steps|].actors[a := AfterSuccess(0, job, next)]
  {
    WrittenNext(ws[|steps|], a, job, status, next);
    ws', steps' := Take(cfg, lapse, ws, steps, InTx(a, TxWrite));
    CommittedNext(ws'[|steps'|], a, job, status, next);
    ws', steps' := Take(cfg, lapse, ws', steps', InTx(a, TxCommit(true)));
    assert ws[|steps|].session[0 := next] == map[0 := next];
  }

  /** An actor at the beginning of Transition takes it to its end. */
  lemma Transition(
      cfg: Config, lapse: Lapse, ws: seq<World>, steps: seq<Step>, a: ActorId, job: Job, status: Status, next: Status,
      fix: map<FixId, FixRow>) returns (ws': seq<World>, steps': seq<Step>)
    requires RunWith(cfg, lapse, ws, steps) && Shows(ws[|steps|], status, fix, map[])
    requires Transacts(ws[|steps|], a, job, Begin) && Successor(status, EventOf(job), PendingHigh(fix, 0)) == Some(next)
    ensures RunWith(cfg, lapse, ws', steps') && Shows(ws'[|steps'|], next, fix, map[])
    ensures ws'[|steps'|].actors == ws[|steps|].actors[a := AfterSuccess(0, job, next)]
  {
    ws', steps' := Chooses(cfg, lapse, ws, steps, a, job, status, next, fix);
    ws', steps' := Commits(cfg, lapse, ws', steps', a, job, status, next, fix);
  }

  // ---------- up to the gate ----------

  /** An observation arrives and finds the status. */
  lemma Observed(
      cfg: Config, lapse: Lapse, ws: seq<World>, steps: seq<Step>, a: ActorId, kind: EvidenceType, job: Job,
      status: Status, fix: map<FixId, FixRow>) returns (ws': seq<World>, steps': seq<Step>)
    requires RunWith(cfg, lapse, ws, steps) && Shows(ws[|steps|], status, fix, map[]) && a !in ws[|steps|].actors
    requires OnObservation(0, status, kind) == Tx(0, job, 0, Begin)
    ensures RunWith(cfg, lapse, ws', steps') && Shows(ws'[|steps'|], status, fix, map[])
    ensures ws'[|steps'|].actors == ws[|steps|].actors[a := Tx(0, job, 0, Begin)]
  {
    ws', steps' := Take(cfg, lapse, ws, steps, Call(a, Observing(0, kind)));
    ws', steps' := Take(cfg, lapse, ws', steps', ReadStatus(a));
  }

  /** ... and its first Transition commits. */
  lemma Handled(
      cfg: Config, lapse: Lapse, ws: seq<World>, steps: seq<Step>, a: ActorId, kind: EvidenceType, job: Job,
      status: Status, next: Status, fix: map<FixId, FixRow>) returns (ws': seq<World>, steps': seq<Step>)
    requires RunWith(cfg, lapse, ws, steps) && Shows(ws[|steps|], status, fix, map[]) && a !in ws[|steps|].actors
    requires OnObservation(0, status, kind) == Tx(0, job, 0, Begin)
    requires Successor(status, EventOf(job), PendingHigh(fix, 0)) == Some(next)
    ensures RunWith(cfg, lapse, ws', steps') && Shows(ws'[|steps'|], next, fix, map[])
    ensures ws'[|steps'|].actors == ws[|steps|].actors[a := AfterSuccess(0, job, next)]
  {
    ws', steps' := Observed(cfg, lapse, ws, steps, a, kind, job, status, fix);
    ws', steps' := Transition(cfg, lapse, ws', steps', a, job, status, next, fix);
  }

  const ACTION := FixRow(0, 1, SwitchMaster, "", High, SwitchMasterBack, true, NoApproval, NotStarted)

  lemma Started(cfg: Config, lapse: Lapse) returns (ws: seq<World>, steps: seq<Step>)
    ensures RunWith(cfg, lapse, ws, steps) && Shows(ws[|steps|], Created, map[0 := ACTION], map[])
    ensures ws[|steps|].actors == map[]
  {
    ws, steps := [Initial(cfg)], [];
    ws, steps := Take(cfg, lapse, ws, steps, CreateSession(0));
    ws, steps := Take(cfg, lapse, ws, steps, InsertFix(0, ACTION));
  }

  lemma Collected(cfg: Config, lapse: Lapse) returns (ws: seq<World>, steps: seq<Step>)
    ensures RunWith(cfg, lapse, ws, steps) && Shows(ws[|steps|], Collecting, map[0 := ACTION], map[])
    ensures ws[|steps|].actors == map[0 := CollectCall(0)]
  {
    ws, steps := Started(cfg, lapse);
    ws, steps := Take(cfg, lapse, ws, steps, Call(0, Tx(0, StartJob, 0, Begin)));
    ws, steps := Transition(cfg, lapse, ws, steps, 0, StartJob, Created, Collecting, map[0 := ACTION]);
  }

  lemma Explained(cfg: Config, lapse: Lapse) returns (ws: seq<World>, steps: seq<Step>)
    ensures RunWith(cfg, lapse, ws, steps) && Shows(ws[|steps|], RcaDone, map[0 := ACTION], map[])
    ensures ws[|steps|].actors == map[0 := CollectCall(0), 1 := AnalyzeCall(0), 2 := Gone]
  {
    var fix := map[0 := ACTION];
    ws, steps := Collected(cfg, lapse);
    ws, steps := Handled(cfg, lapse, ws, steps, 1, LogEvidence, CollectedJob, Collecting, Analyzing, fix);
    ws, steps := Handled(cfg, lapse, ws, steps, 2, RcaResult, AnalyzedJob, Analyzing, RcaDone, fix);
  }

  lemma Proposed(cfg: Config, lapse: Lapse) returns (ws: seq<World>, steps: seq<Step>)
    ensures RunWith(cfg, lapse, ws, steps) && Shows(ws[|steps|], FixProposed, map[0 := ACTION], map[])
    ensures ws[|steps|].actors == AtGate(Tx(0, RouteJob, 0, Begin))
  {
    ws, steps := Explained(cfg, lapse);
    ws, steps := Handled(cfg, lapse, ws, steps, 3, FixAction, ProposeJob, RcaDone, FixProposed, map[0 := ACTION]);
  }

  lemma ActionIsHigh()
    ensures PendingHigh(map[0 := ACTION], 0)
  {
    var fix := map[0 := ACTION];
    assert fix[0].sid == 0;
  }

  lemma Awaiting(cfg: Config, lapse: Lapse) returns (ws: seq<World>, steps: seq<Step>)
    ensures RunWith(cfg, lapse, ws, steps) && Shows(ws[|steps|], AwaitingApproval, map[0 := ACTION], map[])
    ensures ws[|steps|].actors == AtGate(GateCall(0))
  {
    ActionIsHigh();
    ws, steps := Proposed(cfg, lapse);
    ws, steps := Transition(cfg, lapse, ws, steps, 3, RouteJob, FixProposed, AwaitingApproval, map[0 := ACTION]);
  }

  // ---------- at the gate ----------

  /** The handlers 0 to 2 are past all writes; 3 is at the gate. */
  function AtGate(pc: Pc): map<ActorId, Pc> {
    map[0 := CollectCall(0), 1 := AnalyzeCall(0), 2 := Gone, 3 := pc]
  }

  function Row(status: ApprovalStatus): map<ApprovalId, ApprovalRow> { map[0 := ApprovalRow(0, 0, status)] }

  function Action(status: ApprovalStatus): map<FixId, FixRow> { map[0 := ACTION.(approval := status)] }

  ghost predicate Tables(
      w: World, row: map<ApprovalId, ApprovalRow>, action: ApprovalStatus, actors: map<ActorId, Pc>)
  {
    w.approvals == row && w.fix == Action(action) && w.actors == actors
  }

  lemma UpToTheGate(cfg: Config, lapse: Lapse) returns (ws: seq<World>, steps: seq<Step>)
    ensures RunWith(cfg, lapse, ws, steps) && Tables(ws[|steps|], map[], NoApproval, AtGate(GateLoop(0, [0])))
  {
    ws, steps := Awaiting(cfg, lapse);
    assert map[0 := ACTION] == Action(NoApproval);
    ws, steps := Take(cfg, lapse, ws, steps, InGate(3, GateOpen));
    ws, steps := Take(cfg, lapse, ws, steps, InGate(3, GateList([0])));
  }

  lemma RowInserted(w: World, reported: bool)
    requires Tables(w, map[], NoApproval, AtGate(GateLoop(0, [0])))
    ensures var st := InGate(3, GateInsert(0, reported));
      && Enabled(w, st) && NoOverlap(w, st)
      && Tables(Apply(w, st), Row(Pending), NoApproval, AtGate(if reported then GateMark(0, [0]) else GateLoop(0, [])))
  {
    assert [0][1..] == [];
  }

  lemma ActionMarked(w: World, row: ApprovalStatus, action: ApprovalStatus, rest: map<ActorId, Pc>)
    requires Tables(w, Row(row), action, rest) && 3 in rest && rest[3] == GateMark(0, [0])
    ensures var st := InGate(3, GatePending(true));
      Enabled(w, st) && Tables(Apply(w, st), Row(row), Pending, rest[3 := GateLoop(0, [])])
  {
    assert [0][1..] == [];
  }

  // ---------- the same steps, taken by a run ----------

  /** A run that ends with these tables. */
  ghost predicate Reaches(
      cfg: Config, lapse: Lapse, ws: seq<World>, steps: seq<Step>, row: ApprovalStatus, action: ApprovalStatus,
      actors: map<ActorId, Pc>)
  {
    RunWith(cfg, lapse, ws, steps) && Tables(ws[|steps|], Row(row), action, actors)
  }

  lemma Insert(cfg: Config, lapse: Lapse, reported: bool) returns (ws: seq<World>, steps: seq<Step>)
    requires reported || lapse.FalseAlarm?
    ensures Reaches(cfg, lapse, ws, steps, Pending, NoApproval,
                    AtGate(if reported then GateMark(0, [0]) else GateLoop(0, [])))
  {
    ws, steps := UpToTheGate(cfg, lapse);
    RowInserted(ws[|steps|], reported);
    ws, steps := Take(cfg, lapse, ws, steps, InGate(3, GateInsert(0, reported)));
  }

  lemma Mark(
      cfg: Config, lapse: Lapse, ws: seq<World>, steps: seq<Step>, row: ApprovalStatus, action: ApprovalStatus,
      actors: map<ActorId, Pc>) returns (ws': seq<World>, steps': seq<Step>)
    requires Reaches(cfg, lapse, ws, steps, row, action, actors) && 3 in actors && actors[3] == GateMark(0, [0])
    ensures Reaches(cfg, lapse, ws', steps', row, Pending, actors[3 := GateLoop(0, [])])
  {
    ActionMarked(ws[|steps|], row, action, actors);
    ws', steps' := Take(cfg, lapse, ws, steps, InGate(3, GatePending(true)));
  }

  lemma Open(
      cfg: Config, lapse: Lapse, ws: seq<World>, steps: seq<Step>, row: ApprovalStatus, action: ApprovalStatus,
      actors: map<ActorId, Pc>, a: ActorId, v: bool) returns (ws': seq<World>, steps': seq<Step>)
    requires Reaches(cfg, lapse, ws, steps, row, action, actors) && a !in actors
    ensures Reaches(cfg, lapse, ws', steps', row, action, actors[a := DecideWrite(0, 0, v)])
  {
    ws', steps' := Take(cfg, lapse, ws, steps, Call(a, DecideWrite(0, 0, v)));
  }

  lemma Decide(
      cfg: Config, lapse: Lapse, ws: seq<World>, steps: seq<Step>, row: ApprovalStatus, action: ApprovalStatus,
      actors: map<ActorId, Pc>, a: ActorId, v: bool, reported: bool) returns (ws': seq<World>, steps': seq<Step>)
    requires Reaches(cfg, lapse, ws, steps, row, action, actors) && a in actors && actors[a] == DecideWrite(0, 0, v)
    requires reported || lapse.FalseAlarm?
    requires lapse.Overlap? || forall b | b in actors :: Begun(actors[b]) == None
    ensures Reaches(cfg, lapse, ws', steps', Verdict(v), action,
                    actors[a := if reported then DecideMark(0, 0, v) else Gone])
  {
    ws', steps' := Take(cfg, lapse, ws, steps, InDecide(a, DecideRow(true, reported)));
  }

  lemma Follow(
      cfg: Config, lapse: Lapse, ws: seq<World>, steps: seq<Step>, row: ApprovalStatus, action: ApprovalStatus,
      actors: map<ActorId, Pc>, a: ActorId, v: bool, took: bool) returns (ws': seq<World>, steps': seq<Step>)
    requires Reaches(cfg, lapse, ws, steps, row, action, actors) && a in actors && actors[a] == DecideMark(0, 0, v)
    requires took || (lapse.LostWrite? && !cfg.writesLand)
    ensures Reaches(cfg, lapse, ws', steps', row, if took then Verdict(v) else action,
                    actors[a := Tx(0, DecisionJob(0, v), 0, Begin)])
  {
    ws', steps' := Take(cfg, lapse, ws, steps, InDecide(a, DecideFix(took)));
  }

  lemma DieThere(
      cfg: Config, ws: seq<World>, steps: seq<Step>, row: ApprovalStatus, action: ApprovalStatus,
      actors: map<ActorId, Pc>, a: ActorId) returns (ws': seq<World>, steps': seq<Step>)
    requires Reaches(cfg, HalfDeath, ws, steps, row, action, actors) && a in actors
    ensures Reaches(cfg, HalfDeath, ws', steps', row, action, actors[a := Gone])
  {
    ws', steps' := Take(cfg, HalfDeath, ws, steps, Die(a));
  }

  // ---------- one lapse each ----------

  /** An INSERT that takes effect and reports failure leaves a PENDING row over an action at NONE. */
  lemma FalseAlarmAtTheGate(cfg: Config) returns (ws: seq<World>, steps: seq<Step>)
    ensures RunWith(cfg, FalseAlarm, ws, steps) && OutOfStep(ws[|steps|], 0)
  {
    ws, steps := Insert(cfg, FalseAlarm, false);
  }

  /** So does a gate that dies between the row and the action. */
  lemma HalfDeathAtTheGate(cfg: Config) returns (ws: seq<World>, steps: seq<Step>)
    ensures RunWith(cfg, HalfDeath, ws, steps) && OutOfStep(ws[|steps|], 0)
  {
    var actors := AtGate(GateMark(0, [0]));
    ws, steps := Insert(cfg, HalfDeath, true);
    ws, steps := DieThere(cfg, ws, steps, Pending, NoApproval, actors, 3);
  }

  /** Handler 4 is about to write its decision on a row in step with its action. */
  function AtDecision(pc: Pc): map<ActorId, Pc> { AtGate(GateLoop(0, []))[4 := pc] }

  lemma UpToTheDecision(cfg: Config, lapse: Lapse) returns (ws: seq<World>, steps: seq<Step>)
    ensures Reaches(cfg, lapse, ws, steps, Pending, Pending, AtDecision(DecideWrite(0, 0, true)))
  {
    ws, steps := Insert(cfg, lapse, true);
    ws, steps := Mark(cfg, lapse, ws, steps, Pending, NoApproval, AtGate(GateMark(0, [0])));
    assert AtGate(GateMark(0, [0]))[3 := GateLoop(0, [])] == AtGate(GateLoop(0, []));
    ws, steps := Open(cfg, lapse, ws, steps, Pending, Pending, AtGate(GateLoop(0, [])), 4, true);
  }

  /** A decision that takes effect and reports failure. */
  lemma FalseAlarmAtTheDecision(cfg: Config) returns (ws: seq<World>, steps: seq<Step>)
    ensures RunWith(cfg, FalseAlarm, ws, steps) && OutOfStep(ws[|steps|], 0)
  {
    var actors := AtDecision(DecideWrite(0, 0, true));
    ws, steps := UpToTheDecision(cfg, FalseAlarm);
    ws, steps := Decide(cfg, FalseAlarm, ws, steps, Pending, Pending, actors, 4, true, false);
  }

  /** Handler 4 has written its decision on the row. */
  lemma BetweenTheUpdates(cfg: Config, lapse: Lapse) returns (ws: seq<World>, steps: seq<Step>)
    ensures Reaches(cfg, lapse, ws, steps, Approved, Pending, AtDecision(DecideMark(0, 0, true)))
  {
    var actors := AtDecision(DecideWrite(0, 0, true));
    ws, steps := UpToTheDecision(cfg, lapse);
    ws, steps := Decide(cfg, lapse, ws, steps, Pending, Pending, actors, 4, true, true);
    assert actors[4 := DecideMark(0, 0, true)] == AtDecision(DecideMark(0, 0, true));
  }

  /** A handler that dies between its two UPDATEs. */
  lemma HalfDeathAtTheDecision(cfg: Config) returns (ws: seq<World>, steps: seq<Step>)
    ensures RunWith(cfg, HalfDeath, ws, steps) && OutOfStep(ws[|steps|], 0)
  {
    var actors := AtDecision(DecideMark(0, 0, true));
    ws, steps := BetweenTheUpdates(cfg, HalfDeath);
    ws, steps := DieThere(cfg, ws, steps, Approved, Pending, actors, 4);
  }

  /** An UPDATE of the action that fails, or is left out because the SELECT before it failed;
    * the handler looks at neither error. */
  lemma LostWriteAtTheDecision(cfg: Config) returns (ws: seq<World>, steps: seq<Step>)
    requires !cfg.writesLand
    ensures RunWith(cfg, LostWrite, ws, steps) && OutOfStep(ws[|steps|], 0)
  {
    var actors := AtDecision(DecideMark(0, 0, true));
    ws, steps := BetweenTheUpdates(cfg, LostWrite);
    ws, steps := Follow(cfg, LostWrite, ws, steps, Approved, Pending, actors, 4, true, false);
  }

  /** Two decisions between their UPDATEs at once. */
  lemma BothBetween(cfg: Config) returns (ws: seq<World>, steps: seq<Step>)
    ensures Reaches(cfg, Overlap, ws, steps, Refused, Pending,
                    AtDecision(DecideMark(0, 0, true))[5 := DecideMark(0, 0, false)])
  {
    var actors := AtDecision(DecideMark(0, 0, true));
    ws, steps := BetweenTheUpdates(cfg, Overlap);
    ws, steps := Open(cfg, Overlap, ws, steps, Approved, Pending, actors, 5, false);
    var now := actors[5 := DecideWrite(0, 0, false)];
    ws, steps := Decide(cfg, Overlap, ws, steps, Approved, Pending, now, 5, false, true);
    assert now[5 := DecideMark(0, 0, false)] == actors[5 := DecideMark(0, 0, false)];
  }

  /** Overlapping decisions: the row is REJECTED by the later, the action APPROVED by the
    * earlier. */
  lemma OverlappingDecisions(cfg: Config) returns (ws: seq<World>, steps: seq<Step>)
    ensures RunWith(cfg, Overlap, ws, steps) && OutOfStep(ws[|steps|], 0)
    ensures ws[|steps|].approvals == Row(Refused) && ws[|steps|].fix == Action(Approved)
  {
    var actors := AtDecision(DecideMark(0, 0, true))[5 := DecideMark(0, 0, false)];
    ws, steps := BothBetween(cfg);
    ws, steps := Follow(cfg, Overlap, ws, steps, Refused, Pending, actors, 5, false, true);
    actors := actors[5 := Tx(0, DecisionJob(0, false), 0, Begin)];
    ws, steps := Follow(cfg, Overlap, ws, steps, Refused, Refused, actors, 4, true, true);
  }

  /** A decision that overtakes the gate between its two writes: the row is APPROVED, the
    * action PENDING. */
  lemma DecisionOvertakesTheGate(cfg: Config) returns (ws: seq<World>, steps: seq<Step>)
    ensures RunWith(cfg, Overlap, ws, steps) && OutOfStep(ws[|steps|], 0)
    ensures ws[|steps|].approvals == Row(Approved) && ws[|steps|].fix == Action(Pending)
  {
    var actors := AtGate(GateMark(0, [0]));
    ws, steps := Insert(cfg, Overlap, true);
    ws, steps := Open(cfg, Overlap, ws, steps, Pending, NoApproval, actors, 4, true);
    actors := actors[4 := DecideWrite(0, 0, true)];
    ws, steps := Decide(cfg, Overlap, ws, steps, Pending, NoApproval, actors, 4, true, true);
    actors := actors[4 := DecideMark(0, 0, true)];
    ws, steps := Follow(cfg, Overlap, ws, steps, Approved, NoApproval, actors, 4, true, true);
    actors := actors[4 := Tx(0, DecisionJob(0, true), 0, Begin)];
    ws, steps := Mark(cfg, Overlap, ws, steps, Approved, Approved, actors);
  }
}
