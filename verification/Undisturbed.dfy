/** The undisturbed actor and the step system: whatever the order of its steps, an observing
  * actor that nothing fails and nobody disturbs ends as its big-step run says, and so does a
  * sequence of them.
  */
module Undisturbed {
  import opened Domain
  import opened Lifecycle
  import opened Protocol
  import opened Solo
  import opened Workflow

  /** A step of a in which nothing fails. */
  predicate Smooth(st: Step, a: ActorId) {
    match st
    case InTx(b, tx) => b == a && !tx.TxSkip? && !tx.TxAbort? && (tx.TxCommit? ==> tx.reported)
    case InGate(b, _) => b == a
    case InExec(b, _) => b == a
    case ReadStatus(b) => b == a
    case Dispatch(b) => b == a
    case _ => false
  }

  /** The actor has returned, or is at the end of the gate's loop. */
  predicate Done(pc: Pc) { pc.Gone? || (pc.GateLoop? && pc.todo == []) }

  /** A stretch of steps from any world on. */
  ghost predicate Stretch(ws: seq<World>, steps: seq<Step>) {
    && |ws| == |steps| + 1
    && forall i | 0 <= i < |steps| :: Enabled(ws[i], steps[i]) && ws[i + 1] == Apply(ws[i], steps[i])
  }

  /** Actor a is given the observation and handles it to the end, alone. */
  ghost predicate Handles(ws: seq<World>, steps: seq<Step>, s: SessionId, kind: EvidenceType, a: ActorId) {
    && Stretch(ws, steps) && s in ws[0].session
    && steps != [] && steps[0] == Call(a, Observing(s, kind))
    && (forall i | 1 <= i < |steps| :: Smooth(steps[i], a))
    && a in ws[|steps|].actors && Done(ws[|steps|].actors[a])
  }

  /** The calls on record, in order. */
  function Calls(log: seq<Mark>): seq<Effect> {
    if log == [] then []
    else
      var m := log[|log| - 1];
      Calls(log[..|log| - 1]) + if m.Invoked? then [m.fx] else []
  }

  // ---------- what is still to come ----------

  function Finished(status: Status): Status {
    var next := Successor(status, ExecuteComplete, false);
    if next == None then status else next.value
  }

  predicate Executes(pc: Pc) { pc.ExecRead? || pc.ExecLoop? || pc.ExecRun? || pc.ExecSettle? }

  predicate Gates(pc: Pc) { pc.GateCall? || pc.GateRead? || pc.GateLoop? || pc.GateMark? }

  /** What the rest of the actor's run makes of the session, in the middle of it. */
  function Expected(pc: Pc, status: Status, high: bool): Outcome {
    if pc.Observing? then Observe(pc.sid, status, pc.kind, high)
    else if pc.Tx? && (pc.phase.Chosen? || pc.phase.Written?) then
      Alone(AfterSuccess(pc.sid, pc.job, pc.phase.next), pc.phase.next, high)
    else if Executes(pc) then Outcome(Finished(status), [])
    else if Gates(pc) && !pc.GateCall? then Outcome(status, [])
    else Alone(pc, status, high)
  }

  /** The session is past the point where pending HIGH-risk actions matter. */
  predicate Late(pc: Pc) { Gates(pc) || Executes(pc) || pc.ExecCall? || (pc.Tx? && pc.job.FinishJob?) }

  predicate PastRouting(status: Status) { Rank(status) > Rank(RcaDone) }

  /** An observing actor's counter, and what it relies on. */
  ghost predicate Fits(w: World, s: SessionId, pc: Pc, high: bool) {
    && s in w.session
    && (pc.Gone? ==> HighPending(w, s) == high || PastRouting(w.session[s]))
    && (!pc.Gone? ==> pc.sid == s && !pc.DecideWrite? && !pc.DecideMark? && !pc.VerifyRead?)
    && (Late(pc) ==> PastRouting(w.session[s]))
    && (!Late(pc) && !pc.Gone? ==> HighPending(w, s) == high)
    && (Holds(pc) ==> pc.phase.seen == w.session[s])
    && (pc.Tx? && (pc.phase.Chosen? || pc.phase.Written?) ==>
          Successor(pc.phase.seen, EventOf(pc.job), high) == Some(pc.phase.next))
  }

  ghost predicate Kept(w: World, w': World, s: SessionId, a: ActorId, high: bool)
    requires a in w.actors && Fits(w, s, w.actors[a], high)
  {
    && w.log <= w'.log
    && a in w'.actors && Fits(w', s, w'.actors[a], high)
    && Expected(w.actors[a], w.session[s], high) ==
         Then(Outcome(w.session[s], Calls(w'.log[|w.log|..])), Expected(w'.actors[a], w'.session[s], high))
  }

  // ---------- steps ----------

  lemma CallsOfOne(log: seq<Mark>, m: Mark)
    ensures Calls((log + [m])[|log|..]) == if m.Invoked? then [m.fx] else []
    ensures Calls(log[|log|..]) == []
  {
    assert (log + [m])[|log|..] == [m] && [m][..0] == [];
  }

  function CallsIn(mark: Option<Mark>): seq<Effect> {
    if mark.Some? && mark.value.Invoked? then [mark.value.fx] else []
  }

  /** What has to be shown of a step outside the commit. */
  lemma PatchKeeps(w: World, w': World, s: SessionId, a: ActorId, d: Delta, high: bool)
    requires a in w.actors && Fits(w, s, w.actors[a], high) && Fits(w', s, d.pc, high)
    requires w'.log == Logged(w.log, d.mark) && w'.session == w.session && w'.actors == w.actors[a := d.pc]
    requires Expected(w.actors[a], w.session[s], high) ==
      Then(Outcome(w.session[s], CallsIn(d.mark)), Expected(d.pc, w.session[s], high))
    ensures Kept(w, w', s, a, high)
  {
    CallsOfOne(w.log, if d.mark.Some? then d.mark.value else Executed(0, a));
  }

  /** A transaction on the way to its commit. */
  lemma TxKeeps(w: World, s: SessionId, a: ActorId, tx: TxAct, high: bool)
    requires a in w.actors && Fits(w, s, w.actors[a], high)
    requires TxEnabled(w, tx, w.actors[a]) && Smooth(InTx(a, tx), a) && !tx.TxCommit?
    ensures Kept(w, Apply(w, InTx(a, tx)), s, a, high)
  {
    TxExpected(w, s, a, tx, w.actors[a], high);
    PatchKeeps(w, Apply(w, InTx(a, tx)), s, a, TxDelta(w, a, tx, w.actors[a]), high);
  }

  lemma TxExpected(w: World, s: SessionId, a: ActorId, tx: TxAct, pc: Pc, high: bool)
    requires Fits(w, s, pc, high) && TxEnabled(w, tx, pc) && Smooth(InTx(a, tx), a) && !tx.TxCommit?
    ensures var d := TxDelta(w, a, tx, pc);
      && Fits(w, s, d.pc, high) && CallsIn(d.mark) == []
      && Expected(pc, w.session[s], high) == Expected(d.pc, w.session[s], high)
  {
  }

  lemma AfterCommitFits(s: SessionId, job: Job, seen: Status, next: Status, high: bool)
    requires Successor(seen, EventOf(job), high) == Some(next)
    ensures Rank(seen) < Rank(next)
    ensures var pc := AfterSuccess(s, job, next);
      && (Late(pc) ==> PastRouting(next)) && !Holds(pc) && !Executes(pc) && !pc.Observing?
      && (pc.Gone? || (pc.sid == s && !pc.DecideWrite? && !pc.DecideMark? && !pc.VerifyRead?))
      && Expected(pc, next, high) == Alone(pc, next, high)
    ensures job.FinishJob? ==> PastRouting(next)
  {
    MoveRaisesRank(seen, EventOf(job), next);
  }

  lemma CommitKeeps(w: World, s: SessionId, a: ActorId, high: bool)
    requires a in w.actors && Fits(w, s, w.actors[a], high) && TxEnabled(w, TxCommit(true), w.actors[a])
    ensures Kept(w, Apply(w, InTx(a, TxCommit(true))), s, a, high)
  {
    var pc, w' := w.actors[a], Apply(w, InTx(a, TxCommit(true)));
    AfterCommitFits(s, pc.job, pc.phase.seen, pc.phase.next, high);
    CommitFits(w, w', s, a, pc, high);
    CallsOfOne(w.log, Committed(s, EventOf(pc.job), pc.phase.next, a));
  }

  lemma CommitFits(w: World, w': World, s: SessionId, a: ActorId, pc: Pc, high: bool)
    requires Fits(w, s, pc, high) && TxEnabled(w, TxCommit(true), pc) && w' == Commit(w, a, pc, true)
    ensures Fits(w', s, w'.actors[a], high) && w'.session[s] == pc.phase.next
    ensures w'.actors[a] == AfterSuccess(s, pc.job, pc.phase.next)
    ensures w'.log == w.log + [Committed(s, EventOf(pc.job), pc.phase.next, a)]
  {
    AfterCommitFits(s, pc.job, pc.phase.seen, pc.phase.next, high);
  }

  lemma GateKeeps(w: World, s: SessionId, a: ActorId, gate: GateAct, high: bool)
    requires a in w.actors && Fits(w, s, w.actors[a], high) && GateEnabled(w, gate, w.actors[a])
    ensures Kept(w, Apply(w, InGate(a, gate)), s, a, high)
  {
    var pc := w.actors[a];
    var d := GateStep(w, a, gate, pc);
    GateCallExpected(s, w.session[s], high);
    GatesOn(w, a, gate, pc);
    PatchKeeps(w, Apply(w, InGate(a, gate)), s, a, d, high);
  }

  lemma GatesOn(w: World, a: ActorId, gate: GateAct, pc: Pc)
    requires GateEnabled(w, gate, pc)
    ensures var d := GateStep(w, a, gate, pc);
      && Gates(pc) && Gates(d.pc) && !d.pc.GateCall? && d.pc.sid == pc.sid
      && CallsIn(d.mark) == if pc.GateCall? then [GateFx] else []
  {
    match gate
    case GateOpen =>
    case _ =>
  }

  lemma GateCallExpected(s: SessionId, status: Status, high: bool)
    ensures Expected(GateCall(s), status, high) == Outcome(status, [GateFx])
  {
  }

  lemma ExecKeeps(w: World, s: SessionId, a: ActorId, exec: ExecAct, high: bool)
    requires a in w.actors && Fits(w, s, w.actors[a], high) && ExecEnabled(w, exec, w.actors[a])
    ensures Kept(w, Apply(w, InExec(a, exec)), s, a, high)
  {
    var pc := w.actors[a];
    ExecutesOn(w, a, exec, pc);
    FinishIsFinished(s, w.session[s], high);
    PatchKeeps(w, Apply(w, InExec(a, exec)), s, a, ExecStep(w, a, exec, pc), high);
  }

  lemma ExecutesOn(w: World, a: ActorId, exec: ExecAct, pc: Pc)
    requires ExecEnabled(w, exec, pc)
    ensures var d := ExecStep(w, a, exec, pc);
      && (Executes(d.pc) || d.pc == Tx(pc.sid, FinishJob, 0, Begin)) && d.pc.sid == pc.sid
      && (if pc.ExecCall? then pc == ExecCall(pc.sid) && Executes(d.pc) else Executes(pc))
      && CallsIn(d.mark) == if pc.ExecCall? then [ExecuteFx] else []
  {
    match exec
    case ExecOpen =>
    case _ =>
  }

  lemma FinishIsFinished(s: SessionId, status: Status, high: bool)
    ensures Expected(Tx(s, FinishJob, 0, Begin), status, high) == Outcome(Finished(status), [])
    ensures Expected(ExecCall(s), status, high) == Outcome(Finished(status), [ExecuteFx])
  {
    if status == FixExecuting {
      assert Alone(AfterSuccess(s, FinishJob, Verifying), Verifying, high) == Outcome(Verifying, []);
    }
  }

  lemma ReadKeeps(w: World, s: SessionId, a: ActorId, high: bool)
    requires a in w.actors && Fits(w, s, w.actors[a], high) && Enabled(w, ReadStatus(a))
    ensures Kept(w, Apply(w, ReadStatus(a)), s, a, high)
  {
    var pc := w.actors[a];
    ReadExpected(s, w.session[s], pc.kind, high);
    PatchKeeps(w, Apply(w, ReadStatus(a)), s, a, Goto(w, OnObservation(s, w.session[s], pc.kind)), high);
  }

  lemma ReadExpected(s: SessionId, status: Status, kind: EvidenceType, high: bool)
    ensures var pc := OnObservation(s, status, kind);
      && Expected(Observing(s, kind), status, high) == Expected(pc, status, high)
      && (pc.Gone? || (pc.Tx? && pc.sid == s && pc.phase == Begin && !pc.job.FinishJob?))
  {
  }

  lemma DispatchKeeps(w: World, s: SessionId, a: ActorId, high: bool)
    requires a in w.actors && Fits(w, s, w.actors[a], high) && Enabled(w, Dispatch(a))
    ensures Kept(w, Apply(w, Dispatch(a)), s, a, high)
  {
    var pc := w.actors[a];
    DispatchExpected(s, w.session[s], high);
    PatchKeeps(w, Apply(w, Dispatch(a)), s, a,
               Note(w, Gone, Invoked(s, if pc.CollectCall? then CollectFx else AnalyzeFx, a)), high);
  }

  lemma DispatchExpected(s: SessionId, status: Status, high: bool)
    ensures Expected(CollectCall(s), status, high) == Outcome(status, [CollectFx])
    ensures Expected(AnalyzeCall(s), status, high) == Outcome(status, [AnalyzeFx])
    ensures Expected(Gone, status, high) == Outcome(status, [])
  {
  }

  lemma SmoothKeeps(w: World, s: SessionId, a: ActorId, st: Step, high: bool)
    requires a in w.actors && Fits(w, s, w.actors[a], high) && Enabled(w, st) && Smooth(st, a)
    ensures Kept(w, Apply(w, st), s, a, high)
  {
    match st
    case InTx(_, tx) => if tx.TxCommit? { CommitKeeps(w, s, a, high); } else { TxKeeps(w, s, a, tx, high); }
    case InGate(_, gate) => GateKeeps(w, s, a, gate, high);
    case InExec(_, exec) => ExecKeeps(w, s, a, exec, high);
    case ReadStatus(_) => ReadKeeps(w, s, a, high);
    case Dispatch(_) => DispatchKeeps(w, s, a, high);
  }

  // ---------- one observation ----------

  lemma {:induction false} CallsJoin(x: seq<Mark>, y: seq<Mark>)
    ensures Calls(x + y) == Calls(x) + Calls(y)
  {
    if y == [] {
      assert x + y == x;
    } else {
      assert (x + y)[..|x + y| - 1] == x + y[..|y| - 1];
      CallsJoin(x, y[..|y| - 1]);
    }
  }

  lemma LogsJoin(w: World, w': World, w'': World)
    requires w.log <= w'.log <= w''.log
    ensures Calls(w''.log[|w.log|..]) == Calls(w'.log[|w.log|..]) + Calls(w''.log[|w'.log|..])
  {
    CallsJoin(w'.log[|w.log|..], w''.log[|w'.log|..]);
    assert w''.log[|w.log|..] == w'.log[|w.log|..] + w''.log[|w'.log|..];
  }

  /** Where the actor stands after i steps, with what it has called so far. */
  ghost predicate OnCourse(
      ws: seq<World>, i: nat, s: SessionId, kind: EvidenceType, a: ActorId, high: bool)
    requires i < |ws| && s in ws[0].session
  {
    && a in ws[i].actors && Fits(ws[i], s, ws[i].actors[a], high) && ws[0].log <= ws[i].log
    && Observe(s, ws[0].session[s], kind, high) ==
         Then(Outcome(ws[0].session[s], Calls(ws[i].log[|ws[0].log|..])),
              Expected(ws[i].actors[a], ws[i].session[s], high))
  }

  lemma {:induction false} StaysOnCourse(
      ws: seq<World>, steps: seq<Step>, i: nat, s: SessionId, kind: EvidenceType, a: ActorId, high: bool)
    requires Handles(ws, steps, s, kind, a) && high == HighPending(ws[0], s) && 1 <= i < |ws|
    ensures OnCourse(ws, i, s, kind, a, high)
  {
    if i == 1 {
      assert ws[1] == Apply(ws[0], Call(a, Observing(s, kind)));
      assert ws[1].log == ws[0].log && ws[1].log[|ws[0].log|..] == [];
    } else {
      StaysOnCourse(ws, steps, i - 1, s, kind, a, high);
      SmoothKeeps(ws[i - 1], s, a, steps[i - 1], high);
      LogsJoin(ws[0], ws[i - 1], ws[i]);
      ThenAssociates(
        Outcome(ws[0].session[s], Calls(ws[i - 1].log[|ws[0].log|..])),
        Outcome(ws[i - 1].session[s], Calls(ws[i].log[|ws[i - 1].log|..])),
        Expected(ws[i].actors[a], ws[i].session[s], high));
    }
  }

  /** The status and the calls on record are those of the big-step run, whatever steps the
    * actor took. */
  lemma HandlesAsObserved(ws: seq<World>, steps: seq<Step>, s: SessionId, kind: EvidenceType, a: ActorId)
    requires Handles(ws, steps, s, kind, a)
    ensures var w, w' := ws[0], ws[|steps|];
      && s in w'.session && w.log <= w'.log
      && Outcome(w'.session[s], Calls(w'.log[|w.log|..])) == Observe(s, w.session[s], kind, HighPending(w, s))
      && (HighPending(w', s) == HighPending(w, s) || PastRouting(w'.session[s]))
  {
    StaysOnCourse(ws, steps, |steps|, s, kind, a, HighPending(ws[0], s));
  }

  // ---------- nothing stops it ----------

  /** The actor can take its next step: nobody else holds the row, and the actions it still has
    * to run are in the table. */
  predicate Ready(w: World, s: SessionId, pc: Pc) {
    && s in w.session && (pc.Gone? || pc.sid == s) && (Holds(pc) || s !in w.lock)
    && !pc.DecideWrite? && !pc.DecideMark? && !pc.VerifyRead? && !pc.GateMark?
    && (pc.ExecLoop? || pc.ExecRun? || pc.ExecSettle? ==> forall f | f in pc.todo :: f in w.fix)
    && (pc.ExecRun? || pc.ExecSettle? ==> pc.todo != [])
    && (Holds(pc) ==> pc.phase.seen == w.session[s])
    && (pc.Tx? && (pc.phase.Chosen? || pc.phase.Written?) ==>
          TableMove(pc.phase.seen, EventOf(pc.job), pc.phase.next))
  }

  /** How far the counter is from its end while the session stays where it is. */
  function Order(pc: Pc): nat {
    match pc
    case Gone => 0
    case Tx(_, _, _, phase) =>
      (match phase case Begin => 4 case Holding(_) => 3 case Chosen(_, _) => 2 case Written(_, _) => 1)
    case CollectCall(_) => 1
    case AnalyzeCall(_) => 1
    case GateLoop(_, _) => 5
    case GateRead(_) => 6
    case GateCall(_) => 7
    case ExecLoop(_, _) => 5
    case ExecRun(_, _) => 5
    case ExecSettle(_, _, _) => 5
    case ExecRead(_) => 6
    case ExecCall(_) => 7
    case _ => 8
  }

  function Todo(pc: Pc): nat {
    match pc
    case GateLoop(_, todo) => |todo|
    case ExecLoop(_, todo) => 3 * |todo|
    case ExecRun(_, todo) => if |todo| > 0 then 3 * |todo| - 1 else 0
    case ExecSettle(_, todo, _) => if |todo| > 0 then 3 * |todo| - 2 else 0
    case _ => 0
  }

  function Ahead(status: Status): nat { 8 - Rank(status) }

  /** The next step brings the actor nearer to its end. */
  predicate Nearer(pc: Pc, status: Status, pc': Pc, status': Status) {
    || Ahead(status') < Ahead(status)
    || (status' == status && (Order(pc') < Order(pc) || (Order(pc') == Order(pc) && Todo(pc') < Todo(pc))))
  }

  ghost predicate Goes(w: World, s: SessionId, a: ActorId, st: Step)
    requires a in w.actors && Ready(w, s, w.actors[a])
  {
    && Enabled(w, st) && Smooth(st, a)
    && var w' := Apply(w, st);
       && a in w'.actors && Ready(w', s, w'.actors[a])
       && Nearer(w.actors[a], w.session[s], w'.actors[a], w'.session[s])
  }

  lemma {:induction false} Sort(fix: map<FixId, FixRow>, members: set<FixId>) returns (ids: seq<FixId>)
    requires members <= fix.Keys
    ensures Ranked(fix, ids, members)
  {
    if members == {} {
      ids := [];
    } else {
      var f :| f in members;
      ids := Sort(fix, members - {f});
      Places(fix, ids, members - {f}, f);
      ids := Place(fix, ids, f);
      assert members - {f} + {f} == members;
    }
  }

  lemma Listing(fix: map<FixId, FixRow>, s: SessionId, p: FixRow -> bool) returns (ids: seq<FixId>)
    ensures Lists(fix, s, ids, p)
  {
    ids := Sort(fix, set f | f in fix && fix[f].sid == s && p(fix[f]));
  }

  lemma NextInTx(w: World, s: SessionId, a: ActorId) returns (tx: TxAct)
    requires a in w.actors && Ready(w, s, w.actors[a]) && w.actors[a].Tx? && !w.actors[a].phase.Written?
    ensures Goes(w, s, a, InTx(a, tx))
  {
    var pc := w.actors[a];
    match pc.phase
    case Begin =>
      tx := TxLock;
    case Holding(seen) =>
      if Lookup(seen, EventOf(pc.job)) == None {
        tx := TxReject;
      } else {
        ChoiceGoes(w, s, a);
        tx := TxChoose;
      }
    case Chosen(_, _) =>
      tx := TxWrite;
  }

  lemma ChoiceGoes(w: World, s: SessionId, a: ActorId)
    requires a in w.actors && Ready(w, s, w.actors[a]) && TxEnabled(w, TxChoose, w.actors[a])
    ensures Goes(w, s, a, InTx(a, TxChoose))
  {
  }

  lemma NextIsCommit(w: World, s: SessionId, a: ActorId)
    requires a in w.actors && Ready(w, s, w.actors[a]) && w.actors[a].Tx? && w.actors[a].phase.Written?
    ensures Goes(w, s, a, InTx(a, TxCommit(true)))
  {
    var pc := w.actors[a];
    MoveRaisesRank(pc.phase.seen, EventOf(pc.job), pc.phase.next);
  }

  /** What has to be shown of a step outside transactions. */
  lemma PatchGoes(w: World, s: SessionId, a: ActorId, st: Step)
    requires a in w.actors && Ready(w, s, w.actors[a]) && Enabled(w, st) && Smooth(st, a)
    requires !st.InTx? && !Holds(w.actors[a])
    requires var d := DeltaOf(w, st);
      && Ready(w, s, d.pc) && d.fix.Keys == w.fix.Keys
      && Nearer(w.actors[a], w.session[s], d.pc, w.session[s])
    ensures Goes(w, s, a, st)
  {
  }

  lemma NextInGate(w: World, s: SessionId, a: ActorId) returns (gate: GateAct)
    requires a in w.actors && Ready(w, s, w.actors[a]) && Gates(w.actors[a]) && !Done(w.actors[a])
    ensures Goes(w, s, a, InGate(a, gate))
  {
    match w.actors[a]
    case GateCall(_) =>
      gate := GateOpen;
      PatchGoes(w, s, a, InGate(a, gate));
    case GateRead(_) =>
      var ids := Listing(w.fix, s, NeedsGate);
      gate := GateList(ids);
      PatchGoes(w, s, a, InGate(a, gate));
    case GateLoop(_, _) =>
      gate := GateSkip;
      PatchGoes(w, s, a, InGate(a, gate));
  }

  lemma NextInExec(w: World, s: SessionId, a: ActorId) returns (exec: ExecAct)
    requires a in w.actors && Ready(w, s, w.actors[a]) && (Executes(w.actors[a]) || w.actors[a].ExecCall?)
    ensures Goes(w, s, a, InExec(a, exec))
  {
    match w.actors[a]
    case ExecCall(_) =>
      exec := ExecOpen;
      PatchGoes(w, s, a, InExec(a, exec));
    case ExecRead(_) =>
      exec := NextIsListing(w, s, a);
    case _ =>
      exec := NextInLoop(w, s, a);
  }

  lemma NextInLoop(w: World, s: SessionId, a: ActorId) returns (exec: ExecAct)
    requires a in w.actors && Ready(w, s, w.actors[a])
    requires w.actors[a].ExecLoop? || w.actors[a].ExecRun? || w.actors[a].ExecSettle?
    ensures Goes(w, s, a, InExec(a, exec))
  {
    var pc := w.actors[a];
    exec :=
      if pc.ExecRun? then ExecDo(true)
      else if pc.ExecSettle? then ExecEnd(true)
      else if pc.todo == [] then ExecFinish else ExecBegin(true);
    PatchGoes(w, s, a, InExec(a, exec));
  }

  lemma NextIsListing(w: World, s: SessionId, a: ActorId) returns (exec: ExecAct)
    requires a in w.actors && Ready(w, s, w.actors[a]) && w.actors[a].ExecRead?
    ensures Goes(w, s, a, InExec(a, exec))
  {
    var cleared := Listing(w.fix, s, Cleared);
    var todo := Listing(w.fix, s, Runnable);
    exec := ExecList(cleared, todo);
    PatchGoes(w, s, a, InExec(a, exec));
  }

  lemma NextStep(w: World, s: SessionId, a: ActorId) returns (st: Step)
    requires a in w.actors && Ready(w, s, w.actors[a]) && !Done(w.actors[a])
    ensures Goes(w, s, a, st)
  {
    var pc := w.actors[a];
    if pc.Tx? {
      if pc.phase.Written? {
        NextIsCommit(w, s, a);
        st := InTx(a, TxCommit(true));
      } else {
        var tx := NextInTx(w, s, a);
        st := InTx(a, tx);
      }
    } else if Gates(pc) {
      var gate := NextInGate(w, s, a);
      st := InGate(a, gate);
    } else if Executes(pc) || pc.ExecCall? {
      var exec := NextInExec(w, s, a);
      st := InExec(a, exec);
    } else {
      st := if pc.Observing? then ReadStatus(a) else Dispatch(a);
    }
  }

  /** The observation is being handled, and the next step is possible. */
  ghost predicate Handling(ws: seq<World>, steps: seq<Step>, s: SessionId, kind: EvidenceType, a: ActorId) {
    && Stretch(ws, steps) && s in ws[0].session
    && steps != [] && steps[0] == Call(a, Observing(s, kind))
    && (forall i | 1 <= i < |steps| :: Smooth(steps[i], a))
    && a in ws[|steps|].actors && Ready(ws[|steps|], s, ws[|steps|].actors[a])
  }

  lemma HandlingGoesOn(
      ws: seq<World>, steps: seq<Step>, s: SessionId, kind: EvidenceType, a: ActorId, st: Step)
    requires Handling(ws, steps, s, kind, a) && Goes(ws[|steps|], s, a, st)
    ensures Handling(ws + [Apply(ws[|steps|], st)], steps + [st], s, kind, a)
  {
    var ws', steps' := ws + [Apply(ws[|steps|], st)], steps + [st];
    forall i | 0 <= i < |steps'|
      ensures Enabled(ws'[i], steps'[i]) && ws'[i + 1] == Apply(ws'[i], steps'[i])
      ensures i >= 1 ==> Smooth(steps'[i], a)
    {
      assert ws'[i] == ws[i];
      if i < |steps| { assert ws'[i + 1] == ws[i + 1] && steps'[i] == steps[i]; }
    }
  }

  lemma {:induction false} HandlingEnds(
      ws: seq<World>, steps: seq<Step>, s: SessionId, kind: EvidenceType, a: ActorId)
      returns (ws': seq<World>, steps': seq<Step>)
    requires Handling(ws, steps, s, kind, a)
    ensures ws' != [] && ws'[0] == ws[0] && Handles(ws', steps', s, kind, a)
    ensures s !in ws'[|steps'|].lock
    decreases Ahead(ws[|steps|].session[s]), Order(ws[|steps|].actors[a]), Todo(ws[|steps|].actors[a])
  {
    var w := ws[|steps|];
    if Done(w.actors[a]) {
      ws', steps' := ws, steps;
    } else {
      var st := NextStep(w, s, a);
      HandlingGoesOn(ws, steps, s, kind, a, st);
      ws', steps' := HandlingEnds(ws + [Apply(w, st)], steps + [st], s, kind, a);
    }
  }

  /** From any world in which the row is free an observation can be handled to its end. */
  lemma CanBeHandled(w: World, s: SessionId, kind: EvidenceType, a: ActorId)
      returns (ws: seq<World>, steps: seq<Step>)
    requires s in w.session && s !in w.lock && a !in w.actors
    ensures ws != [] && ws[0] == w && Handles(ws, steps, s, kind, a)
  {
    var st := Call(a, Observing(s, kind));
    ws, steps := HandlingEnds([w, Apply(w, st)], [st], s, kind, a);
  }

  // ---------- a sequence of observations ----------

  /** Observation by observation, each handled to its end by an actor of its own. */
  ghost predicate Delivers(ws: seq<World>, steps: seq<Step>, s: SessionId, kinds: seq<EvidenceType>)
    decreases kinds, 1
  {
    && Stretch(ws, steps) && s in ws[0].session
    && if kinds == [] then steps == [] else exists k: nat, a :: DeliversLast(ws, steps, s, kinds, k, a)
  }

  /** ... the last of them from step k on. */
  ghost predicate DeliversLast(
      ws: seq<World>, steps: seq<Step>, s: SessionId, kinds: seq<EvidenceType>, k: nat, a: ActorId)
    requires kinds != []
    decreases kinds, 0
  {
    && k <= |steps| && |ws| == |steps| + 1
    && Delivers(ws[..k + 1], steps[..k], s, kinds[..|kinds| - 1])
    && Handles(ws[k..], steps[k..], s, kinds[|kinds| - 1], a)
  }

  /** Pending HIGH-risk actions matter in RCA_DONE only. */
  lemma ObserveLate(s: SessionId, status: Status, kind: EvidenceType, high: bool, other: bool)
    requires PastRouting(status)
    ensures Observe(s, status, kind, high) == Observe(s, status, kind, other)
  {
  }

  /** The step system does with a stream of observations what the big-step run does. */
  lemma {:induction false} DeliversAsFed(ws: seq<World>, steps: seq<Step>, s: SessionId, kinds: seq<EvidenceType>)
    requires Delivers(ws, steps, s, kinds)
    ensures var w, w' := ws[0], ws[|steps|];
      && s in w'.session && w.log <= w'.log
      && Outcome(w'.session[s], Calls(w'.log[|w.log|..])) == Feed(s, w.session[s], kinds, HighPending(w, s))
      && (HighPending(w', s) == HighPending(w, s) || PastRouting(w'.session[s]))
    decreases kinds
  {
    var w, w' := ws[0], ws[|steps|];
    if kinds == [] {
      assert w.log[|w.log|..] == [];
    } else {
      var last := |kinds| - 1;
      var k: nat, a :| DeliversLast(ws, steps, s, kinds, k, a);
      DeliversAsFed(ws[..k + 1], steps[..k], s, kinds[..last]);
      HandlesAsObserved(ws[k..], steps[k..], s, kinds[last], a);
      LogsJoin(w, ws[k], w');
      if PastRouting(ws[k].session[s]) {
        ObserveLate(s, ws[k].session[s], kinds[last], HighPending(ws[k], s), HighPending(w, s));
        ObserveRises(s, ws[k].session[s], kinds[last], HighPending(ws[k], s));
      }
    }
  }

  lemma ObserveRises(s: SessionId, status: Status, kind: EvidenceType, high: bool)
    requires PastRouting(status)
    ensures Observe(s, status, kind, high).status == status
  {
  }
}
