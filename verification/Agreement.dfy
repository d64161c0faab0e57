/** When the approvals table and the fix_actions table show the same approval status. The
  * handlers write the two in separate statements, so the question is which steps, once
  * taken, can end in disagreement.
  */
module Agreement {
  import opened Domain
  import opened Protocol
  import opened Approvals
  import opened Safety

  /** The second half of a pair of writes, begun and not yet done. */
  datatype Write = Write(fix: FixId, value: ApprovalStatus)

  function Begun(pc: Pc): Option<Write> {
    if pc.GateMark? && pc.todo != [] then Some(Write(pc.todo[0], Pending))
    else if pc.DecideMark? then Some(Write(pc.fix, Verdict(pc.approve)))
    else None
  }

  predicate Writes(w: World, a: ActorId, f: FixId) {
    a in w.actors && Begun(w.actors[a]).Some? && Begun(w.actors[a]).value.fix == f
  }

  function Value(w: World, a: ActorId): ApprovalStatus
    requires a in w.actors && Begun(w.actors[a]).Some?
  {
    Begun(w.actors[a]).value.value
  }

  ghost predicate BeingWritten(w: World, f: FixId) { exists a :: Writes(w, a, f) }

  /** However the writes that have begun on the row's action complete, the two tables agree. */
  ghost predicate Converges(w: World, row: ApprovalRow) {
    && row.fix in w.fix
    && (forall a | Writes(w, a, row.fix) :: Value(w, a) == row.status)
    && (BeingWritten(w, row.fix) || Agrees(w.fix, row))
  }

  ghost predicate Tidy(w: World) { forall x | x in w.approvals :: Converges(w, w.approvals[x]) }

  // ---------- the steps that break it ----------

  /** Nobody but a is about to write the action. */
  ghost predicate Alone(w: World, a: ActorId, f: FixId) { forall b | b != a :: !Writes(w, b, f) }

  /** a goes away without the write it began, and nobody else makes up for it. */
  ghost predicate LeavesUndone(w: World, a: ActorId) {
    exists x | x in w.approvals ::
      var row := w.approvals[x];
      Writes(w, a, row.fix) && Alone(w, a, row.fix) && !Agrees(w.fix, row)
  }

  /** Somebody else has begun to write another value. */
  ghost predicate Clashes(w: World, a: ActorId, f: FixId, v: ApprovalStatus) {
    exists b | b != a && Writes(w, b, f) :: Value(w, b) != v
  }

  /** The action does not show the value, and nobody else is about to write it. */
  ghost predicate Unmatched(w: World, a: ActorId, f: FixId, v: ApprovalStatus) {
    Alone(w, a, f) && !(f in w.fix && w.fix[f].approval == v)
  }

  /** A row is written: what others have begun must fit, and if the handler does not go on
    * to the action, the action must fit already. */
  ghost predicate RowBreaks(w: World, a: ActorId, f: FixId, v: ApprovalStatus, reported: bool) {
    Clashes(w, a, f, v) || (!reported && Unmatched(w, a, f, v))
  }

  ghost predicate Breaks(w: World, st: Step)
    requires Enabled(w, st)
  {
    match st
    case Die(a) => LeavesUndone(w, a)
    case InGate(a, gate) =>
      match gate {
        case GateInsert(_, reported) => RowBreaks(w, a, w.actors[a].todo[0], Pending, reported)
        case GatePending(took) => !took && LeavesUndone(w, a)
        case _ => false
      }
    case InDecide(a, decide) =>
      match decide {
        case DecideRow(took, reported) =>
          var pc := w.actors[a];
          took && RowBreaks(w, a, w.approvals[pc.row].fix, Verdict(pc.approve), reported)
        case DecideFix(took) => !took && LeavesUndone(w, a)
      }
    case _ => false
  }

  // ---------- families of steps ----------

  predicate SameApproval(fix: map<FixId, FixRow>, fix': map<FixId, FixRow>) {
    forall f | f in fix :: f in fix' && fix'[f].approval == fix[f].approval
  }

  /** Nothing about approvals is written, and nothing is begun or given up. */
  lemma Untouched(w: World, w': World, a: ActorId)
    requires Tidy(w) && w'.approvals == w.approvals && SameApproval(w.fix, w'.fix)
    requires forall b | b != a :: b in w'.actors <==> b in w.actors
    requires forall b | b in w.actors && b != a :: w'.actors[b] == w.actors[b]
    requires forall f :: !Writes(w, a, f) && !Writes(w', a, f)
    ensures Tidy(w')
  {
    forall x | x in w'.approvals
      ensures Converges(w', w'.approvals[x])
    {
      var row := w.approvals[x];
      assert Converges(w, row);
      assert forall b :: Writes(w', b, row.fix) <==> Writes(w, b, row.fix);
    }
  }

  /** A write that had begun is done. */
  lemma Completed(w: World, w': World, a: ActorId, pc: Pc, f: FixId, v: ApprovalStatus)
    requires Tidy(w) && a in w.actors && Begun(w.actors[a]) == Some(Write(f, v)) && Begun(pc) == None
    requires w'.actors == w.actors[a := pc] && w'.approvals == w.approvals && f in w.fix
    requires w'.fix == w.fix[f := w.fix[f].(approval := v)]
    ensures Tidy(w')
  {
    forall x | x in w'.approvals
      ensures Converges(w', w'.approvals[x])
    {
      var row := w.approvals[x];
      assert Converges(w, row);
      assert forall b | b != a :: Writes(w', b, row.fix) <==> Writes(w, b, row.fix);
      if row.fix == f { assert Writes(w, a, f) && Value(w, a) == v; }
    }
  }

  /** A write that had begun is given up. */
  lemma GivenUp(w: World, w': World, a: ActorId, pc: Pc)
    requires Tidy(w) && a in w.actors && Begun(w.actors[a]).Some? && Begun(pc) == None
    requires w'.actors == w.actors[a := pc] && w'.approvals == w.approvals && w'.fix == w.fix
    ensures Tidy(w') <==> !LeavesUndone(w, a)
  {
    forall x | x in w.approvals
      ensures var row := w.approvals[x];
        Converges(w', row) <==> !(Writes(w, a, row.fix) && Alone(w, a, row.fix) && !Agrees(w.fix, row))
    {
      var row := w.approvals[x];
      assert Converges(w, row);
      assert forall b | b != a :: Writes(w', b, row.fix) <==> Writes(w, b, row.fix);
      assert !Writes(w', a, row.fix);
    }
  }

  /** Row x of the action f is written; its author goes on to the action or not. */
  lemma RowWritten(
      w: World, w': World, a: ActorId, pc: Pc, x: ApprovalId, f: FixId, v: ApprovalStatus, reported: bool)
    requires Tidy(w) && a in w.actors && Begun(w.actors[a]) == None && f in w.fix
    requires Begun(pc) == if reported then Some(Write(f, v)) else None
    requires w'.actors == w.actors[a := pc] && w'.fix == w.fix
    requires x in w'.approvals && w'.approvals[x].fix == f && w'.approvals[x].status == v
    requires forall y | y != x :: y in w'.approvals <==> y in w.approvals
    requires forall y | y in w.approvals && y != x :: w'.approvals[y] == w.approvals[y] && w.approvals[y].fix != f
    ensures Tidy(w') <==> !RowBreaks(w, a, f, v, reported)
  {
    assert forall b, g | b != a :: Writes(w', b, g) <==> Writes(w, b, g);
    forall y | y in w'.approvals && y != x
      ensures Converges(w', w'.approvals[y])
    {
      assert Converges(w, w.approvals[y]);
      assert !Writes(w', a, w.approvals[y].fix);
    }
    assert Writes(w', a, f) <==> reported;
    assert Converges(w', w'.approvals[x]) <==> !RowBreaks(w, a, f, v, reported);
  }

  // ---------- every step ----------

  lemma TidyAtGate(w: World, w': World, a: ActorId, gate: GateAct)
    requires ApprovalInv(w) && Tidy(w) && a in w.actors && GateEnabled(w, gate, w.actors[a])
    requires w' == Patched(w, a, GateStep(w, a, gate, w.actors[a]))
    ensures Tidy(w') <==> !Breaks(w, InGate(a, gate))
  {
    var pc := w.actors[a];
    assert PcOk(w, a, pc);
    match gate
    case GateInsert(x, reported) =>
      TidyAtInsert(w, w', a, x, reported);
    case GatePending(took) =>
      var d := GateStep(w, a, gate, pc);
      if took { Completed(w, w', a, d.pc, pc.todo[0], Pending); } else { GivenUp(w, w', a, d.pc); }
    case GateOpen => Untouched(w, w', a);
    case GateList(_) => Untouched(w, w', a);
    case GateSkip => Untouched(w, w', a);
  }

  lemma TidyAtInsert(w: World, w': World, a: ActorId, x: ApprovalId, reported: bool)
    requires ApprovalInv(w) && Tidy(w) && a in w.actors && GateEnabled(w, GateInsert(x, reported), w.actors[a])
    requires w' == Patched(w, a, GateStep(w, a, GateInsert(x, reported), w.actors[a]))
    ensures Tidy(w') <==> !RowBreaks(w, a, w.actors[a].todo[0], Pending, reported)
  {
    var pc := w.actors[a];
    assert PcOk(w, a, pc);
    assert pc.todo[0] in Unasked(pc);
    RowWritten(w, w', a, w'.actors[a], x, pc.todo[0], Pending, reported);
  }

  lemma TidyAtDecision(w: World, w': World, a: ActorId, decide: DecideAct)
    requires ApprovalInv(w) && Tidy(w) && a in w.actors && DecideEnabled(w, decide, w.actors[a])
    requires w' == Patched(w, a, DecideStep(w, a, decide, w.actors[a]))
    ensures Tidy(w') <==> !Breaks(w, InDecide(a, decide))
  {
    var pc := w.actors[a];
    var d := DecideStep(w, a, decide, pc);
    match decide
    case DecideRow(took, reported) =>
      if took {
        assert Converges(w, w.approvals[pc.row]);
        RowWritten(w, w', a, d.pc, pc.row, w.approvals[pc.row].fix, Verdict(pc.approve), reported);
      } else {
        Untouched(w, w', a);
      }
    case DecideFix(took) =>
      if took { Completed(w, w', a, d.pc, pc.fix, Verdict(pc.approve)); } else { GivenUp(w, w', a, d.pc); }
  }

  /** The steps that have nothing to do with the pair of tables. */
  predicate Indifferent(st: Step) { !st.InGate? && !st.InDecide? && !st.Die? }

  predicate IndifferentDelta(w: World, a: ActorId, d: Delta) {
    && d.approvals == w.approvals && SameApproval(w.fix, d.fix) && Begun(d.pc) == None
    && (a in w.actors ==> Begun(w.actors[a]) == None)
  }

  lemma IndifferentTx(w: World, a: ActorId, tx: TxAct)
    requires a in w.actors && TxEnabled(w, tx, w.actors[a]) && !tx.TxCommit?
    ensures IndifferentDelta(w, a, TxDelta(w, a, tx, w.actors[a]))
  {
    match tx
    case TxChoose =>
    case _ =>
  }

  lemma IndifferentExec(w: World, a: ActorId, exec: ExecAct)
    requires a in w.actors && ExecEnabled(w, exec, w.actors[a])
    ensures IndifferentDelta(w, a, ExecStep(w, a, exec, w.actors[a]))
  {
    match exec
    case ExecOpen =>
    case ExecList(_, _) =>
    case ExecBegin(_) =>
    case ExecDo(_) =>
    case ExecEnd(_) =>
    case ExecFinish =>
  }

  lemma IndifferentDeltas(w: World, st: Step)
    requires Enabled(w, st) && Indifferent(st) && Patches(st)
    ensures IndifferentDelta(w, st.a, DeltaOf(w, st))
  {
    match st
    case InTx(a, tx) => IndifferentTx(w, a, tx);
    case InExec(a, exec) => IndifferentExec(w, a, exec);
    case Call(_, _) =>
    case ReadStatus(_) =>
    case Dispatch(_) =>
    case VerifyList(_, _) =>
  }

  lemma TidyAtCommit(w: World, a: ActorId, pc: Pc, reported: bool)
    requires Tidy(w) && a in w.actors && pc == w.actors[a] && TxEnabled(w, TxCommit(reported), pc)
    ensures Tidy(Commit(w, a, pc, reported))
  {
    Untouched(w, Commit(w, a, pc, reported), a);
  }

  lemma TidyPatched(w: World, a: ActorId, d: Delta, lock: map<SessionId, ActorId>)
    requires Tidy(w) && IndifferentDelta(w, a, d)
    ensures Tidy(Patched(w.(lock := lock), a, d))
  {
    Untouched(w, Patched(w.(lock := lock), a, d), a);
  }

  lemma TidyElsewhere(w: World, st: Step)
    requires Tidy(w) && Enabled(w, st) && Indifferent(st)
    ensures Tidy(Apply(w, st)) && !Breaks(w, st)
  {
    if IsCommit(st) {
      TidyAtCommit(w, st.a, w.actors[st.a], st.tx.reported);
    } else if Patches(st) {
      IndifferentDeltas(w, st);
      TidyPatched(w, st.a, DeltaOf(w, st), LockOf(w, st));
    } else {
      var w' := Apply(w, st);
      forall x | x in w'.approvals
        ensures Converges(w', w'.approvals[x])
      {
        assert Converges(w, w.approvals[x]);
        assert forall b, f :: Writes(w', b, f) <==> Writes(w, b, f);
      }
    }
  }

  /** From a tidy world a step leads to a tidy one exactly when it is not a breaking one. */
  lemma TidyIffUnbroken(w: World, st: Step)
    requires ApprovalInv(w) && Tidy(w) && Enabled(w, st)
    ensures Tidy(Apply(w, st)) <==> !Breaks(w, st)
  {
    if st.InGate? {
      TidyAtGate(w, Apply(w, st), st.a, st.gate);
    } else if st.InDecide? {
      TidyAtDecision(w, Apply(w, st), st.a, st.decide);
    } else if st.Die? {
      var w' := Apply(w, st);
      if Begun(w.actors[st.a]).Some? {
        GivenUp(w, w', st.a, Gone);
      } else {
        Untouched(w, w', st.a);
      }
    } else {
      TidyElsewhere(w, st);
    }
  }

  // ---------- whole runs ----------

  ghost predicate UnbrokenUpTo(ws: seq<World>, steps: seq<Step>, n: nat)
    requires Run(ws, steps) && n <= |steps|
  {
    forall i | 0 <= i < n :: !Breaks(ws[i], steps[i])
  }

  /** As long as no step breaks it, every world is tidy, and every row whose action nobody
    * is writing agrees with it. */
  lemma {:induction false} UnbrokenStaysInStep(ws: seq<World>, steps: seq<Step>, n: nat)
    requires Run(ws, steps) && n < |ws| && UnbrokenUpTo(ws, steps, n)
    ensures Tidy(ws[n])
    ensures forall x | x in ws[n].approvals && !BeingWritten(ws[n], ws[n].approvals[x].fix) ::
      Agrees(ws[n].fix, ws[n].approvals[x])
  {
    if n > 0 {
      UnbrokenStaysInStep(ws, steps, n - 1);
      Reachable(ws, steps, n - 1);
      TidyIffUnbroken(ws[n - 1], steps[n - 1]);
    }
    assert forall x | x in ws[n].approvals :: Converges(ws[n], ws[n].approvals[x]);
  }

  /** A step that does a write that had begun, and nothing else. */
  predicate Completes(st: Step) {
    (st.InGate? && st.gate == GatePending(true)) || (st.InDecide? && st.decide == DecideFix(true))
  }

  /** The longer run only completes writes begun in the shorter one. */
  ghost predicate Completion(ws: seq<World>, steps: seq<Step>, ws': seq<World>, steps': seq<Step>) {
    && Run(ws', steps') && ws <= ws' && steps <= steps'
    && forall i | |steps| <= i < |steps'| :: Completes(steps'[i])
  }

  /** Row x disagrees with its action and nobody is about to change either. */
  ghost predicate OutOfStep(w: World, x: ApprovalId) {
    x in w.approvals && !BeingWritten(w, w.approvals[x].fix) && !Agrees(w.fix, w.approvals[x])
  }

  lemma RunExtends(ws: seq<World>, steps: seq<Step>, st: Step)
    requires Run(ws, steps) && Enabled(ws[|steps|], st)
    ensures Run(ws + [Apply(ws[|steps|], st)], steps + [st])
  {
    var ws', steps' := ws + [Apply(ws[|steps|], st)], steps + [st];
    forall i | 0 <= i < |steps'|
      ensures Enabled(ws'[i], steps'[i]) && ws'[i + 1] == Apply(ws'[i], steps'[i])
    {
      assert ws'[i] == ws[i];
      if i < |steps| { assert ws'[i + 1] == ws[i + 1] && steps'[i] == steps[i]; }
    }
  }

  ghost function Writers(w: World, f: FixId): set<ActorId> { set a | a in w.actors && Writes(w, a, f) }

  function CompletingStep(w: World, a: ActorId): Step
    requires a in w.actors && Begun(w.actors[a]).Some?
  {
    if w.actors[a].GateMark? then InGate(a, GatePending(true)) else InDecide(a, DecideFix(true))
  }

  /** What completing does. */
  lemma CompletingStepDoes(w: World, a: ActorId)
    requires a in w.actors && Begun(w.actors[a]).Some? && Begun(w.actors[a]).value.fix in w.fix
    ensures var st, wr := CompletingStep(w, a), Begun(w.actors[a]).value;
      && Enabled(w, st)
      && var w' := Apply(w, st);
         && w'.approvals == w.approvals && w'.fix == w.fix[wr.fix := w.fix[wr.fix].(approval := wr.value)]
         && a in w'.actors && Begun(w'.actors[a]) == None && w'.actors == w.actors[a := w'.actors[a]]
  {
  }

  lemma WriterGone(w: World, w': World, a: ActorId, f: FixId)
    requires Writes(w, a, f) && a in w'.actors && Begun(w'.actors[a]) == None
    requires w'.actors == w.actors[a := w'.actors[a]]
    ensures Writers(w', f) == Writers(w, f) - {a}
    ensures forall b | b != a :: Writes(w', b, f) <==> Writes(w, b, f)
  {
  }

  /** The writer whose turn can come while the row stays bound for disagreement: anybody
    * while another one has begun the wrong value, that one last. */
  lemma NextWriter(w: World, row: ApprovalRow) returns (a: ActorId)
    requires row.fix in w.fix && !Converges(w, row) && BeingWritten(w, row.fix)
    ensures Writes(w, a, row.fix)
    ensures || (exists b | b != a && Writes(w, b, row.fix) :: Value(w, b) != row.status)
            || (Value(w, a) != row.status && Alone(w, a, row.fix))
  {
    var bad :| Writes(w, bad, row.fix) && Value(w, bad) != row.status;
    if b :| b != bad && Writes(w, b, row.fix) { a := b; } else { a := bad; }
  }

  lemma TurnKeepsDivergence(w: World, w': World, row: ApprovalRow, a: ActorId)
    requires row.fix in w.fix && Writes(w, a, row.fix) && a in w'.actors && Begun(w'.actors[a]) == None
    requires w'.actors == w.actors[a := w'.actors[a]]
    requires w'.fix == w.fix[row.fix := w.fix[row.fix].(approval := Value(w, a))]
    requires || (exists b | b != a && Writes(w, b, row.fix) :: Value(w, b) != row.status)
             || (Value(w, a) != row.status && Alone(w, a, row.fix))
    ensures !Converges(w', row)
  {
    WriterGone(w, w', a, row.fix);
    if b :| b != a && Writes(w, b, row.fix) && Value(w, b) != row.status {
      assert Writes(w', b, row.fix) && Value(w', b) != row.status;
    } else {
      assert !BeingWritten(w', row.fix);
    }
  }

  lemma Turn(w: World, row: ApprovalRow) returns (st: Step)
    requires row.fix in w.fix && !Converges(w, row) && BeingWritten(w, row.fix)
    ensures Enabled(w, st) && Completes(st) && Apply(w, st).approvals == w.approvals
    ensures !Converges(Apply(w, st), row) && |Writers(Apply(w, st), row.fix)| < |Writers(w, row.fix)|
  {
    var a := NextWriter(w, row);
    st := CompletingStep(w, a);
    CompletingStepDoes(w, a);
    WriterGone(w, Apply(w, st), a, row.fix);
    assert a in Writers(w, row.fix);
    TurnKeepsDivergence(w, Apply(w, st), row, a);
  }

  lemma CompletionGoesOn(
      ws: seq<World>, steps: seq<Step>, w: World, st: Step, ws': seq<World>, steps': seq<Step>)
    requires Completes(st) && Completion(ws + [w], steps + [st], ws', steps')
    ensures Completion(ws, steps, ws', steps')
  {
    assert ws <= ws + [w] && steps <= steps + [st];
    assert steps'[|steps|] == (steps + [st])[|steps|];
  }

  /** From a world that is not tidy the writes already begun can complete so that a row and
    * its action disagree with nobody left to write. */
  lemma {:induction false} UntidyDiverges(ws: seq<World>, steps: seq<Step>, x: ApprovalId)
      returns (ws': seq<World>, steps': seq<Step>)
    requires Run(ws, steps) && x in ws[|steps|].approvals && !Converges(ws[|steps|], ws[|steps|].approvals[x])
    ensures Completion(ws, steps, ws', steps') && OutOfStep(ws'[|steps'|], x)
    decreases |Writers(ws[|steps|], ws[|steps|].approvals[x].fix)|
  {
    var w := ws[|steps|];
    Reachable(ws, steps, |steps|);
    if !BeingWritten(w, w.approvals[x].fix) {
      ws', steps' := ws, steps;
    } else {
      var st := Turn(w, w.approvals[x]);
      RunExtends(ws, steps, st);
      ws', steps' := UntidyDiverges(ws + [Apply(w, st)], steps + [st], x);
      CompletionGoesOn(ws, steps, Apply(w, st), st, ws', steps');
    }
  }

  lemma CompletionsNeverBreak(w: World, st: Step)
    requires Enabled(w, st) && Completes(st)
    ensures !Breaks(w, st)
  {
  }

  /** The exact condition: a run in which nothing has broken so far can end, by completing
    * what has begun, with a row and an action that disagree and nobody left to write, if and
    * only if its last step is a breaking one. */
  lemma OutOfStepIffBroken(ws: seq<World>, steps: seq<Step>)
    requires Run(ws, steps) && |steps| > 0 && UnbrokenUpTo(ws, steps, |steps| - 1)
    ensures Breaks(ws[|steps| - 1], steps[|steps| - 1]) <==>
      exists ws', steps', x :: Completion(ws, steps, ws', steps') && OutOfStep(ws'[|steps'|], x)
  {
    var last := |steps| - 1;
    UnbrokenStaysInStep(ws, steps, last);
    Reachable(ws, steps, last);
    TidyIffUnbroken(ws[last], steps[last]);
    if Breaks(ws[last], steps[last]) {
      var x :| x in ws[|steps|].approvals && !Converges(ws[|steps|], ws[|steps|].approvals[x]);
      var ws', steps' := UntidyDiverges(ws, steps, x);
    } else {
      forall ws', steps', x | Completion(ws, steps, ws', steps')
        ensures !OutOfStep(ws'[|steps'|], x)
      {
        CompletionStaysInStep(ws, steps, ws', steps');
      }
    }
  }

  lemma CompletionStaysInStep(ws: seq<World>, steps: seq<Step>, ws': seq<World>, steps': seq<Step>)
    requires Run(ws, steps) && UnbrokenUpTo(ws, steps, |steps|) && Completion(ws, steps, ws', steps')
    ensures forall x :: !OutOfStep(ws'[|steps'|], x)
  {
    forall i | 0 <= i < |steps'|
      ensures !Breaks(ws'[i], steps'[i])
    {
      if i < |steps| {
        assert ws'[i] == ws[i] && steps'[i] == steps[i];
      } else {
        CompletionsNeverBreak(ws'[i], steps'[i]);
      }
    }
    UnbrokenStaysInStep(ws', steps', |steps'|);
  }

  // ---------- the condition in everyday terms ----------

  /** No other actor has begun to write the action. */
  ghost predicate NoOverlap(w: World, st: Step)
    requires Enabled(w, st)
  {
    && (st.InGate? && st.gate.GateInsert? ==> Alone(w, st.a, w.actors[st.a].todo[0]))
    && (st.InDecide? && st.decide.DecideRow? ==> Alone(w, st.a, w.approvals[w.actors[st.a].row].fix))
  }

  /** No write that took effect reports failure. */
  predicate NoFalseAlarm(st: Step) {
    && (st.InGate? && st.gate.GateInsert? ==> st.gate.reported)
    && (st.InDecide? && st.decide.DecideRow? && st.decide.took ==> st.decide.reported)
  }

  /** Nobody dies between its two writes. */
  predicate NoHalfDeath(w: World, st: Step) {
    st.Die? && st.a in w.actors ==> Begun(w.actors[st.a]) == None
  }

  /** No second write is lost, nor left out because the read before it failed. */
  predicate NoLostWrite(st: Step) {
    && (st.InGate? && st.gate.GatePending? ==> st.gate.took)
    && (st.InDecide? && st.decide.DecideFix? ==> st.decide.took)
  }

  /** With all four a step never breaks the agreement. */
  lemma OrderlyStepsDoNotBreak(w: World, st: Step)
    requires Enabled(w, st) && NoOverlap(w, st) && NoFalseAlarm(st) && NoHalfDeath(w, st) && NoLostWrite(st)
    ensures !Breaks(w, st)
  {
  }

  /** So without lost writes, overlaps, false alarms and half deaths every row shows the
    * status of its action whenever nobody is between two writes. */
  lemma OrderlyRunsStayInStep(ws: seq<World>, steps: seq<Step>, n: nat)
    requires Run(ws, steps) && n < |ws| && ws[0].cfg.writesLand
    requires forall i | 0 <= i < |steps| ::
      NoOverlap(ws[i], steps[i]) && NoFalseAlarm(steps[i]) && NoHalfDeath(ws[i], steps[i])
    requires forall f :: !BeingWritten(ws[n], f)
    ensures forall x | x in ws[n].approvals :: Agrees(ws[n].fix, ws[n].approvals[x])
  {
    forall i | 0 <= i < n
      ensures !Breaks(ws[i], steps[i])
    {
      Reachable(ws, steps, i);
      OrderlyStepsDoNotBreak(ws[i], steps[i]);
    }
    UnbrokenStaysInStep(ws, steps, n);
  }
}
