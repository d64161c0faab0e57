/** Each event is committed at most once per session, and only the actor whose own
  * commit was reported goes on to the side effect, so side effects run at most once.
  */
module Effects {
  import opened Domain
  import opened Lifecycle
  import opened Protocol
  import opened Locking

  /** The side effect an actor is about to start. */
  function Owed(pc: Pc): Option<Effect> {
    match pc
    case CollectCall(_) => Some(CollectFx)
    case AnalyzeCall(_) => Some(AnalyzeFx)
    case GateCall(_) => Some(GateFx)
    case ExecCall(_) => Some(ExecuteFx)
    case _ => None
  }

  /** The transition whose success entitles an actor to the effect. */
  function CauseEvent(fx: Effect): Event {
    match fx
    case CollectFx => StartCollect
    case AnalyzeFx => CollectComplete
    case GateFx => FixGenerated
    case ExecuteFx => Execute
  }

  function CauseStatus(fx: Effect): Status {
    match fx
    case CollectFx => Collecting
    case AnalyzeFx => Analyzing
    case GateFx => AwaitingApproval
    case ExecuteFx => FixExecuting
  }

  function Cause(s: SessionId, fx: Effect, a: ActorId): Mark {
    Committed(s, CauseEvent(fx), CauseStatus(fx), a)
  }

  /** Strangers may call ExecuteFixActions in an open system. */
  predicate Guarded(cfg: Config, fx: Effect) {
    fx == ExecuteFx ==> !cfg.strayExecute
  }

  ghost predicate OneCommitPerEvent(log: seq<Mark>) {
    forall i, j | 0 <= i < j < |log| && log[i].Committed? && log[j].Committed? ::
      !(log[i].sid == log[j].sid && log[i].event == log[j].event)
  }

  ghost predicate OneCallPerEffect(cfg: Config, log: seq<Mark>) {
    forall i, j | 0 <= i < j < |log| && log[i].Invoked? && log[j].Invoked? ::
      log[i].sid == log[j].sid && log[i].fx == log[j].fx ==> !Guarded(cfg, log[i].fx)
  }

  ghost predicate NotInvoked(log: seq<Mark>, s: SessionId, fx: Effect) {
    forall m | m in log && m.Invoked? :: !(m.sid == s && m.fx == fx)
  }

  /** Whoever owes an effect committed its cause, and nobody has run the effect. */
  ghost predicate Entitled(w: World, a: ActorId, pc: Pc) {
    Owed(pc).Some? && Guarded(w.cfg, Owed(pc).value) ==>
      && Cause(pc.sid, Owed(pc).value, a) in w.log
      && NotInvoked(w.log, pc.sid, Owed(pc).value)
  }

  ghost predicate EffectInv(w: World) {
    && OneCommitPerEvent(w.log)
    && OneCallPerEffect(w.cfg, w.log)
    && (forall m | m in w.log && m.Committed? :: m.sid in w.hist && Used(w.hist[m.sid], m.event))
    && (forall m | m in w.log && m.Invoked? && Guarded(w.cfg, m.fx) :: Cause(m.sid, m.fx, m.who) in w.log)
    && (forall a | a in w.actors :: Entitled(w, a, w.actors[a]))
  }

  lemma SameCommitter(log: seq<Mark>, m: Mark, n: Mark)
    requires OneCommitPerEvent(log) && m in log && n in log && m.Committed? && n.Committed?
    requires m.sid == n.sid && m.event == n.event
    ensures m == n
  {
    var i :| 0 <= i < |log| && log[i] == m;
    var j :| 0 <= j < |log| && log[j] == n;
    assert !(i < j) && !(j < i);
  }

  lemma SameCaller(cfg: Config, log: seq<Mark>, m: Mark, n: Mark)
    requires OneCallPerEffect(cfg, log) && m in log && n in log && m.Invoked? && n.Invoked?
    requires m.sid == n.sid && m.fx == n.fx && Guarded(cfg, m.fx)
    ensures m == n
  {
    var i :| 0 <= i < |log| && log[i] == m;
    var j :| 0 <= j < |log| && log[j] == n;
    assert !(i < j) && !(j < i);
  }

  /** A step outside Transition either runs the effect its actor owes, or none. */
  predicate EffectDelta(w: World, a: ActorId, d: Delta) {
    && (Owed(d.pc).Some? ==> !Guarded(w.cfg, Owed(d.pc).value))
    && match d.mark
       case None => true
       case Some(Committed(_, _, _, _)) => false
       case Some(Invoked(s, fx, who)) =>
         who == a && a in w.actors && Owed(w.actors[a]) == Some(fx) && w.actors[a].sid == s
       case Some(_) => true
  }

  lemma EffectsPatched(w: World, a: ActorId, d: Delta)
    requires EffectInv(w) && EffectDelta(w, a, d)
    ensures EffectInv(Patched(w, a, d))
  {
    var w' := Patched(w, a, d);
    forall b | b in w'.actors
      ensures Entitled(w', b, w'.actors[b])
    {
      if b != a && d.mark.Some? && d.mark.value.Invoked? {
        var pc := w.actors[b];
        if Owed(pc) == Some(d.mark.value.fx) && pc.sid == d.mark.value.sid && Guarded(w.cfg, d.mark.value.fx) {
          SameCommitter(w.log, Cause(pc.sid, d.mark.value.fx, a), Cause(pc.sid, d.mark.value.fx, b));
        }
      }
    }
  }

  lemma OwedAfterSuccess(s: SessionId, job: Job, seen: Status, next: Status)
    requires TableMove(seen, EventOf(job), next) && Owed(AfterSuccess(s, job, next)).Some?
    ensures var fx := Owed(AfterSuccess(s, job, next)).value;
      EventOf(job) == CauseEvent(fx) && next == CauseStatus(fx) && AfterSuccess(s, job, next).sid == s
  {
  }

  lemma CommitsStayUnique(log: seq<Mark>, h: seq<Move>, m: Mark)
    requires OneCommitPerEvent(log) && m.Committed? && TablePath(h) && TableMove(End(h), m.event, m.to)
    requires forall n | n in log && n.Committed? && n.sid == m.sid :: Used(h, n.event)
    ensures OneCommitPerEvent(log + [m])
    ensures forall n | n in log + [m] && n.Committed? && n.sid == m.sid ::
      Used(h + [Move(m.event, End(h), m.to)], n.event)
  {
    EventIsFresh(h, m.event, m.to);
    var h' := h + [Move(m.event, End(h), m.to)];
    assert h'[|h|].event == m.event;
    forall n | n in log && n.Committed? && n.sid == m.sid
      ensures Used(h', n.event)
    {
      var k :| 0 <= k < |h| && h[k].event == n.event;
      assert h'[k].event == n.event;
    }
  }

  /** A commit nobody has been rewarded for yet: the effect it pays for has not run. */
  lemma EffectStillOpen(w: World, s: SessionId, fx: Effect, t: Status)
    requires PathInv(w) && EffectInv(w) && s in w.session && Guarded(w.cfg, fx)
    requires TableMove(w.session[s], CauseEvent(fx), t)
    ensures NotInvoked(w.log, s, fx)
  {
    EventIsFresh(w.hist[s], CauseEvent(fx), t);
  }

  /** Whoever commits is entitled to the effect its commit causes. */
  lemma CommitterEntitled(w: World, a: ActorId, pc: Pc, reported: bool)
    requires LockInv(w) && PathInv(w) && EffectInv(w)
    requires a in w.actors && pc == w.actors[a] && TxEnabled(w, TxCommit(reported), pc)
    ensures var w' := Commit(w, a, pc, reported); Entitled(w', a, w'.actors[a])
  {
    var w' := Commit(w, a, pc, reported);
    if Owed(w'.actors[a]).Some? && reported {
      OwedAfterSuccess(pc.sid, pc.job, pc.phase.seen, pc.phase.next);
      var fx := Owed(w'.actors[a]).value;
      if Guarded(w.cfg, fx) { EffectStillOpen(w, pc.sid, fx, pc.phase.next); }
    }
  }

  lemma EffectsCommitted(w: World, a: ActorId, pc: Pc, reported: bool)
    requires LockInv(w) && PathInv(w) && EffectInv(w)
    requires a in w.actors && pc == w.actors[a] && TxEnabled(w, TxCommit(reported), pc)
    ensures EffectInv(Commit(w, a, pc, reported))
  {
    var w' := Commit(w, a, pc, reported);
    var m := Committed(pc.sid, EventOf(pc.job), pc.phase.next, a);
    CommitsStayUnique(w.log, w.hist[pc.sid], m);
    assert forall n | n in w'.log :: n in w.log || n == m;
    assert forall n | n in w.log :: n in w'.log;
    CommitterEntitled(w, a, pc, reported);
    forall b | b in w'.actors && b != a
      ensures Entitled(w', b, w'.actors[b])
    {
      assert Entitled(w, b, w.actors[b]);
    }
  }

  lemma EffectDeltas(w: World, st: Step)
    requires Enabled(w, st) && Patches(st)
    ensures EffectDelta(w, st.a, DeltaOf(w, st))
  {
    match st
    case InGate(_, _) =>
    case InExec(_, _) =>
    case InDecide(_, _) =>
    case _ =>
  }

  lemma EffectsKept(w: World, st: Step)
    requires LockInv(w) && PathInv(w) && EffectInv(w) && Enabled(w, st)
    ensures EffectInv(Apply(w, st))
  {
    if IsCommit(st) {
      EffectsCommitted(w, st.a, w.actors[st.a], st.tx.reported);
    } else if Patches(st) {
      EffectDeltas(w, st);
      EffectsPatched(w.(lock := LockOf(w, st)), st.a, DeltaOf(w, st));
    }
  }
}
