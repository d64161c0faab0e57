/** Row locks make tryTransition atomic: the fine-grained begin / lock / read /
  * update / commit steps refine a machine whose only move is one row of the
  * transition table.
  */
module Locking {
  import opened Domain
  import opened Lifecycle
  import opened Protocol

  /** A transaction past its SELECT owns the row, and what it read still stands. */
  ghost predicate OwnsRow(w: World, a: ActorId, pc: Pc)
    requires Holds(pc)
  {
    && pc.sid in w.session && pc.sid in w.lock && w.lock[pc.sid] == a
    && pc.phase.seen == w.session[pc.sid]
    && (!pc.phase.Holding? ==> TableMove(pc.phase.seen, EventOf(pc.job), pc.phase.next))
  }

  ghost predicate LockInv(w: World) {
    && w.session.Keys == w.hist.Keys
    && (forall a | a in w.actors && Holds(w.actors[a]) :: OwnsRow(w, a, w.actors[a]))
    && (forall s | s in w.lock ::
          w.lock[s] in w.actors && Holds(w.actors[w.lock[s]]) && w.actors[w.lock[s]].sid == s)
  }

  ghost predicate PathInv(w: World) {
    forall s | s in w.session :: s in w.hist && TablePath(w.hist[s]) && End(w.hist[s]) == w.session[s]
  }

  /** A statement outside Transition touches neither locks nor session rows. */
  lemma LocksPatched(w: World, a: ActorId, d: Delta)
    requires LockInv(w)
    requires !Holds(d.pc) && (a in w.actors ==> !Holds(w.actors[a]))
    ensures LockInv(Patched(w, a, d))
  {
  }

  lemma LocksCommitted(w: World, a: ActorId, pc: Pc, reported: bool)
    requires LockInv(w) && a in w.actors && pc == w.actors[a] && TxEnabled(w, TxCommit(reported), pc)
    ensures LockInv(Commit(w, a, pc, reported))
  {
  }

  lemma LocksKeptInTx(w: World, a: ActorId, pc: Pc, tx: TxAct)
    requires LockInv(w) && a in w.actors && pc == w.actors[a] && TxEnabled(w, tx, pc) && !tx.TxCommit?
    ensures LockInv(Patched(w.(lock := LockAfter(w, a, tx, pc)), a, TxDelta(w, a, tx, pc)))
  {
    match tx
    case TxChoose =>
    case TxLock =>
    case _ =>
  }

  lemma LocksKept(w: World, st: Step)
    requires LockInv(w) && Enabled(w, st)
    ensures LockInv(Apply(w, st))
  {
    if IsCommit(st) {
      LocksCommitted(w, st.a, w.actors[st.a], st.tx.reported);
    } else if st.InTx? {
      LocksKeptInTx(w, st.a, w.actors[st.a], st.tx);
    } else if Patches(st) && !st.Die? {
      LocksPatched(w, st.a, DeltaOf(w, st));
    }
  }

  /** Every committed status is the table successor of the one committed before. */
  lemma PathsCommitted(w: World, a: ActorId, pc: Pc, reported: bool)
    requires LockInv(w) && PathInv(w)
    requires a in w.actors && pc == w.actors[a] && TxEnabled(w, TxCommit(reported), pc)
    ensures PathInv(Commit(w, a, pc, reported))
  {
    PathExtends(w.hist[pc.sid], EventOf(pc.job), pc.phase.next);
  }

  lemma PathsFramed(w: World, w': World)
    requires PathInv(w) && w'.session == w.session && w'.hist == w.hist
    ensures PathInv(w')
  {
  }

  lemma PathsKept(w: World, st: Step)
    requires LockInv(w) && PathInv(w) && Enabled(w, st)
    ensures PathInv(Apply(w, st))
  {
    if IsCommit(st) {
      PathsCommitted(w, st.a, w.actors[st.a], st.tx.reported);
    } else if !st.CreateSession? {
      PathsFramed(w, Apply(w, st));
    }
  }
}
