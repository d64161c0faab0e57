/** What one observation does to a session for every way the database can behave, and
  * how that relates to the undisturbed run.
  */
module Reactions {
  import opened Domain
  import opened Lifecycle
  import opened Workflow
  import P = Protocol
  import Solo

  /** ok is whether handleObservation returns without an error. */
  datatype Reaction = Reaction(ok: bool, status: Status, effects: seq<P.Effect>)

  /** One call of Transition on an existing row: what it returns and where it leaves the row. */
  datatype Went = Went(result: TxResult, status: Status)

  function Goes(status: Status, e: Event, high: bool, env: Replies): Went {
    var t := Retried(Some(status), e, high, env, 0);
    Went(t.result, if t.row.Some? then t.row.value else status)
  }

  /** Execution returns early when a read fails; its errors are only logged. */
  function Executing(after: bool, env: nat -> Replies, readable: bool): Reaction {
    Reaction(true, if readable then Goes(FixExecuting, ExecuteComplete, after, env(3)).status else FixExecuting,
             [P.ExecuteFx])
  }

  function Suggested(high: bool, after: bool, env: nat -> Replies, readable: bool): Reaction {
    var t := Goes(FixSuggested, Execute, high, env(2));
    if t.result.Moved? then Executing(after, env, readable) else Reaction(t.result.Invalid?, t.status, [])
  }

  function Proposed(high: bool, after: bool, env: nat -> Replies, readable: bool): Reaction {
    var t := Goes(FixProposed, FixGenerated, high, env(1));
    if !t.result.Moved? then Reaction(t.result.Invalid?, t.status, [])
    else if high then Reaction(true, AwaitingApproval, [P.GateFx])
    else Suggested(high, after, env, readable)
  }

  function Analyzed(high: bool, after: bool, env: nat -> Replies, readable: bool): Reaction {
    var t := Goes(RcaDone, RcaGenerated, high, env(0));
    if t.result.Moved? then Proposed(high, after, env, readable) else Reaction(false, t.status, [])
  }

  /** high and after tell whether HIGH-risk actions are pending now and after execution;
    * env(i) are the replies to the i-th Transition, and readable says whether ExecuteFixActions
    * gets what it reads. */
  function React(
      status: Status, kind: EvidenceType, high: bool, after: bool, env: nat -> Replies, readable: bool): Reaction
  {
    if status == Collecting && (kind.LogEvidence? || kind.MetricEvidence? || kind.TraceEvidence?) then
      var t := Goes(Collecting, CollectComplete, high, env(0));
      Reaction(t.result.Moved?, t.status, if t.result.Moved? then [P.AnalyzeFx] else [])
    else if status == Analyzing && kind.RcaResult? then
      var t := Goes(Analyzing, AnalysisComplete, high, env(0));
      Reaction(t.result.Moved?, t.status, [])
    else if status == RcaDone && kind.FixAction? then
      Analyzed(high, after, env, readable)
    else
      Reaction(true, status, [])
  }

  // ---------- one Transition ----------

  lemma GoesUp(status: Status, e: Event, high: bool, env: Replies)
    ensures var t := Goes(status, e, high, env);
      && (t.status == status || Rank(status) < Rank(t.status))
      && (t.result.Moved? ==> Successor(status, e, high) == Some(t.result.status) == Some(t.status))
    ensures Retried(Some(status), e, high, env, 0).row == Some(Goes(status, e, high, env).status)
  {
    RetryMovesOnce(Some(status), e, high, env, 0);
    if Successor(status, e, high).Some? { SuccessorRises(status, e, high); }
  }

  lemma SuccessorRises(status: Status, e: Event, high: bool)
    requires Successor(status, e, high).Some?
    ensures Rank(status) < Rank(Successor(status, e, high).value)
  {
    MoveRaisesRank(status, e, Successor(status, e, high).value);
  }

  lemma GoesWhenItLands(status: Status, e: Event, high: bool, env: Replies)
    requires env(0) == Lands && Successor(status, e, high).Some?
    ensures Goes(status, e, high, env) ==
      Went(Moved(Successor(status, e, high).value), Successor(status, e, high).value)
  {
  }

  // ---------- one observation ----------

  lemma ProposedUp(high: bool, after: bool, env: nat -> Replies, readable: bool)
    ensures Rank(FixProposed) <= Rank(Proposed(high, after, env, readable).status)
  {
    GoesUp(FixProposed, FixGenerated, high, env(1));
    GoesUp(FixSuggested, Execute, high, env(2));
    GoesUp(FixExecuting, ExecuteComplete, after, env(3));
  }

  /** Whatever the database does, an observation leaves the session where it is or moves
    * it forward. */
  lemma NeverBackwards(
      status: Status, kind: EvidenceType, high: bool, after: bool, env: nat -> Replies, readable: bool)
    ensures var r := React(status, kind, high, after, env, readable);
      r.status == status || Rank(status) < Rank(r.status)
  {
    GoesUp(Collecting, CollectComplete, high, env(0));
    GoesUp(Analyzing, AnalysisComplete, high, env(0));
    GoesUp(RcaDone, RcaGenerated, high, env(0));
    ProposedUp(high, after, env, readable);
  }

  /** An observation whose handling fails, and which is delivered again, has had no side
    * effect; one that succeeds has at most one. */
  lemma ErrorsHaveNoEffect(
      status: Status, kind: EvidenceType, high: bool, after: bool, env: nat -> Replies, readable: bool)
    ensures var r := React(status, kind, high, after, env, readable);
      |r.effects| <= 1 && (!r.ok ==> r.effects == [])
  {
  }

  /** The analysis is dispatched exactly for evidence in COLLECTING whose first transaction
    * to leave a trace committed and said so. */
  lemma WhenAnalysisIsDispatched(
      status: Status, kind: EvidenceType, high: bool, after: bool, env: nat -> Replies, readable: bool)
    ensures P.AnalyzeFx in React(status, kind, high, after, env, readable).effects <==>
      && status == Collecting && (kind.LogEvidence? || kind.MetricEvidence? || kind.TraceEvidence?)
      && FirstTrace(env(0), 0) == Some(Lands)
  {
    WhenRetryMoves(Some(Collecting), CollectComplete, high, env(0), 0);
  }

  /** The gate is called exactly when propose and route both commit and say so and HIGH-risk
    * actions are pending; execution exactly when the third move does too and none are. */
  lemma WhenTheProposalIsDriven(
      status: Status, kind: EvidenceType, high: bool, after: bool, env: nat -> Replies, readable: bool)
    ensures var fx := React(status, kind, high, after, env, readable).effects;
      var routed := status == RcaDone && kind.FixAction?
        && FirstTrace(env(0), 0) == Some(Lands) && FirstTrace(env(1), 0) == Some(Lands);
      && (P.GateFx in fx <==> routed && high)
      && (P.ExecuteFx in fx <==> routed && !high && FirstTrace(env(2), 0) == Some(Lands))
  {
    WhenRetryMoves(Some(RcaDone), RcaGenerated, high, env(0), 0);
    WhenRetryMoves(Some(FixProposed), FixGenerated, high, env(1), 0);
    WhenRetryMoves(Some(FixSuggested), Execute, high, env(2), 0);
  }

  // ---------- in terms of the replies ----------

  /** Of the three attempts the first with an effect commits ... */
  ghost predicate Moves(env: Replies) {
    exists j: nat :: FirstEffect(env, 0, j) && (env(j) == Lands || env(j) == Lost)
  }

  /** ... and says so ... */
  ghost predicate Says(env: Replies) { exists j: nat :: FirstEffect(env, 0, j) && env(j) == Lands }

  /** ... or does not, and a later attempt finds the row moved. */
  ghost predicate FindsOut(env: Replies) {
    exists j: nat, i: nat ::
      FirstEffect(env, 0, j) && env(j) == Lost && FirstReach(env, j + 1, i) && env(i) != Skipped
  }

  lemma TracesTell(env: Replies)
    ensures Moves(env) <==> FirstTrace(env, 0) == Some(Lands) || FirstTrace(env, 0) == Some(Lost)
    ensures Says(env) <==> FirstTrace(env, 0) == Some(Lands)
  {
    FirstTraceIs(env, 0);
    EffectOrNone(env, 0);
  }

  lemma AcceptanceTells(env: Replies, r: TxResult)
    requires Acceptance(env, 0, r)
    ensures r.Invalid? <==> FindsOut(env)
  {
    EffectOrNone(env, 0);
    if j: nat :| FirstEffect(env, 0, j) {
      assert forall k: nat :: FirstEffect(env, 0, k) ==> k == j;
      ReachOrNone(env, j + 1);
    }
  }

  lemma GoesAsReplied(status: Status, e: Event, high: bool, env: Replies)
    requires Successor(status, e, high).Some?
    ensures var t := Goes(status, e, high, env);
      && t.status == (if Moves(env) then Successor(status, e, high).value else status)
      && (t.result.Moved? <==> Says(env))
      && (t.result.Invalid? <==> FindsOut(env))
  {
    WhenRetryMoves(Some(status), e, high, env, 0);
    RetryMovesOnce(Some(status), e, high, env, 0);
    TracesTell(env);
    LookupIsListed(status, e);
    RetryAnswers(Some(status), e, high, env);
    AcceptanceTells(env, Goes(status, e, high, env).result);
  }

  lemma {:induction false} EffectOrNone(env: Replies, k: nat)
    ensures (forall i: nat | k <= i < 3 :: env(i) == Unreachable || env(i) == Aborts)
      || exists j: nat :: FirstEffect(env, k, j)
    decreases 3 - k
  {
    if k < 3 {
      var next := k + 1;
      EffectOrNone(env, next);
      if env(k) != Unreachable && env(k) != Aborts {
        assert FirstEffect(env, k, k);
      } else if j: nat :| FirstEffect(env, next, j) {
        assert FirstEffect(env, k, j);
      }
    }
  }

  lemma {:induction false} ReachOrNone(env: Replies, k: nat)
    ensures (forall i: nat | k <= i < 3 :: env(i) == Unreachable) || exists j: nat :: FirstReach(env, k, j)
    decreases 3 - k
  {
    if k < 3 {
      var next := k + 1;
      ReachOrNone(env, next);
      if env(k) != Unreachable {
        assert FirstReach(env, k, k);
      } else if j: nat :| FirstReach(env, next, j) {
        assert FirstReach(env, k, j);
      }
    }
  }

  /** Where an observation leaves the session, for every way its transactions can go. */
  lemma WhereItEnds(
      status: Status, kind: EvidenceType, high: bool, after: bool, env: nat -> Replies, readable: bool)
    ensures React(status, kind, high, after, env, readable).status ==
      if status == Collecting && kind in {LogEvidence, MetricEvidence, TraceEvidence} then
        if Moves(env(0)) then Analyzing else Collecting
      else if status == Analyzing && kind == RcaResult then
        if Moves(env(0)) then RcaDone else Analyzing
      else if status == RcaDone && kind == FixAction then
        if !Moves(env(0)) then RcaDone
        else if !Says(env(0)) || !Moves(env(1)) then FixProposed
        else if high then AwaitingApproval
        else if !Says(env(1)) || !Moves(env(2)) then FixSuggested
        else if !Says(env(2)) || !readable || !Moves(env(3)) then FixExecuting
        else Verifying
      else status
  {
    if status == Collecting {
      GoesAsReplied(Collecting, CollectComplete, high, env(0));
    } else if status == Analyzing {
      GoesAsReplied(Analyzing, AnalysisComplete, high, env(0));
    } else if status == RcaDone {
      GoesAsReplied(RcaDone, RcaGenerated, high, env(0));
      WhereProposalsEnd(high, after, env, readable);
    }
  }

  lemma WhereProposalsEnd(high: bool, after: bool, env: nat -> Replies, readable: bool)
    ensures var r := Proposed(high, after, env, readable);
      r.status ==
        if !Moves(env(1)) then FixProposed
        else if high then AwaitingApproval
        else if !Says(env(1)) || !Moves(env(2)) then FixSuggested
        else if !Says(env(2)) || !readable || !Moves(env(3)) then FixExecuting
        else Verifying
    ensures !Proposed(high, after, env, readable).ok <==>
      || (!Says(env(1)) && !FindsOut(env(1)))
      || (Says(env(1)) && !high && !Says(env(2)) && !FindsOut(env(2)))
  {
    GoesAsReplied(FixProposed, FixGenerated, high, env(1));
    GoesAsReplied(FixSuggested, Execute, high, env(2));
    GoesAsReplied(FixExecuting, ExecuteComplete, after, env(3));
  }

  /** When its handling fails, so that the error is logged and nothing else is done. */
  lemma WhenHandlingFails(
      status: Status, kind: EvidenceType, high: bool, after: bool, env: nat -> Replies, readable: bool)
    ensures !React(status, kind, high, after, env, readable).ok <==>
      || (status == Collecting && kind in {LogEvidence, MetricEvidence, TraceEvidence} && !Says(env(0)))
      || (status == Analyzing && kind == RcaResult && !Says(env(0)))
      || (status == RcaDone && kind == FixAction &&
            (|| !Says(env(0))
             || (!Says(env(1)) && !FindsOut(env(1)))
             || (Says(env(1)) && !high && !Says(env(2)) && !FindsOut(env(2)))))
  {
    if status == Collecting {
      GoesAsReplied(Collecting, CollectComplete, high, env(0));
    } else if status == Analyzing {
      GoesAsReplied(Analyzing, AnalysisComplete, high, env(0));
    } else if status == RcaDone {
      GoesAsReplied(RcaDone, RcaGenerated, high, env(0));
      WhereProposalsEnd(high, after, env, readable);
    }
  }

  /** With a cooperating database the reaction is the undisturbed run of the protocol's actor. */
  lemma CooperatingMeansUndisturbed(
      s: SessionId, status: Status, kind: EvidenceType, high: bool, after: bool, env: nat -> Replies, readable: bool)
    requires readable && forall i :: env(i)(0) == Lands
    ensures var r, seen := React(status, kind, high, after, env, readable), Solo.Observe(s, status, kind, high);
      r.ok && r.status == seen.status && r.effects == seen.effects
  {
    if status == Collecting {
      GoesWhenItLands(Collecting, CollectComplete, high, env(0));
      Solo.ObserveAdvances(s, 0, kind, high);
    } else if status == Analyzing {
      GoesWhenItLands(Analyzing, AnalysisComplete, high, env(0));
      Solo.ObserveAdvances(s, 1, kind, high);
    } else if status == RcaDone {
      ProposalLands(high, after, env, readable);
      Solo.ObserveAdvances(s, 2, kind, high);
    }
  }

  lemma ProposalLands(high: bool, after: bool, env: nat -> Replies, readable: bool)
    requires readable && forall i :: env(i)(0) == Lands
    ensures Goes(RcaDone, RcaGenerated, high, env(0)).result.Moved?
    ensures Proposed(high, after, env, readable) == Reaction(true, Solo.StatusAt(3, high), Solo.EffectAt(2, high))
  {
    GoesWhenItLands(RcaDone, RcaGenerated, high, env(0));
    GoesWhenItLands(FixProposed, FixGenerated, high, env(1));
    GoesWhenItLands(FixSuggested, Execute, high, env(2));
    GoesWhenItLands(FixExecuting, ExecuteComplete, after, env(3));
  }

  // ---------- at most once is not at least once ----------

  /** A later observation, with the database and the tables as they are then. */
  datatype Later = Later(kind: EvidenceType, high: bool, after: bool, env: nat -> Replies, readable: bool)

  /** Everything a sequence of observations sets off. */
  function EffectsOf(status: Status, later: seq<Later>): seq<P.Effect>
    decreases later
  {
    if later == [] then []
    else
      var o := later[0];
      var r := React(status, o.kind, o.high, o.after, o.env, o.readable);
      r.effects + EffectsOf(r.status, later[1..])
  }

  lemma {:induction false} NoLateAnalysis(status: Status, later: seq<Later>)
    requires Rank(status) >= Rank(Analyzing)
    ensures P.AnalyzeFx !in EffectsOf(status, later)
    decreases later
  {
    if later != [] {
      var o := later[0];
      WhenAnalysisIsDispatched(status, o.kind, o.high, o.after, o.env, o.readable);
      NeverBackwards(status, o.kind, o.high, o.after, o.env, o.readable);
      NoLateAnalysis(React(status, o.kind, o.high, o.after, o.env, o.readable).status, later[1..]);
    }
  }

  /** A commit that takes effect and reports failure moves COLLECTING to ANALYZING and
    * leaves the analysis undispatched for good: no sequence of later observations, the
    * redelivered one among them, ever dispatches it. */
  lemma LostCommitStrandsTheSession(
      kind: EvidenceType, high: bool, after: bool, env: nat -> Replies, readable: bool, later: seq<Later>)
    requires kind.LogEvidence? || kind.MetricEvidence? || kind.TraceEvidence?
    requires FirstTrace(env(0), 0) == Some(Lost)
    ensures var r := React(Collecting, kind, high, after, env, readable);
      r == Reaction(false, Analyzing, []) && P.AnalyzeFx !in EffectsOf(r.status, later)
  {
    WhenRetryMoves(Some(Collecting), CollectComplete, high, env(0), 0);
    RetryMovesOnce(Some(Collecting), CollectComplete, high, env(0), 0);
    NoLateAnalysis(Analyzing, later);
  }
}
