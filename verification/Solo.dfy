/** One session seen by a single orchestrator whose transitions all succeed: how far
  * a stream of observations gets it.
  */
module Solo {
  import opened Domain
  import opened Lifecycle
  import opened Protocol

  datatype Outcome = Outcome(status: Status, effects: seq<Effect>)

  function Then(first: Outcome, second: Outcome): Outcome {
    Outcome(second.status, first.effects + second.effects)
  }

  /** An actor of the protocol run to its end without interference. */
  function Alone(pc: Pc, status: Status, high: bool): Outcome
    decreases 8 - Rank(status), if pc.ExecCall? then 1 else 0
  {
    match pc
    case Tx(s, job, _, _) =>
      var next := Successor(status, EventOf(job), high);
      if next == None then Outcome(status, [])
      else
        assert TableMove(status, EventOf(job), next.value);
        MoveRaisesRank(status, EventOf(job), next.value);
        Alone(AfterSuccess(s, job, next.value), next.value, high)
    case CollectCall(_) => Outcome(status, [CollectFx])
    case AnalyzeCall(_) => Outcome(status, [AnalyzeFx])
    case GateCall(_) => Outcome(status, [GateFx])
    case ExecCall(s) =>
      var next := Successor(status, ExecuteComplete, high);
      Outcome(if next == None then status else next.value, [ExecuteFx])
    case _ => Outcome(status, [])
  }

  /** handleObservation from beginning to end. */
  function Observe(s: SessionId, status: Status, kind: EvidenceType, high: bool): Outcome {
    Alone(OnObservation(s, status, kind), status, high)
  }

  function Feed(s: SessionId, status: Status, kinds: seq<EvidenceType>, high: bool): Outcome {
    if kinds == [] then Outcome(status, [])
    else
      var before := Feed(s, status, kinds[..|kinds| - 1], high);
      Then(before, Observe(s, before.status, kinds[|kinds| - 1], high))
  }

  /** The pipeline the observations have to spell out: evidence, RCA_RESULT, FIX_ACTION. */
  predicate Wanted(stage: nat, kind: EvidenceType) {
    match stage
    case 0 => kind.LogEvidence? || kind.MetricEvidence? || kind.TraceEvidence?
    case 1 => kind.RcaResult?
    case 2 => kind.FixAction?
    case _ => false
  }

  /** at picks, in order, one observation for each of the first k pipeline entries. */
  ghost predicate Embedding(k: nat, kinds: seq<EvidenceType>, at: seq<nat>) {
    && |at| == k
    && (forall i, j | 0 <= i < j < k :: at[i] < at[j])
    && (forall i | 0 <= i < k :: at[i] < |kinds| && Wanted(i, kinds[at[i]]))
  }

  /** The first k entries of the pipeline are a subsequence of kinds. */
  ghost predicate Embeds(k: nat, kinds: seq<EvidenceType>) {
    exists at :: Embedding(k, kinds, at)
  }

  function StatusAt(stage: nat, high: bool): Status {
    match stage
    case 0 => Collecting
    case 1 => Analyzing
    case 2 => RcaDone
    case _ => if high then AwaitingApproval else Verifying
  }

  function EffectAt(stage: nat, high: bool): seq<Effect> {
    match stage
    case 0 => [AnalyzeFx]
    case 2 => if high then [GateFx] else [ExecuteFx]
    case _ => []
  }

  lemma ObserveAdvances(s: SessionId, stage: nat, kind: EvidenceType, high: bool)
    requires stage <= 3
    ensures Observe(s, StatusAt(stage, high), kind, high) ==
      if Wanted(stage, kind) then Outcome(StatusAt(stage + 1, high), EffectAt(stage, high))
      else Outcome(StatusAt(stage, high), [])
  {
    if stage == 0 && Wanted(0, kind) {
      assert OnObservation(s, Collecting, kind) == Tx(s, CollectedJob, 0, Begin);
      assert Alone(AnalyzeCall(s), Analyzing, high) == Outcome(Analyzing, [AnalyzeFx]);
    } else if stage == 1 && Wanted(1, kind) {
      assert OnObservation(s, Analyzing, kind) == Tx(s, AnalyzedJob, 0, Begin);
      assert Alone(Gone, RcaDone, high) == Outcome(RcaDone, []);
    } else if stage == 2 && Wanted(2, kind) {
      ProposalDrivenHome(s, high);
    } else {
      assert OnObservation(s, StatusAt(stage, high), kind) == Gone;
    }
  }

  lemma ProposalDrivenHome(s: SessionId, high: bool)
    ensures Alone(Tx(s, ProposeJob, 0, Begin), RcaDone, high) == Outcome(StatusAt(3, high), EffectAt(2, high))
  {
    var routed := if high then AwaitingApproval else FixSuggested;
    assert Alone(Tx(s, ProposeJob, 0, Begin), RcaDone, high) == Alone(Tx(s, RouteJob, 0, Begin), FixProposed, high);
    assert Alone(Tx(s, RouteJob, 0, Begin), FixProposed, high)
      == Alone(AfterSuccess(s, RouteJob, routed), routed, high);
    if !high {
      assert Alone(Tx(s, ExecuteJob, 0, Begin), FixSuggested, high) == Alone(ExecCall(s), FixExecuting, high);
    }
  }

  // ---------- greedy is longest ----------

  function Greedy(kinds: seq<EvidenceType>): (k: nat)
    ensures k <= 3
  {
    if kinds == [] then 0
    else
      var k := Greedy(kinds[..|kinds| - 1]);
      if Wanted(k, kinds[|kinds| - 1]) then k + 1 else k
  }

  lemma {:induction false} GreedyEmbeds(kinds: seq<EvidenceType>) returns (at: seq<nat>)
    ensures Embedding(Greedy(kinds), kinds, at)
  {
    if kinds == [] {
      at := [];
    } else {
      var n := |kinds| - 1;
      at := GreedyEmbeds(kinds[..n]);
      if Wanted(|at|, kinds[n]) { at := at + [n]; }
    }
  }

  lemma {:induction false} EmbedsAtMostGreedy(k: nat, kinds: seq<EvidenceType>, at: seq<nat>)
    requires Embedding(k, kinds, at)
    ensures k <= Greedy(kinds)
    decreases |kinds|
  {
    if k > 0 {
      assert at[k - 1] < |kinds|;
      var n := |kinds| - 1;
      var shorter := kinds[..n];
      forall i | 0 <= i < k - 1
        ensures at[i] < n && shorter[at[i]] == kinds[at[i]]
      {
        assert at[i] < at[k - 1];
      }
      EmbedsAtMostGreedy(k - 1, shorter, at[..k - 1]);
      if at[k - 1] < n {
        EmbedsAtMostGreedy(k, shorter, at);
      }
    }
  }

  lemma {:induction false} EmbedsUpToGreedy(k: nat, kinds: seq<EvidenceType>)
    ensures Embeds(k, kinds) <==> k <= Greedy(kinds)
  {
    if k <= Greedy(kinds) {
      var at := GreedyEmbeds(kinds);
      assert Embedding(k, kinds, at[..k]);
    } else if Embeds(k, kinds) {
      var at :| Embedding(k, kinds, at);
      EmbedsAtMostGreedy(k, kinds, at);
    }
  }

  lemma {:induction false} FeedFollowsGreedy(s: SessionId, kinds: seq<EvidenceType>, high: bool)
    ensures Feed(s, Collecting, kinds, high).status == StatusAt(Greedy(kinds), high)
  {
    if kinds != [] {
      var shorter := kinds[..|kinds| - 1];
      FeedFollowsGreedy(s, shorter, high);
      ObserveAdvances(s, Greedy(shorter), kinds[|kinds| - 1], high);
    }
  }

  /** k is the length of the longest pipeline prefix contained in the observations. */
  ghost predicate LongestPrefix(k: nat, kinds: seq<EvidenceType>) {
    Embeds(k, kinds) && forall j: nat :: Embeds(j, kinds) ==> j <= k
  }

  /** The final status is exactly the one of the longest pipeline prefix that the
    * observations contain as a subsequence. */
  lemma FinalStatusIsLongestPrefix(s: SessionId, kinds: seq<EvidenceType>, high: bool, k: nat)
    requires k <= 3
    ensures Feed(s, Collecting, kinds, high).status == StatusAt(k, high) <==> LongestPrefix(k, kinds)
  {
    FeedFollowsGreedy(s, kinds, high);
    EmbedsUpToGreedy(k, kinds);
    EmbedsUpToGreedy(Greedy(kinds), kinds);
    forall j: nat | Embeds(j, kinds)
      ensures j <= Greedy(kinds)
    {
      EmbedsUpToGreedy(j, kinds);
    }
    StatusTellsStage(k, Greedy(kinds), high);
  }

  lemma StatusTellsStage(i: nat, j: nat, high: bool)
    requires i <= 3 && j <= 3
    ensures StatusAt(i, high) == StatusAt(j, high) <==> i == j
  {
  }

  // ---------- duplicates ----------

  lemma FeedLast(s: SessionId, status: Status, xs: seq<EvidenceType>, o: EvidenceType, high: bool)
    ensures var before := Feed(s, status, xs, high);
      Feed(s, status, xs + [o], high) == Then(before, Observe(s, before.status, o, high))
  {
    assert (xs + [o])[..|xs + [o]| - 1] == xs;
  }

  lemma ThenAssociates(a: Outcome, b: Outcome, c: Outcome)
    ensures Then(Then(a, b), c) == Then(a, Then(b, c))
  {
    assert (a.effects + b.effects) + c.effects == a.effects + (b.effects + c.effects);
  }

  lemma {:induction false} FeedSplits(
      s: SessionId, status: Status, xs: seq<EvidenceType>, ys: seq<EvidenceType>, high: bool)
    ensures var first := Feed(s, status, xs, high);
      Feed(s, status, xs + ys, high) == Then(first, Feed(s, first.status, ys, high))
  {
    var first := Feed(s, status, xs, high);
    if ys == [] {
      assert xs + ys == xs;
      assert Then(first, Outcome(first.status, [])) == first;
    } else {
      var zs, o := ys[..|ys| - 1], ys[|ys| - 1];
      assert ys == zs + [o] && xs + ys == (xs + zs) + [o];
      FeedSplits(s, status, xs, zs, high);
      FeedLast(s, status, xs + zs, o, high);
      FeedLast(s, first.status, zs, o, high);
      var mid := Feed(s, first.status, zs, high);
      ThenAssociates(first, mid, Observe(s, mid.status, o, high));
    }
  }

  lemma {:induction false} GreedyGrows(xs: seq<EvidenceType>, ys: seq<EvidenceType>)
    ensures Greedy(xs) <= Greedy(xs + ys)
  {
    if ys == [] {
      assert xs + ys == xs;
    } else {
      assert (xs + ys)[..|xs + ys| - 1] == xs + ys[..|ys| - 1];
      GreedyGrows(xs, ys[..|ys| - 1]);
    }
  }

  lemma WantedOnce(i: nat, j: nat, kind: EvidenceType)
    requires Wanted(i, kind) && i < j
    ensures !Wanted(j, kind)
  {
  }

  /** Redelivering an observation that already advanced the session, anywhere later,
    * changes neither the status nor the side effects. */
  lemma DuplicatesAreHarmless(
      s: SessionId, pre: seq<EvidenceType>, o: EvidenceType, mid: seq<EvidenceType>, post: seq<EvidenceType>,
      high: bool)
    requires Wanted(Greedy(pre), o)
    ensures Feed(s, Collecting, pre + [o] + mid + [o] + post, high) == Feed(s, Collecting, pre + [o] + mid + post, high)
  {
    var seen := pre + [o] + mid;
    assert (pre + [o])[..|pre + [o]| - 1] == pre;
    GreedyGrows(pre + [o], mid);
    WantedOnce(Greedy(pre), Greedy(seen), o);
    FeedFollowsGreedy(s, seen, high);
    ObserveAdvances(s, Greedy(seen), o, high);
    assert (seen + [o])[..|seen + [o]| - 1] == seen;
    assert Feed(s, Collecting, seen + [o], high) == Feed(s, Collecting, seen, high);
    FeedSplits(s, Collecting, seen + [o], post, high);
    FeedSplits(s, Collecting, seen, post, high);
  }
}
