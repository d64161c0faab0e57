/** From a plan to its routing: the fix agent's rows, the count that routes a session, and the
  * gate agree on which plans need an approval.
  */
module Routing {
  import opened Domain
  import W = Workflow
  import F = FixAgent
  import R = Rca
  import H = Handlers
  import Observations

  /** Where the routing transaction takes a session in FIX_PROPOSED when it lands. */
  function Routed(fix: map<FixId, FixRow>, s: SessionId): Option<Status> {
    W.Attempt(Some(FixProposed), FixGenerated, PendingHigh(fix, s), W.Lands).row
  }

  lemma RoutedByRisk(fix: map<FixId, FixRow>, s: SessionId)
    ensures Routed(fix, s) ==
      Some(if exists f | f in fix :: fix[f].sid == s && fix[f].risk == High && fix[f].exec == NotStarted
           then AwaitingApproval else FixSuggested)
  {
  }

  /** Over rows as the fix agent writes them a session waits for approval exactly when the gate
    * has a request to open for it. */
  lemma WaitsIffTheGateAsks(fix: map<FixId, FixRow>, s: SessionId)
    requires forall f | f in fix && fix[f].sid == s :: fix[f].approval == NoApproval && fix[f].exec == NotStarted
    ensures Routed(fix, s) == Some(AwaitingApproval) <==> H.Asked(fix, s, _ => H.Made) != {}
    ensures Routed(fix, s) == Some(AwaitingApproval) || Routed(fix, s) == Some(FixSuggested)
  {
    var asked := H.Asked(fix, s, _ => H.Made);
    RoutedByRisk(fix, s);
    forall f
      ensures f in asked <==> f in fix && fix[f].sid == s && fix[f].risk == High && fix[f].exec == NotStarted
    {
    }
    if asked != {} { var f :| f in asked; }
  }

  // ---------- plans ----------

  /** The table after the fix agent wrote a plan's rows. */
  function Written(rows: map<FixId, FixRow>, s: SessionId, plan: seq<F.FixStep>, luck: F.Luck): map<FixId, FixRow> {
    F.Persisted(rows, F.PlannedAll(s, plan), luck, |plan|)
  }

  /** The types that need an approval. */
  predicate Drastic(t: ActionType) { t in {SwitchMaster, DataMigration, RollbackDeploy} || t.OtherAction? }

  /** What a delivery adds for a session without rows is the plan's. */
  lemma OnlyThePlan(
      rows: map<FixId, FixRow>, s: SessionId, plan: seq<F.FixStep>, luck: F.Luck, f: FixId) returns (i: nat)
    requires F.UniqueSeq(rows) && forall g | g in rows :: rows[g].sid != s
    requires f in Written(rows, s, plan, luck) && Written(rows, s, plan, luck)[f].sid == s
    ensures i < |plan| && Written(rows, s, plan, luck)[f] == F.Planned(s, i, plan[i])
    ensures var row := Written(rows, s, plan, luck)[f];
      row.seqNo == i + 1 && row.exec == NotStarted && (row.risk == High <==> Drastic(plan[i].actionType))
  {
    var drafts := F.PlannedAll(s, plan);
    F.PersistKeeps(rows, drafts, luck, |plan|);
    var row := Written(rows, s, plan, luck)[f];
    assert row in drafts;
    i :| 0 <= i < |drafts| && drafts[i] == row;
    F.RiskIsByTypeAlone(plan[i], plan[i]);
  }

  /** Whatever fails on the way, a plan without drastic steps is not held up. */
  lemma HarmlessPlansGoOn(rows: map<FixId, FixRow>, s: SessionId, plan: seq<F.FixStep>, luck: F.Luck)
    requires F.UniqueSeq(rows) && forall g | g in rows :: rows[g].sid != s
    requires forall i | 0 <= i < |plan| :: !Drastic(plan[i].actionType)
    ensures Routed(Written(rows, s, plan, luck), s) == Some(FixSuggested)
  {
    var rows' := Written(rows, s, plan, luck);
    forall f | f in rows' && rows'[f].sid == s
      ensures rows'[f].risk != High
    {
      var i := OnlyThePlan(rows, s, plan, luck, f);
    }
    RoutedByRisk(rows', s);
  }

  /** The row of a drastic step that was written. */
  lemma DrasticRow(rows: map<FixId, FixRow>, s: SessionId, plan: seq<F.FixStep>, luck: F.Luck, i: nat)
      returns (f: FixId)
    requires F.UniqueSeq(rows) && forall g | g in rows :: rows[g].sid != s
    requires forall i, j | 0 <= i < j < |plan| :: luck.ids(i) != luck.ids(j)
    requires forall i | 0 <= i < |plan| :: luck.ids(i) !in rows
    requires i < |plan| && luck.lands(i) && Drastic(plan[i].actionType)
    ensures var rows' := Written(rows, s, plan, luck);
      f in rows' && rows'[f].sid == s && rows'[f].risk == High && rows'[f].exec == NotStarted
  {
    F.LandedStepsAreTaken(rows, s, F.PlannedAll(s, plan), luck, |plan|, i);
    f :| f in Written(rows, s, plan, luck) && Written(rows, s, plan, luck)[f].sid == s
      && Written(rows, s, plan, luck)[f].seqNo == i + 1;
    var j := OnlyThePlan(rows, s, plan, luck, f);
  }

  /** Once all steps are written, the session waits for approval if and only if one of them is
    * drastic. */
  lemma WaitsIffDrastic(rows: map<FixId, FixRow>, s: SessionId, plan: seq<F.FixStep>, luck: F.Luck)
    requires F.UniqueSeq(rows) && forall g | g in rows :: rows[g].sid != s
    requires forall i, j | 0 <= i < j < |plan| :: luck.ids(i) != luck.ids(j)
    requires forall i | 0 <= i < |plan| :: luck.lands(i) && luck.ids(i) !in rows
    ensures Routed(Written(rows, s, plan, luck), s) ==
      Some(if exists i | 0 <= i < |plan| :: Drastic(plan[i].actionType) then AwaitingApproval else FixSuggested)
  {
    if i :| 0 <= i < |plan| && Drastic(plan[i].actionType) {
      var f := DrasticRow(rows, s, plan, luck, i);
      RoutedByRisk(Written(rows, s, plan, luck), s);
    } else {
      HarmlessPlansGoOn(rows, s, plan, luck);
    }
  }

  /** A default plan never waits for approval. */
  lemma DefaultPlansGoOn(rows: map<FixId, FixRow>, s: SessionId, pattern: Pattern, luck: F.Luck)
    requires F.UniqueSeq(rows) && forall g | g in rows :: rows[g].sid != s
    ensures Routed(Written(rows, s, F.DefaultFixSteps(pattern), luck), s) == Some(FixSuggested)
  {
    var plan := F.DefaultFixSteps(pattern);
    forall i | 0 <= i < |plan|
      ensures !Drastic(plan[i].actionType)
    {
      F.DefaultsNeedNoApproval(pattern, i);
      F.RiskIsByTypeAlone(plan[i], plan[i]);
    }
    HarmlessPlansGoOn(rows, s, plan, luck);
  }

  // ---------- from the evidence to the plan ----------

  /** The plan does this to that, step by step. */
  predicate Does(plan: seq<F.FixStep>, steps: seq<(ActionType, string)>) {
    |plan| == |steps| && forall i | 0 <= i < |plan| :: (plan[i].actionType, plan[i].target) == steps[i]
  }

  /** Without a model and a knowledge base the evidence alone decides what is done. */
  lemma EvidenceDecidesThePlan(inputs: seq<Observations.Observation>, ms: R.Durations)
    ensures var plan := F.Plan(F.KbFails, None, R.Heuristic(inputs, ms).pattern);
      var errors, warnings, slow := |R.ErrorsAt(inputs)|, |R.WarningsAt(inputs)|, |R.SlowSpansAt(inputs, ms)|;
      if errors > 5 && slow > 0 then
        Does(plan, [(CircuitBreak, "downstream-service"), (ScaleUp, "replicas=+1")])
      else if errors > 10 then
        Does(plan, [(ScaleUp, "replicas=+2"), (ConfigChange, "max_connections")])
      else if slow > 3 then
        Does(plan, [(ConfigChange, "db.pool.size"), (RestartPod, "api-gateway")])
      else if warnings > 20 then
        Does(plan, [(RestartPod, "*"), (ConfigChange, "gc_percent")])
      else
        Does(plan, [(RestartPod, "*")])
  {
    R.HeuristicCounts(inputs, ms);
  }
}
