/** The fix agent: from a root cause to rows in fix_actions and one FIX_ACTION
  * observation per step, under persistence failures and redelivery.
  */
module FixAgent {
  import opened Domain
  import opened Observations

  datatype FixStep = FixStep(actionType: ActionType, target: string, rollbackPlan: string)

  // ---------- the rule table ----------

  function RiskOf(t: ActionType): Risk {
    match t
    case RestartPod => Low
    case ScaleUp => Low
    case ScaleDown => Medium
    case SwitchMaster => High
    case DataMigration => High
    case ConfigChange => Medium
    case RollbackDeploy => High
    case CircuitBreak => Medium
    case RateLimit => Medium
    case GcTune => Medium
    case ConnectionPoolTune => Medium
    case OtherAction(_) => High
  }

  function RollbackOf(t: ActionType): (r: Rollback)
    ensures r != NoRollback && !r.Proposed?
  {
    match t
    case RestartPod => KubernetesRestarts
    case ScaleUp => ScaleBack
    case ScaleDown => ScaleBack
    case SwitchMaster => SwitchMasterBack
    case DataMigration => HaltMigration
    case ConfigChange => RestoreConfig
    case RollbackDeploy => RedeployPrevious
    case CircuitBreak => DisableBreaker
    case RateLimit => DisableBreaker
    case GcTune => RestoreTuning
    case ConnectionPoolTune => RestoreTuning
    case OtherAction(_) => ManualIntervention
  }

  function AssessRisk(step: FixStep): (Risk, Rollback) { (RiskOf(step.actionType), RollbackOf(step.actionType)) }

  /** Whoever proposed a step, its risk and rollback plan follow from the action type
    * alone: HIGH exactly for the three drastic types and every unknown one, LOW exactly for
    * a restart and for scaling up. */
  lemma RiskIsByTypeAlone(a: FixStep, b: FixStep)
    requires a.actionType == b.actionType
    ensures AssessRisk(a) == AssessRisk(b)
    ensures RiskOf(a.actionType) == High <==>
      a.actionType in {SwitchMaster, DataMigration, RollbackDeploy} || a.actionType.OtherAction?
    ensures RiskOf(a.actionType) == Low <==> a.actionType in {RestartPod, ScaleUp}
  {
  }

  /** Rolling back undoes what was done: one plan for scaling in either direction, for the two
    * traffic rules and for the two tuning types, an own one for each other type. */
  lemma RollbackFits(t: ActionType)
    ensures RollbackOf(t) == KubernetesRestarts <==> t == RestartPod
    ensures RollbackOf(t) == ScaleBack <==> t == ScaleUp || t == ScaleDown
    ensures RollbackOf(t) == SwitchMasterBack <==> t == SwitchMaster
    ensures RollbackOf(t) == HaltMigration <==> t == DataMigration
    ensures RollbackOf(t) == RestoreConfig <==> t == ConfigChange
    ensures RollbackOf(t) == RedeployPrevious <==> t == RollbackDeploy
    ensures RollbackOf(t) == DisableBreaker <==> t == CircuitBreak || t == RateLimit
    ensures RollbackOf(t) == RestoreTuning <==> t == GcTune || t == ConnectionPoolTune
    ensures RollbackOf(t) == ManualIntervention <==> t.OtherAction?
  {
  }

  function DefaultFixSteps(pattern: Pattern): (steps: seq<FixStep>)
    ensures 1 <= |steps| <= 2
  {
    match pattern
    case PoolExhaustion =>
      [FixStep(ScaleUp, "replicas=+2", "Scale back to original replicas"),
       FixStep(ConfigChange, "max_connections", "Restore original max_connections value")]
    case TimeoutCascade =>
      [FixStep(CircuitBreak, "downstream-service", "Disable circuit breaker"),
       FixStep(ScaleUp, "replicas=+1", "Scale back to original replicas")]
    case NPlusOneQuery =>
      [FixStep(ConfigChange, "db.pool.size", "Restore original pool size"),
       FixStep(RestartPod, "api-gateway", "Manual restart if needed")]
    case ResourceLeak =>
      [FixStep(RestartPod, "*", "No automatic rollback, monitor after restart"),
       FixStep(ConfigChange, "gc_percent", "Restore original GC percent")]
    case OtherPattern(_) =>
      [FixStep(RestartPod, "*", "Monitor service health after restart")]
  }

  /** Without knowledge base and LLM no plan needs an approval. */
  lemma DefaultsNeedNoApproval(pattern: Pattern, i: nat)
    requires i < |DefaultFixSteps(pattern)|
    ensures RiskOf(DefaultFixSteps(pattern)[i].actionType) != High
  {
    assert DefaultFixSteps(pattern)[i].actionType in {ScaleUp, ConfigChange, CircuitBreak, RestartPod};
  }

  // ---------- the table ----------

  /** UNIQUE (session_id, seq). */
  ghost predicate UniqueSeq(rows: map<FixId, FixRow>) {
    forall f, g | f in rows && g in rows && rows[f].sid == rows[g].sid && rows[f].seqNo == rows[g].seqNo :: f == g
  }

  predicate Taken(rows: map<FixId, FixRow>, s: SessionId, seqNo: nat) {
    exists f | f in rows :: rows[f].sid == s && rows[f].seqNo == seqNo
  }

  /** The rows a plan asks for: numbered from 1, as the fix agent writes them. */
  ghost predicate Drafts(s: SessionId, drafts: seq<FixRow>) {
    forall i | 0 <= i < |drafts| :: drafts[i].sid == s && drafts[i].seqNo == i + 1 && FreshFromAgent(drafts[i])
  }

  /** What the environment decides for one delivery: the ids, and which INSERTs get through. */
  datatype Luck = Luck(ids: nat -> FixId, lands: nat -> bool)

  predicate Inserts(rows: map<FixId, FixRow>, row: FixRow, id: FixId, lands: bool) {
    lands && id !in rows && SeqFree(rows, row)
  }

  function Inserted(rows: map<FixId, FixRow>, row: FixRow, id: FixId, lands: bool): map<FixId, FixRow> {
    if Inserts(rows, row, id, lands) then rows[id := row] else rows
  }

  /** The table after the first n rows of a plan. */
  function Persisted(rows: map<FixId, FixRow>, drafts: seq<FixRow>, luck: Luck, n: nat): map<FixId, FixRow>
    requires n <= |drafts|
  {
    if n == 0 then rows
    else Inserted(Persisted(rows, drafts, luck, n - 1), drafts[n - 1], luck.ids(n - 1), luck.lands(n - 1))
  }

  /** Existing rows stay as they are, and a new one is a draft whose number was free. */
  ghost predicate FirstWriterWins(rows: map<FixId, FixRow>, rows': map<FixId, FixRow>, drafts: seq<FixRow>) {
    && (forall f | f in rows :: f in rows' && rows'[f] == rows[f])
    && (forall f | f in rows' && f !in rows :: rows'[f] in drafts && SeqFree(rows, rows'[f]))
  }

  /** Under any pattern of failures a delivery keeps (session, seq) unique, and the first
    * writer of a number wins. */
  lemma {:induction false} PersistKeeps(rows: map<FixId, FixRow>, drafts: seq<FixRow>, luck: Luck, n: nat)
    requires UniqueSeq(rows) && n <= |drafts|
    ensures UniqueSeq(Persisted(rows, drafts, luck, n))
    ensures FirstWriterWins(rows, Persisted(rows, drafts, luck, n), drafts)
  {
    if n > 0 {
      PersistKeeps(rows, drafts, luck, n - 1);
      InsertKeeps(rows, Persisted(rows, drafts, luck, n - 1), drafts, n - 1, luck.ids(n - 1), luck.lands(n - 1));
    }
  }

  lemma InsertKeeps(
      rows: map<FixId, FixRow>, now: map<FixId, FixRow>, drafts: seq<FixRow>, i: nat, id: FixId, lands: bool)
    requires UniqueSeq(now) && FirstWriterWins(rows, now, drafts) && i < |drafts|
    ensures UniqueSeq(Inserted(now, drafts[i], id, lands))
    ensures FirstWriterWins(rows, Inserted(now, drafts[i], id, lands), drafts)
  {
    if Inserts(now, drafts[i], id, lands) {
      assert SeqFree(rows, drafts[i]) by {
        forall g | g in rows
          ensures !(rows[g].sid == drafts[i].sid && rows[g].seqNo == drafts[i].seqNo)
        {
          assert now[g] == rows[g];
        }
      }
    }
  }

  /** A delivery over a plan whose numbers are all taken writes nothing, whatever it
    * proposes this time. */
  lemma {:induction false} RedeliveryWritesNothing(
      rows: map<FixId, FixRow>, s: SessionId, drafts: seq<FixRow>, luck: Luck, n: nat)
    requires n <= |drafts| && Drafts(s, drafts)
    requires forall i | 0 <= i < n :: Taken(rows, s, drafts[i].seqNo)
    ensures Persisted(rows, drafts, luck, n) == rows
  {
    if n > 0 {
      RedeliveryWritesNothing(rows, s, drafts, luck, n - 1);
      assert Taken(rows, s, drafts[n - 1].seqNo);
    }
  }

  /** A step whose INSERT gets through has its number taken afterwards, so that a delivery
    * without failures settles the plan. */
  lemma {:induction false} LandedStepsAreTaken(
      rows: map<FixId, FixRow>, s: SessionId, drafts: seq<FixRow>, luck: Luck, n: nat, i: nat)
    requires UniqueSeq(rows) && n <= |drafts| && Drafts(s, drafts) && i < n && luck.lands(i)
    requires forall j, k | 0 <= j < k < n :: luck.ids(j) != luck.ids(k)
    requires forall j | 0 <= j < n :: luck.ids(j) !in rows
    ensures Taken(Persisted(rows, drafts, luck, n), s, i + 1)
  {
    var before := Persisted(rows, drafts, luck, n - 1);
    IdIsFresh(rows, drafts, luck, n - 1, luck.ids(n - 1));
    if i < n - 1 {
      LandedStepsAreTaken(rows, s, drafts, luck, n - 1, i);
      var f :| f in before && before[f].sid == s && before[f].seqNo == i + 1;
      assert Persisted(rows, drafts, luck, n)[f] == before[f];
    } else if SeqFree(before, drafts[i]) {
      assert Persisted(rows, drafts, luck, n)[luck.ids(i)] == drafts[i];
    }
  }

  lemma {:induction false} IdIsFresh(
      rows: map<FixId, FixRow>, drafts: seq<FixRow>, luck: Luck, n: nat, id: FixId)
    requires n <= |drafts| && id !in rows && forall j | 0 <= j < n :: luck.ids(j) != id
    ensures id !in Persisted(rows, drafts, luck, n)
  {
    if n > 0 { IdIsFresh(rows, drafts, luck, n - 1, id); }
  }

  // ---------- the agent ----------

  /** The row of step i. */
  function Planned(s: SessionId, i: nat, step: FixStep): (row: FixRow)
    ensures FreshFromAgent(row) && row.sid == s && row.seqNo == i + 1
    ensures row.actionType == step.actionType && row.target == step.target
    ensures (row.risk, row.rollback) == AssessRisk(step)
    ensures row.requiresApproval <==>
      step.actionType in {SwitchMaster, DataMigration, RollbackDeploy} || step.actionType.OtherAction?
  {
    var risk := RiskOf(step.actionType);
    FixRow(s, i + 1, step.actionType, step.target, risk, RollbackOf(step.actionType), risk == High, NoApproval,
           NotStarted)
  }

  function PlannedAll(s: SessionId, plan: seq<FixStep>): (drafts: seq<FixRow>)
    ensures |drafts| == |plan| && Drafts(s, drafts)
    ensures forall i | 0 <= i < |plan| :: drafts[i] == Planned(s, i, plan[i])
  {
    seq(|plan|, i requires 0 <= i < |plan| => Planned(s, i, plan[i]))
  }

  /** What a FIX_ACTION observation carries beyond the common fields. */
  datatype FixDetail = FixDetail(
    step: FixStep, risk: Risk, rollbackPlan: Rollback, requiresApproval: bool, persisted: bool, fix: FixId)

  datatype Emission = Emission(observation: Observation, detail: FixDetail)

  datatype KbReply = KbFails | KbEntries(entries: seq<Option<seq<FixStep>>>)   // None: undecodable steps

  datatype FixError = InvalidSession | BadRcaDetail

  datatype Handled = Emitted(outputs: seq<Emission>) | HandleFails(error: FixError)

  /** The steps of the best decodable knowledge-base entry, if there is one. */
  function Best(entries: seq<Option<seq<FixStep>>>): Option<seq<FixStep>> {
    if entries == [] then None else if entries[0].Some? then entries[0] else Best(entries[1..])
  }

  function Candidate(kb: KbReply): Option<seq<FixStep>> {
    if kb.KbFails? then None else Best(kb.entries)
  }

  function Plan(kb: KbReply, llm: Option<seq<FixStep>>, pattern: Pattern): seq<FixStep> {
    match Candidate(kb)
    case Some(steps) => steps
    case None => if llm.Some? then llm.value else DefaultFixSteps(pattern)
  }

  /** The plan of the knowledge base counts before the model's, and that before the default;
    * from the knowledge base the first entry that decodes. */
  lemma WhosePlan(kb: KbReply, llm: Option<seq<FixStep>>, pattern: Pattern)
    ensures (forall i | kb.KbEntries? && 0 <= i < |kb.entries| :: kb.entries[i].None?) ==>
      Plan(kb, llm, pattern) == match llm case Some(steps) => steps case None => DefaultFixSteps(pattern)
    ensures forall i | kb.KbEntries? && 0 <= i < |kb.entries| && kb.entries[i].Some? ::
      (forall j | 0 <= j < i :: kb.entries[j].None?) ==> Plan(kb, llm, pattern) == kb.entries[i].value
  {
    if kb.KbEntries? {
      forall i | 0 <= i < |kb.entries| && kb.entries[i].Some? && forall j | 0 <= j < i :: kb.entries[j].None?
        ensures Best(kb.entries) == kb.entries[i]
      {
        BestIsFirst(kb.entries, i);
      }
      if forall i | 0 <= i < |kb.entries| :: kb.entries[i].None? { NoneIsBest(kb.entries); }
    }
  }

  lemma {:induction false} BestIsFirst(entries: seq<Option<seq<FixStep>>>, i: nat)
    requires i < |entries| && entries[i].Some? && forall j | 0 <= j < i :: entries[j].None?
    ensures Best(entries) == entries[i]
    decreases i
  {
    if i > 0 {
      assert forall j | 0 <= j < i - 1 :: entries[1..][j] == entries[j + 1];
      BestIsFirst(entries[1..], i - 1);
    }
  }

  lemma {:induction false} NoneIsBest(entries: seq<Option<seq<FixStep>>>)
    requires forall i | 0 <= i < |entries| :: entries[i].None?
    ensures Best(entries).None?
  {
    if entries != [] {
      assert forall j | 0 <= j < |entries| - 1 :: entries[1..][j] == entries[j + 1];
      NoneIsBest(entries[1..]);
    }
  }

  /** The first RCA_RESULT decides. */
  function FirstRca(inputs: seq<Observation>): Option<Observation> {
    if inputs == [] then None
    else if inputs[0].kind.RcaResult? then Some(inputs[0]) else FirstRca(inputs[1..])
  }

  function Draft(session: string, rca: Observation, step: FixStep): Observation {
    Observation("", session, "agent-fix", FixAction, rca.confidence, rca.severity, 0, rca.service, "")
  }

  /** The output for a step whose row is drafted. */
  function Told(
      session: string, rca: Observation, step: FixStep, row: FixRow, uuid: string, persisted: bool,
      fix: FixId): Emission
  {
    Emission(Completed(Draft(session, rca, step), uuid),
             FixDetail(step, row.risk, row.rollback, row.requiresApproval, persisted, fix))
  }

  /** The outputs for the first n steps; each says whether its row was written. */
  function ToldAll(
      session: string, rca: Observation, plan: seq<FixStep>, drafts: seq<FixRow>, rows: map<FixId, FixRow>, luck: Luck,
      uuids: nat -> string, n: nat): seq<Emission>
    requires n <= |plan| == |drafts|
  {
    if n == 0 then []
    else
      var i := n - 1;
      var persisted := Inserts(Persisted(rows, drafts, luck, i), drafts[i], luck.ids(i), luck.lands(i));
      ToldAll(session, rca, plan, drafts, rows, luck, uuids, i)
      + [Told(session, rca, plan[i], drafts[i], uuids(i), persisted, luck.ids(i))]
  }

  /** One conforming FIX_ACTION per step, in order, each with the assessment of its row. */
  lemma {:induction false} OneOutputPerStep(
      session: string, rca: Observation, plan: seq<FixStep>, drafts: seq<FixRow>, rows: map<FixId, FixRow>, luck: Luck,
      uuids: nat -> string, n: nat, i: nat)
    requires i < n <= |plan| == |drafts| && session != "" && Speaks(rca) && forall k :: uuids(k) != ""
    ensures var outs := ToldAll(session, rca, plan, drafts, rows, luck, uuids, n);
      && |outs| == n
      && Conforms(outs[i].observation) && outs[i].observation.kind == FixAction
      && outs[i].observation.source == "agent-fix" && outs[i].observation.sessionId == session
      && outs[i].observation.confidence == rca.confidence && outs[i].observation.severity == rca.severity
      && outs[i].observation.service == rca.service
      && outs[i].detail.step == plan[i] && outs[i].detail.risk == drafts[i].risk
      && outs[i].detail.rollbackPlan == drafts[i].rollback
      && outs[i].detail.requiresApproval == drafts[i].requiresApproval
      && outs[i].detail.fix == luck.ids(i)
      && var before, after := Persisted(rows, drafts, luck, i), Persisted(rows, drafts, luck, i + 1);
         if outs[i].detail.persisted then luck.ids(i) !in before && after == before[luck.ids(i) := drafts[i]]
         else after == before
  {
    if i < n - 1 {
      OneOutputPerStep(session, rca, plan, drafts, rows, luck, uuids, n - 1, i);
    } else {
      if n > 1 { OneOutputPerStep(session, rca, plan, drafts, rows, luck, uuids, n - 1, 0); }
      EmittableIffConforms(Draft(session, rca, plan[i]), uuids(i));
    }
  }

  /** Whether New accepts what the agent drafts is decided by the RCA result alone. */
  predicate Speaks(rca: Observation) {
    !rca.severity.UnspecifiedSeverity? && 0.0 <= rca.confidence <= 1.0
  }

  /** What the RCA agent emits always gets the whole plan out. */
  lemma RcaResultsSpeak(o: Observation)
    requires Conforms(o) && o.kind.RcaResult?
    ensures FirstRca([o]) == Some(o) && Speaks(o)
  {
    assert !Violates(o, UnspecifiedLevel) && !Violates(o, ConfidenceOutOfRange);
  }

  predicate FirstOfKind(inputs: seq<Observation>, i: nat)
    requires i < |inputs|
  {
    inputs[i].kind == RcaResult && forall j | 0 <= j < i :: inputs[j].kind != RcaResult
  }

  class Agent {
    var rows: map<FixId, FixRow>

    ghost predicate Valid()
      reads this
    {
      UniqueSeq(rows)
    }

    constructor ()
      ensures Valid() && rows == map[]
    {
      rows := map[];
    }

    /** The INSERT of FixActionDAO.Create. */
    method Create(id: FixId, row: FixRow, lands: bool) returns (ok: bool)
      modifies this
      ensures ok == Inserts(old(rows), row, id, lands)
      ensures ok <==>
        && lands && id !in old(rows)
        && forall g | g in old(rows) :: !(old(rows)[g].sid == row.sid && old(rows)[g].seqNo == row.seqNo)
      ensures rows == if ok then old(rows)[id := row] else old(rows)
    {
      ok := Inserts(rows, row, id, lands);
      if ok { rows := rows[id := row]; }
    }

    method FindRca(inputs: seq<Observation>) returns (found: Option<Observation>)
      ensures found == FirstRca(inputs)
      ensures found.None? ==> forall i | 0 <= i < |inputs| :: inputs[i].kind != RcaResult
      ensures found.Some? ==> exists i | 0 <= i < |inputs| :: found.value == inputs[i] && FirstOfKind(inputs, i)
    {
      var k := 0;
      while k < |inputs|
        invariant k <= |inputs| && FirstRca(inputs[k..]) == FirstRca(inputs)
        invariant forall i | 0 <= i < k :: inputs[i].kind != RcaResult
      {
        if inputs[k].kind.RcaResult? {
          assert FirstOfKind(inputs, k);
          return Some(inputs[k]);
        }
        assert inputs[k..][1..] == inputs[k + 1..];
        k := k + 1;
      }
      return None;
    }

    /** The loop that skips undecodable entries. */
    method SearchKnowledgeBase(kb: KbReply) returns (steps: Option<seq<FixStep>>)
      ensures steps == Candidate(kb)
    {
      steps := None;
      if kb.KbFails? { return; }
      var i := 0;
      while i < |kb.entries|
        invariant i <= |kb.entries| && steps.None?
        invariant Best(kb.entries[i..]) == Best(kb.entries)
      {
        if kb.entries[i].Some? { return kb.entries[i]; }
        assert kb.entries[i..][1..] == kb.entries[i + 1..];
        i := i + 1;
      }
    }

    /** One step: assess, persist, emit. */
    method TakeStep(
        session: string, s: SessionId, rca: Observation, step: FixStep, i: nat, luck: Luck, uuid: string,
        ghost before: map<FixId, FixRow>, ghost drafts: seq<FixRow>) returns (out: Option<Emission>)
      requires session != "" && uuid != "" && i < |drafts| && drafts[i] == Planned(s, i, step)
      requires rows == Persisted(before, drafts, luck, i)
      modifies this
      ensures rows == Persisted(before, drafts, luck, i + 1)
      ensures var persisted := Inserts(old(rows), drafts[i], luck.ids(i), luck.lands(i));
        out == if Speaks(rca) then Some(Told(session, rca, step, drafts[i], uuid, persisted, luck.ids(i))) else None
    {
      var (risk, rollback) := AssessRisk(step);
      if rollback == NoRollback { rollback := Proposed(step.rollbackPlan); }
      var requiresApproval := risk == High;
      var fa := FixRow(s, i + 1, step.actionType, step.target, risk, rollback, requiresApproval, NoApproval,
                       NotStarted);
      var persisted := Create(luck.ids(i), fa, luck.lands(i));
      var o := New(Draft(session, rca, step), uuid);
      out := if o.None? then None
             else Some(Emission(o.value, FixDetail(step, risk, rollback, requiresApproval, persisted, luck.ids(i))));
    }

    /** The persist-and-emit loop. */
    method RunPlan(
        session: string, s: SessionId, rca: Observation, plan: seq<FixStep>, luck: Luck, uuids: nat -> string,
        ghost drafts: seq<FixRow>) returns (outputs: seq<Emission>)
      requires Valid() && session != "" && forall i :: uuids(i) != ""
      requires drafts == PlannedAll(s, plan)
      modifies this
      ensures Valid()
      ensures rows == Persisted(old(rows), drafts, luck, |drafts|)
      ensures outputs ==
        if Speaks(rca) then ToldAll(session, rca, plan, drafts, old(rows), luck, uuids, |plan|) else []
    {
      outputs := [];
      PersistKeeps(rows, drafts, luck, |drafts|);
      for i := 0 to |plan|
        invariant rows == Persisted(old(rows), drafts, luck, i)
        invariant outputs == if Speaks(rca) then ToldAll(session, rca, plan, drafts, old(rows), luck, uuids, i) else []
      {
        var out := TakeStep(session, s, rca, plan[i], i, luck, uuids(i), old(rows), drafts);
        if out.Some? { outputs := outputs + [out.value]; }
      }
    }

    /** One output per step of the plan in order, or none; and the table as planned. */
    method Handle(
        session: string, parsed: Option<SessionId>, inputs: seq<Observation>, pattern: Option<Pattern>,
        kb: KbReply, llm: Option<seq<FixStep>>, luck: Luck, uuids: nat -> string) returns (r: Handled)
      requires Valid() && (parsed.Some? ==> session != "") && forall i :: uuids(i) != ""
      modifies this
      ensures Valid()
      ensures FirstRca(inputs).None? ==> r == Emitted([]) && rows == old(rows)
      ensures r.HandleFails? <==> FirstRca(inputs).Some? && (parsed.None? || pattern.None?)
      ensures r.HandleFails? ==> rows == old(rows)
      ensures r == HandleFails(InvalidSession) <==> FirstRca(inputs).Some? && parsed.None?
      ensures r == HandleFails(BadRcaDetail) <==> FirstRca(inputs).Some? && parsed.Some? && pattern.None?
      ensures r.Emitted? && FirstRca(inputs).Some? ==>
        var plan, rca := Plan(kb, llm, pattern.value), FirstRca(inputs).value;
        var drafts := PlannedAll(parsed.value, plan);
        && rows == Persisted(old(rows), drafts, luck, |plan|)
        && r.outputs ==
             if Speaks(rca) then ToldAll(session, rca, plan, drafts, old(rows), luck, uuids, |plan|) else []
    {
      var found := FindRca(inputs);
      if found.None? { return Emitted([]); }
      var rca := found.value;
      if parsed.None? { return HandleFails(InvalidSession); }
      if pattern.None? { return HandleFails(BadRcaDetail); }
      var steps := SearchKnowledgeBase(kb);
      var plan := if steps.Some? then steps.value else if llm.Some? then llm.value else DefaultFixSteps(pattern.value);
      var outputs := RunPlan(session, parsed.value, rca, plan, luck, uuids, PlannedAll(parsed.value, plan));
      return Emitted(outputs);
    }
  }
}
