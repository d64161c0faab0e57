/** The vocabulary shared by every module: the session state machine, the rows
  * of the fix_actions and approvals tables, and the evidence enums.
  */
module Domain {

  datatype Option<+T> = None | Some(value: T)

  // ---------- the session state machine ----------

  datatype Status =
    | Created | Collecting | Analyzing | RcaDone | FixProposed
    | AwaitingApproval | FixSuggested | FixExecuting | Verifying
    | Resolved | RolledBack | Rejected | Ignored | Failed

  datatype Event =
    | StartCollect | CollectComplete | AnalysisComplete | RcaGenerated | FixGenerated
    | Approve | Reject | Execute | ExecuteComplete | VerifySuccess | VerifyFailure
    | Ignore | Fail | Retry

  /** The transition table, read event by event; None is a pair it does not list. */
  function Lookup(s: Status, e: Event): Option<Status> {
    match e
    case StartCollect => if s.Created? then Some(Collecting) else None
    case CollectComplete => if s.Collecting? then Some(Analyzing) else None
    case AnalysisComplete => if s.Analyzing? then Some(RcaDone) else None
    case RcaGenerated => if s.RcaDone? then Some(FixProposed) else None
    case FixGenerated => if s.FixProposed? then Some(FixSuggested) else None
    case Approve => if s.FixProposed? || s.AwaitingApproval? then Some(FixExecuting) else None
    case Reject => if s.AwaitingApproval? then Some(Rejected) else None
    case Execute => if s.FixSuggested? then Some(FixExecuting) else None
    case ExecuteComplete => if s.FixExecuting? then Some(Verifying) else None
    case VerifySuccess => if s.Verifying? then Some(Resolved) else None
    case VerifyFailure => if s.Verifying? then Some(RolledBack) else None
    case Ignore => if IsTerminal(s) then None else Some(Ignored)
    case Fail => if IsTerminal(s) then None else Some(Failed)
    case Retry => None
  }

  predicate IsTerminal(s: Status) {
    s.Resolved? || s.Rejected? || s.RolledBack? || s.Ignored? || s.Failed?
  }

  /** The status an accepted event leads to: the table's entry, except that the
    * routing event in FIX_PROPOSED looks at the pending HIGH-risk actions.
    */
  function Successor(s: Status, e: Event, pendingHigh: bool): Option<Status> {
    if s == FixProposed && e == FixGenerated then
      Some(if pendingHigh then AwaitingApproval else FixSuggested)
    else
      Lookup(s, e)
  }

  /** One row of the table, routing included, read as a relation. */
  predicate TableMove(s: Status, e: Event, t: Status) {
    Successor(s, e, false) == Some(t) || Successor(s, e, true) == Some(t)
  }

  // ---------- table rows ----------

  type SessionId = nat
  type FixId = nat
  type ApprovalId = nat

  datatype Risk = Low | Medium | High
  datatype ApprovalStatus = NoApproval | Pending | Approved | Refused
  datatype ExecStatus = NotStarted | Running | Succeeded | FailedRun

  /** The action types the rule table knows, and any other string. */
  datatype ActionType =
    | RestartPod | ScaleUp | ScaleDown | SwitchMaster | DataMigration | ConfigChange | RollbackDeploy
    | CircuitBreak | RateLimit | GcTune | ConnectionPoolTune
    | OtherAction(name: string)

  /** The rollback plans of the rule table, by what they say, and free text from a plan. */
  datatype Rollback =
    | NoRollback | KubernetesRestarts | ScaleBack | SwitchMasterBack | HaltMigration | RestoreConfig
    | RedeployPrevious | DisableBreaker | RestoreTuning | ManualIntervention
    | Proposed(text: string)

  datatype FixRow = FixRow(
    sid: SessionId, seqNo: nat, actionType: ActionType, target: string, risk: Risk, rollback: Rollback,
    requiresApproval: bool, approval: ApprovalStatus, exec: ExecStatus)

  datatype ApprovalRow = ApprovalRow(sid: SessionId, fix: FixId, status: ApprovalStatus)

  /** The action of an approvals row shows the row's status. */
  predicate Agrees(fix: map<FixId, FixRow>, row: ApprovalRow) {
    row.fix in fix && fix[row.fix].approval == row.status
  }

  /** What the fix agent writes: approval is required exactly for HIGH risk. */
  predicate FreshFromAgent(row: FixRow) {
    row.requiresApproval == (row.risk == High) && row.approval == NoApproval && row.exec == NotStarted
  }

  /** An action ExecuteFixActions leaves alone because nobody approved it. */
  predicate WaitsForApproval(row: FixRow) {
    row.requiresApproval && row.approval != Approved
  }

  /** What TriggerApprovalGate picks. */
  predicate NeedsGate(row: FixRow) { row.risk == High && row.approval == NoApproval }

  predicate Cleared(row: FixRow) { !WaitsForApproval(row) }

  /** What ExecuteFixActions runs. */
  predicate Runnable(row: FixRow) { Cleared(row) && row.exec == NotStarted }

  /** The count of determineFixProposedNextStatus is positive. */
  predicate PendingHigh(fix: map<FixId, FixRow>, s: SessionId) {
    exists f | f in fix :: fix[f].sid == s && fix[f].risk == High && fix[f].exec == NotStarted
  }

  /** What it is to tell: a HIGH-risk action of s has not been started. */
  ghost predicate HighRiskLeft(fix: map<FixId, FixRow>, s: SessionId) {
    exists f :: f in fix && fix[f].sid == s && fix[f].risk == High && fix[f].exec == NotStarted
  }

  /** The table has no row for this session and sequence number yet. */
  predicate SeqFree(fix: map<FixId, FixRow>, row: FixRow) {
    forall g | g in fix :: !(fix[g].sid == row.sid && fix[g].seqNo == row.seqNo)
  }

  /** ids are the rows of s that p selects, each once, ordered by seq. */
  ghost predicate Lists(fix: map<FixId, FixRow>, s: SessionId, ids: seq<FixId>, p: FixRow -> bool) {
    && Distinct(ids)
    && (forall f :: f in ids <==> f in fix && fix[f].sid == s && p(fix[f]))
    && (forall i, j | 0 <= i < j < |ids| :: fix[ids[i]].seqNo <= fix[ids[j]].seqNo)
  }

  // ---------- evidence ----------

  datatype EvidenceType = UnspecifiedType | LogEvidence | MetricEvidence | TraceEvidence | Alert | RcaResult | FixAction
  /** The root-cause patterns with a meaning of their own, and any other string. */
  datatype Pattern = PoolExhaustion | TimeoutCascade | NPlusOneQuery | ResourceLeak | OtherPattern(name: string)

  datatype Severity = UnspecifiedSeverity | Debug | Info | Warn | Error | Fatal

  predicate Distinct<T(==)>(s: seq<T>) {
    forall i, j | 0 <= i < j < |s| :: s[i] != s[j]
  }

  lemma Subsets<T>(a: set<T>, b: set<T>)
    requires a <= b
    ensures |a| <= |b| && (a != b ==> |a| < |b|)
  {
    if a != b {
      var x :| x in b && x !in a;
      Subsets(a, b - {x});
    }
  }
}
