/** The orchestrator's handlers as methods over the tables, each one running alone, for every
  * way their reads and writes can go: what they do to the tables, when they keep the
  * approvals and fix_actions tables in step, and what one observation does to a session.
  */
module Handlers {
  import opened Domain
  import opened Workflow
  import P = Protocol
  import R = Reactions

  datatype CallMade = CallMade(sid: SessionId, fx: P.Effect)

  datatype DecisionReply = Decided | NoSuchApproval | WrongSession | DbError

  /** The 200, 404, 400 and 500 of StartSession. */
  datatype StartReply = Started | NoSuchSession | CannotStart | InternalError

  /** One read of a row. */
  datatype RowRead = Found | Missing | ReadFails

  /** Whether a handler gets the fix actions and the session row it asks for. */
  datatype Reads = Reads(fixes: bool, session: bool) {
    predicate Both() { fixes && session }
  }

  /** One approval request: not made, or its INSERT fails without effect; the row is there and
    * the action not marked; or both. */
  datatype Request = NotMade | RowOnly | Made

  /** One UPDATE whose error is looked at. */
  datatype Write = Lands | Refused | Unreported

  /** One action in the executor, and which of the two UPDATEs around it, whose errors are not
    * looked at, land. */
  datatype Execution = Execution(ok: bool, began: bool, ended: bool)

  function Tagged(s: SessionId, fx: seq<P.Effect>): (calls: seq<CallMade>)
    ensures |calls| == |fx| && forall i | 0 <= i < |fx| :: calls[i] == CallMade(s, fx[i])
  {
    seq(|fx|, i requires 0 <= i < |fx| => CallMade(s, fx[i]))
  }

  // ---------- the two tables ----------

  /** An approvals row speaks about a HIGH-risk action of its own session and shows the
    * status the action shows. */
  predicate Matches(fix: map<FixId, FixRow>, row: ApprovalRow) {
    && Agrees(fix, row)
    && fix[row.fix].sid == row.sid
    && fix[row.fix].risk == High
    && row.status != NoApproval
  }

  /** The tables are in step: rows agree, no action has two, and every action past NONE has one. */
  ghost predicate InStep(fix: map<FixId, FixRow>, approvals: map<ApprovalId, ApprovalRow>) {
    && (forall x | x in approvals :: Matches(fix, approvals[x]))
    && (forall x, y | x in approvals && y in approvals && approvals[x].fix == approvals[y].fix :: x == y)
    && (forall f | f in fix && fix[f].approval != NoApproval :: exists x :: x in approvals && approvals[x].fix == f)
  }

  lemma OpenedInStep(
      fix: map<FixId, FixRow>, approvals: map<ApprovalId, ApprovalRow>, f: FixId, x: ApprovalId)
    requires InStep(fix, approvals) && f in fix && NeedsGate(fix[f]) && x !in approvals
    ensures InStep(fix[f := fix[f].(approval := Pending)], approvals[x := ApprovalRow(fix[f].sid, f, Pending)])
  {
    var fix' := fix[f := fix[f].(approval := Pending)];
    var approvals' := approvals[x := ApprovalRow(fix[f].sid, f, Pending)];
    forall g | g in fix' && fix'[g].approval != NoApproval
      ensures exists y :: y in approvals' && approvals'[y].fix == g
    {
      if g == f {
        assert approvals'[x].fix == g;
      } else {
        var y :| y in approvals && approvals[y].fix == g;
        assert approvals'[y].fix == g;
      }
    }
  }

  lemma DecidedInStep(
      fix: map<FixId, FixRow>, approvals: map<ApprovalId, ApprovalRow>, x: ApprovalId, v: ApprovalStatus)
    requires InStep(fix, approvals) && x in approvals && v != NoApproval
    ensures var row := approvals[x];
      InStep(fix[row.fix := fix[row.fix].(approval := v)], approvals[x := row.(status := v)])
  {
    var row := approvals[x];
    var fix' := fix[row.fix := fix[row.fix].(approval := v)];
    var approvals' := approvals[x := row.(status := v)];
    forall g | g in fix' && fix'[g].approval != NoApproval
      ensures exists y :: y in approvals' && approvals'[y].fix == g
    {
      var y := if g == row.fix then x else var y :| y in approvals && approvals[y].fix == g; y;
      assert approvals'[y].fix == g;
    }
  }

  /** Execution leaves the columns that approval is about alone. */
  predicate SameConsent(fix: map<FixId, FixRow>, fix': map<FixId, FixRow>) {
    fix'.Keys == fix.Keys && forall f | f in fix :: fix'[f].(exec := fix[f].exec) == fix[f]
  }

  lemma ExecutedInStep(fix: map<FixId, FixRow>, fix': map<FixId, FixRow>, approvals: map<ApprovalId, ApprovalRow>)
    requires InStep(fix, approvals) && SameConsent(fix, fix')
    ensures InStep(fix', approvals)
  {
    forall x | x in approvals
      ensures Matches(fix', approvals[x])
    {
      var f := approvals[x].fix;
      assert fix'[f].(exec := fix[f].exec) == fix[f];
    }
  }

  lemma InsertedInStep(fix: map<FixId, FixRow>, approvals: map<ApprovalId, ApprovalRow>, f: FixId, row: FixRow)
    requires InStep(fix, approvals) && f !in fix && row.approval == NoApproval
    ensures InStep(fix[f := row], approvals)
  {
  }

  // ---------- what the handlers do to the rows ----------

  /** The row an action has after TriggerApprovalGate ran for session s. */
  function Gated(row: FixRow, s: SessionId, request: Request): FixRow {
    if row.sid == s && NeedsGate(row) && request.Made? then row.(approval := Pending) else row
  }

  /** What the two UPDATEs leave in the execution column of an action not started. */
  function Left(e: Execution): ExecStatus {
    if e.ended then (if e.ok then Succeeded else FailedRun) else if e.began then Running else NotStarted
  }

  /** ... and after ExecuteFixActions. */
  function Ran(row: FixRow, s: SessionId, e: Execution): FixRow {
    if row.sid == s && Runnable(row) then row.(exec := Left(e)) else row
  }

  predicate HasUngated(fix: map<FixId, FixRow>, s: SessionId) {
    exists f | f in fix :: fix[f].sid == s && NeedsGate(fix[f])
  }

  lemma NothingToGate(fix: map<FixId, FixRow>, s: SessionId, asks: FixId -> Request)
    requires !HasUngated(fix, s)
    ensures GatedAll(fix, s, asks) == fix
  {
  }

  /** The table once the gate is done with the actions in done. */
  function GatedIn(
      fix: map<FixId, FixRow>, s: SessionId, asks: FixId -> Request, done: seq<FixId>): map<FixId, FixRow>
  {
    map f | f in fix :: if f in done then Gated(fix[f], s, asks(f)) else fix[f]
  }

  function GatedAll(fix: map<FixId, FixRow>, s: SessionId, asks: FixId -> Request): map<FixId, FixRow> {
    map f | f in fix :: Gated(fix[f], s, asks(f))
  }

  /** The table once execution is done with the actions in done. */
  function RanIn(
      fix: map<FixId, FixRow>, s: SessionId, run: FixId -> Execution, done: seq<FixId>): map<FixId, FixRow>
  {
    map f | f in fix :: if f in done then Ran(fix[f], s, run(f)) else fix[f]
  }

  function RanAll(fix: map<FixId, FixRow>, s: SessionId, run: FixId -> Execution): map<FixId, FixRow> {
    map f | f in fix :: Ran(fix[f], s, run(f))
  }

  lemma GateGoesOn(fix: map<FixId, FixRow>, s: SessionId, asks: FixId -> Request, all: seq<FixId>, i: nat)
    requires Lists(fix, s, all, All) && i < |all|
    ensures var f, now := all[i], GatedIn(fix, s, asks, all[..i]);
      && f in fix && fix[f].sid == s && f in now && now[f] == fix[f]
      && GatedIn(fix, s, asks, all[..i + 1]) == now[f := Gated(fix[f], s, asks(f))]
  {
    assert all[i] in all && all[i] !in all[..i];
    assert all[..i + 1] == all[..i] + [all[i]];
  }

  lemma GateDone(fix: map<FixId, FixRow>, s: SessionId, asks: FixId -> Request, all: seq<FixId>)
    requires Lists(fix, s, all, All)
    ensures GatedIn(fix, s, asks, all[..0]) == fix
    ensures GatedIn(fix, s, asks, all[..|all|]) == GatedAll(fix, s, asks)
  {
    assert all[..|all|] == all;
  }

  lemma RunGoesOn(fix: map<FixId, FixRow>, s: SessionId, run: FixId -> Execution, all: seq<FixId>, i: nat)
    requires Lists(fix, s, all, All) && i < |all|
    ensures var f, now := all[i], RanIn(fix, s, run, all[..i]);
      && f in fix && fix[f].sid == s && f in now && now[f] == fix[f]
      && RanIn(fix, s, run, all[..i + 1]) == now[f := Ran(fix[f], s, run(f))]
  {
    assert all[i] in all && all[i] !in all[..i];
    assert all[..i + 1] == all[..i] + [all[i]];
  }

  lemma RunDone(fix: map<FixId, FixRow>, s: SessionId, run: FixId -> Execution, all: seq<FixId>)
    requires Lists(fix, s, all, All)
    ensures RanIn(fix, s, run, all[..0]) == fix
    ensures Picked(fix, all[..0], [], Runnable)
    ensures RanIn(fix, s, run, all[..|all|]) == RanAll(fix, s, run)
  {
    assert all[..|all|] == all;
  }

  lemma RanAllSameConsent(fix: map<FixId, FixRow>, s: SessionId, run: FixId -> Execution)
    ensures SameConsent(fix, RanAll(fix, s, run))
  {
  }

  /** Where ExecuteFixActions stands before it looks at all[i]. */
  ghost predicate Executing(
      fix: map<FixId, FixRow>, s: SessionId, run: FixId -> Execution, all: seq<FixId>, i: nat, ran: seq<FixId>,
      now: map<FixId, FixRow>)
    requires i <= |all|
  {
    Picked(fix, all[..i], ran, Runnable) && now == RanIn(fix, s, run, all[..i])
  }

  lemma ExecutesNext(
      fix: map<FixId, FixRow>, s: SessionId, run: FixId -> Execution, all: seq<FixId>, i: nat, ran: seq<FixId>,
      now: map<FixId, FixRow>)
    requires Lists(fix, s, all, All) && i < |all| && Executing(fix, s, run, all, i, ran, now)
    ensures var f := all[i];
      && f in fix && f in now
      && (Runnable(fix[f]) ==> Executing(fix, s, run, all, i + 1, ran + [f],
            now[f := now[f].(exec := Left(run(f)))]))
      && (!Runnable(fix[f]) ==> Executing(fix, s, run, all, i + 1, ran, now))
  {
    PickNext(fix, s, all, i, ran, Runnable);
    RunGoesOn(fix, s, run, all, i);
  }

  lemma ExecutingEnds(
      fix: map<FixId, FixRow>, s: SessionId, run: FixId -> Execution, all: seq<FixId>, ran: seq<FixId>,
      now: map<FixId, FixRow>)
    requires Lists(fix, s, all, All)
    ensures Executing(fix, s, run, all, 0, [], fix)
    ensures Executing(fix, s, run, all, |all|, ran, now) ==> Lists(fix, s, ran, Runnable) && now == RanAll(fix, s, run)
  {
    RunDone(fix, s, run, all);
    if Executing(fix, s, run, all, |all|, ran, now) { PickDone(fix, s, all, ran, Runnable); }
  }

  /** The actions of s that get an approvals row. */
  function Asked(fix: map<FixId, FixRow>, s: SessionId, asks: FixId -> Request): set<FixId> {
    set f | f in fix && fix[f].sid == s && NeedsGate(fix[f]) && !asks(f).NotMade?
  }

  function Among(ids: seq<FixId>): set<FixId> { set f | f in ids }

  /** x is a row of approvals' for f that approvals does not have. */
  predicate New(
      approvals: map<ApprovalId, ApprovalRow>, approvals': map<ApprovalId, ApprovalRow>, x: ApprovalId, f: FixId)
  {
    x in approvals' && x !in approvals && approvals'[x].fix == f
  }

  /** approvals' adds one PENDING row of s for each action of fs, and nothing else. */
  ghost predicate Opened(
      approvals: map<ApprovalId, ApprovalRow>, approvals': map<ApprovalId, ApprovalRow>, s: SessionId, fs: set<FixId>)
  {
    && (forall x | x in approvals :: x in approvals' && approvals'[x] == approvals[x])
    && (forall x | x in approvals' && x !in approvals ::
          approvals'[x].fix in fs && approvals'[x] == ApprovalRow(s, approvals'[x].fix, Pending))
    && (forall f | f in fs :: exists x :: New(approvals, approvals', x, f))
    && (forall x, y, f | New(approvals, approvals', x, f) && New(approvals, approvals', y, f) :: x == y)
  }

  lemma OpenedOne(
      approvals: map<ApprovalId, ApprovalRow>, now: map<ApprovalId, ApprovalRow>, s: SessionId, fs: set<FixId>,
      x: ApprovalId, f: FixId)
    requires Opened(approvals, now, s, fs) && x !in now && f !in fs
    ensures Opened(approvals, now[x := ApprovalRow(s, f, Pending)], s, fs + {f})
  {
    var now' := now[x := ApprovalRow(s, f, Pending)];
    forall g | g in fs + {f}
      ensures exists y :: New(approvals, now', y, g)
    {
      if g == f {
        assert New(approvals, now', x, g);
      } else {
        var y :| New(approvals, now, y, g);
        assert New(approvals, now', y, g);
      }
    }
    forall y | y in now' && y !in approvals
      ensures now'[y].fix in fs + {f} && now'[y] == ApprovalRow(s, now'[y].fix, Pending)
      ensures y != x ==> New(approvals, now, y, now'[y].fix) && now'[y].fix != f
    {
    }
  }

  lemma AmongNext(all: seq<FixId>, i: nat, fs: set<FixId>)
    requires i < |all| && Distinct(all)
    ensures all[i] !in Among(all[..i])
    ensures Among(all[..i + 1]) * fs == Among(all[..i]) * fs + (if all[i] in fs then {all[i]} else {})
  {
    assert all[..i + 1] == all[..i] + [all[i]];
  }

  lemma AmongAll(fix: map<FixId, FixRow>, s: SessionId, asks: FixId -> Request, all: seq<FixId>)
    requires Lists(fix, s, all, All)
    ensures Among(all[..|all|]) * Asked(fix, s, asks) == Asked(fix, s, asks)
    ensures Among(all[..0]) * Asked(fix, s, asks) == {}
  {
    assert all[..|all|] == all;
    assert forall f | f in Asked(fix, s, asks) :: f in all;
  }

  /** Every row that is opened has its action marked. */
  ghost predicate NoneHalfOpened(fix: map<FixId, FixRow>, s: SessionId, asks: FixId -> Request) {
    forall f | f in Asked(fix, s, asks) :: asks(f).Made?
  }

  /** ids are selected by p among done, in seq order. */
  ghost predicate Picked(fix: map<FixId, FixRow>, done: seq<FixId>, ids: seq<FixId>, p: FixRow -> bool) {
    && Distinct(ids)
    && (forall f :: f in ids <==> f in done && f in fix && p(fix[f]))
    && (forall i, j | 0 <= i < j < |ids| :: fix[ids[i]].seqNo <= fix[ids[j]].seqNo)
  }

  lemma PickNext(
      fix: map<FixId, FixRow>, s: SessionId, all: seq<FixId>, i: nat, ids: seq<FixId>, p: FixRow -> bool)
    requires Lists(fix, s, all, All) && i < |all| && Picked(fix, all[..i], ids, p)
    ensures all[i] in fix && Picked(fix, all[..i + 1], if p(fix[all[i]]) then ids + [all[i]] else ids, p)
  {
    assert all[i] in all;
    assert all[..i + 1] == all[..i] + [all[i]];
    forall f | f in ids
      ensures f in fix && f != all[i] && fix[f].seqNo <= fix[all[i]].seqNo
    {
      assert f in all[..i];
    }
  }

  lemma PickDone(fix: map<FixId, FixRow>, s: SessionId, all: seq<FixId>, ids: seq<FixId>, p: FixRow -> bool)
    requires Lists(fix, s, all, All) && Picked(fix, all[..|all|], ids, p)
    ensures Lists(fix, s, ids, p)
  {
    assert all[..|all|] == all;
  }

  lemma SetTwice(sessions: map<SessionId, Status>, s: SessionId, a: Status, b: Status)
    ensures sessions[s := a][s := b] == sessions[s := b]
  {
  }

  // ---------- what an observation changes ----------

  /** Everything the handlers write. */
  datatype Tables = Tables(
    sessions: map<SessionId, Status>, fix: map<FixId, FixRow>, approvals: map<ApprovalId, ApprovalRow>,
    calls: seq<CallMade>, executed: seq<FixId>)

  /** The executor is handed the runnable actions of s, once each, by seq. */
  ghost predicate Executes(t: Tables, t': Tables, s: SessionId) {
    exists ran :: Lists(t.fix, s, ran, Runnable) && t'.executed == t.executed + ran
  }

  /** What the callbacks made do to the rest of the tables: the gate opens its requests,
    * execution runs its actions, and without a callback nothing changes. */
  ghost predicate Followed(
      t: Tables, t': Tables, s: SessionId, fx: seq<P.Effect>, asks: FixId -> Request, run: FixId -> Execution,
      got: Reads)
  {
    var gates, runs := got.Both() && P.GateFx in fx, got.Both() && P.ExecuteFx in fx;
    && t'.fix == (if gates then GatedAll(t.fix, s, asks) else if runs then RanAll(t.fix, s, run) else t.fix)
    && Opened(t.approvals, t'.approvals, s, if gates then Asked(t.fix, s, asks) else {})
    && if runs then Executes(t, t', s) else t'.executed == t.executed
  }

  /** The session, the calls and the answer are as the reaction says, and the tables as the
    * calls made leave them; they stay in step unless a request is left half open. */
  ghost predicate Reacted(
      t: Tables, t': Tables, s: SessionId, ok: bool, r: R.Reaction, asks: FixId -> Request, run: FixId -> Execution,
      got: Reads)
  {
    && ok == r.ok
    && t'.sessions == t.sessions[s := r.status]
    && t'.calls == t.calls + Tagged(s, r.effects)
    && Followed(t, t', s, r.effects, asks, run, got)
    && (InStep(t.fix, t.approvals) && NoneHalfOpened(t.fix, s, asks) ==> InStep(t'.fix, t'.approvals))
  }

  /** Nothing but the session moves. */
  lemma OnlyMoved(
      t: Tables, t': Tables, s: SessionId, ok: bool, status: Status, asks: FixId -> Request,
      run: FixId -> Execution, got: Reads)
    requires t' == t.(sessions := t.sessions[s := status])
    ensures Reacted(t, t', s, ok, R.Reaction(ok, status, []), asks, run, got)
  {
    assert t.calls + Tagged(s, []) == t.calls;
  }

  /** A move of the session before the rest does not show in the end. */
  lemma MovedFirst(
      t: Tables, t': Tables, t'': Tables, s: SessionId, status: Status, ok: bool, r: R.Reaction,
      asks: FixId -> Request, run: FixId -> Execution, got: Reads)
    requires t' == t.(sessions := t.sessions[s := status]) && Reacted(t', t'', s, ok, r, asks, run, got)
    ensures Reacted(t, t'', s, ok, r, asks, run, got)
  {
    SetTwice(t.sessions, s, status, r.status);
    assert Executes(t', t'', s) ==> Executes(t, t'', s);
  }

  // ---------- column by column ----------

  lemma HighRiskCounted(fix: map<FixId, FixRow>, s: SessionId)
    ensures HighRiskLeft(fix, s) == PendingHigh(fix, s)
  {
  }

  /** A decision whose first transaction lands ends the wait. */
  lemma DecisionLands(approve: bool, high: bool, env: Replies)
    requires env(0) == TxReply.Lands
    ensures Retried(Some(AwaitingApproval), if approve then Approve else Reject, high, env, 0).row ==
      Some(if approve then FixExecuting else Rejected)
  {
  }

  /** The gate over s: PENDING are, and have a new row, exactly the HIGH-risk actions of s at
    * NONE whose request gets that far. */
  ghost predicate GateLeaves(
      fix: map<FixId, FixRow>, approvals: map<ApprovalId, ApprovalRow>,
      fix': map<FixId, FixRow>, approvals': map<ApprovalId, ApprovalRow>, s: SessionId, asks: FixId -> Request)
  {
    && fix'.Keys == fix.Keys
    && (forall f | f in fix ::
          fix'[f] ==
            if fix[f].sid == s && fix[f].risk == High && fix[f].approval == NoApproval && asks(f) == Made
            then fix[f].(approval := Pending) else fix[f])
    && (forall x, f | New(approvals, approvals', x, f) ::
          && f in fix && fix[f].sid == s && fix[f].risk == High && fix[f].approval == NoApproval
          && asks(f) != NotMade && approvals'[x] == ApprovalRow(s, f, Pending))
    && (forall f | f in fix && fix[f].sid == s && fix[f].risk == High && fix[f].approval == NoApproval ::
          asks(f) != NotMade ==> exists x :: New(approvals, approvals', x, f))
  }

  lemma GateInColumns(
      fix: map<FixId, FixRow>, approvals: map<ApprovalId, ApprovalRow>, approvals': map<ApprovalId, ApprovalRow>,
      s: SessionId, asks: FixId -> Request)
    requires Opened(approvals, approvals', s, Asked(fix, s, asks))
    ensures GateLeaves(fix, approvals, GatedAll(fix, s, asks), approvals', s, asks)
  {
    forall x, f | New(approvals, approvals', x, f)
      ensures f in Asked(fix, s, asks) && approvals'[x] == ApprovalRow(s, f, Pending)
    {
    }
    forall f | f in fix && fix[f].sid == s && NeedsGate(fix[f]) && asks(f) != NotMade
      ensures exists x :: New(approvals, approvals', x, f)
    {
      assert f in Asked(fix, s, asks);
    }
  }

  /** The executor over s: handed to it are exactly the actions of s not started that need no
    * approval or have it, and their column shows what the executor said and which UPDATE landed. */
  ghost predicate RunLeaves(
      fix: map<FixId, FixRow>, fix': map<FixId, FixRow>, s: SessionId, run: FixId -> Execution, ran: seq<FixId>)
  {
    && (forall f :: f in ran <==>
          && f in fix && fix[f].sid == s && fix[f].exec == NotStarted
          && (fix[f].requiresApproval ==> fix[f].approval == Approved))
    && (forall i, j | 0 <= i < j < |ran| :: ran[i] != ran[j])
    && (forall i, j | 0 <= i < j < |ran| && ran[i] in fix && ran[j] in fix :: fix[ran[i]].seqNo <= fix[ran[j]].seqNo)
    && fix'.Keys == fix.Keys
    && (forall f | f in fix && f !in ran :: fix'[f] == fix[f])
    && (forall f | f in fix && f in ran ::
          fix'[f] == fix[f].(exec :=
            if run(f).ended then (if run(f).ok then Succeeded else FailedRun)
            else if run(f).began then Running else NotStarted))
  }

  lemma RunInColumns(fix: map<FixId, FixRow>, s: SessionId, run: FixId -> Execution, ran: seq<FixId>)
    requires Lists(fix, s, ran, Runnable)
    ensures RunLeaves(fix, RanAll(fix, s, run), s, run, ran)
  {
  }

  class Orchestrator {
    const engine: Engine
    var approvals: map<ApprovalId, ApprovalRow>
    var nextApproval: ApprovalId            // stands for uuid.New
    var calls: seq<CallMade>                // dispatches and callbacks, in order
    var executed: seq<FixId>                // what Executor.Execute was handed

    ghost predicate Valid()
      reads this`approvals, this`nextApproval, engine`fix
    {
      forall x | x in approvals :: x < nextApproval && approvals[x].fix in engine.fix
    }

    ghost function Now(): Tables
      reads this`approvals, this`calls, this`executed, engine
    {
      Tables(engine.sessions, engine.fix, approvals, calls, executed)
    }

    /** The two tables are in step now. */
    ghost predicate Agreeing()
      reads this`approvals, engine`fix
    {
      InStep(engine.fix, approvals)
    }

    constructor ()
      ensures Valid() && Agreeing() && fresh(engine) && engine.sessions == map[] && engine.fix == map[]
      ensures approvals == map[] && calls == [] && executed == []
    {
      engine := new Engine();
      approvals, nextApproval, calls, executed := map[], 0, [], [];
    }

    /** FixActionDAO.Create under the table's UNIQUE (session_id, seq). */
    method InsertFix(f: FixId, row: FixRow) returns (ok: bool)
      requires Valid() && FreshFromAgent(row)
      modifies engine`fix
      ensures Valid() && (old(Agreeing()) ==> Agreeing())
      ensures ok <==>
        && f !in old(engine.fix)
        && forall g | g in old(engine.fix) ::
             !(old(engine.fix)[g].sid == row.sid && old(engine.fix)[g].seqNo == row.seqNo)
      ensures engine.fix == if ok then old(engine.fix)[f := row] else old(engine.fix)
    {
      ok := f !in engine.fix && SeqFree(engine.fix, row);
      if ok {
        if Agreeing() { InsertedInStep(engine.fix, approvals, f, row); }
        engine.fix := engine.fix[f := row];
      }
    }

    /** The INSERT of the approvals row, then the UPDATE of the action, which may be lost. */
    method OpenRequest(s: SessionId, f: FixId, marks: bool)
      requires Valid() && f in engine.fix && engine.fix[f].sid == s && NeedsGate(engine.fix[f])
      modifies this`approvals, this`nextApproval, engine`fix
      ensures Valid() && (old(Agreeing()) && marks ==> Agreeing())
      ensures engine.fix ==
        if marks then old(engine.fix)[f := old(engine.fix)[f].(approval := Pending)] else old(engine.fix)
      ensures old(nextApproval) !in old(approvals)
      ensures approvals == old(approvals)[old(nextApproval) := ApprovalRow(s, f, Pending)]
    {
      if Agreeing() { OpenedInStep(engine.fix, approvals, f, nextApproval); }
      approvals := approvals[nextApproval := ApprovalRow(s, f, Pending)];
      nextApproval := nextApproval + 1;
      if marks { engine.fix := engine.fix[f := engine.fix[f].(approval := Pending)]; }
    }

    /** The loop over the HIGH-risk actions at NONE: a row for each whose request gets that far. */
    method AskForApprovals(s: SessionId, asks: FixId -> Request)
      requires Valid()
      modifies this`approvals, this`nextApproval, engine`fix
      ensures Valid() && (old(Agreeing()) && NoneHalfOpened(old(engine.fix), s, asks) ==> Agreeing())
      ensures engine.fix == GatedAll(old(engine.fix), s, asks)
      ensures Opened(old(approvals), approvals, s, Asked(old(engine.fix), s, asks))
    {
      var ids := engine.GetBySessionID(s);
      var fixes := engine.fix;
      GateDone(fixes, s, asks, ids);
      AmongAll(fixes, s, asks, ids);
      for i := 0 to |ids|
        invariant Valid() && (old(Agreeing()) && NoneHalfOpened(fixes, s, asks) ==> Agreeing())
        invariant engine.fix == GatedIn(fixes, s, asks, ids[..i])
        invariant Opened(old(approvals), approvals, s, Among(ids[..i]) * Asked(fixes, s, asks))
      {
        var f := ids[i];
        GateGoesOn(fixes, s, asks, ids, i);
        AmongNext(ids, i, Asked(fixes, s, asks));
        if NeedsGate(fixes[f]) && !asks(f).NotMade? {
          OpenedOne(old(approvals), approvals, s, Among(ids[..i]) * Asked(fixes, s, asks), nextApproval, f);
          OpenRequest(s, f, asks(f).Made?);
        }
      }
    }

    /** Nothing when a read it needs fails; else one approvals row for every HIGH-risk action
      * at NONE whose request gets that far. */
    method TriggerApprovalGate(s: SessionId, asks: FixId -> Request, got: Reads) returns (ok: bool)
      requires Valid()
      modifies this`approvals, this`nextApproval, engine`fix
      ensures Valid() && (old(Agreeing()) && NoneHalfOpened(old(engine.fix), s, asks) ==> Agreeing())
      ensures ok <==> got.fixes && (got.session || !exists f | f in old(engine.fix) ::
        old(engine.fix)[f].sid == s && old(engine.fix)[f].risk == High && old(engine.fix)[f].approval == NoApproval)
      ensures if got.fixes && got.session then
                GateLeaves(old(engine.fix), old(approvals), engine.fix, approvals, s, asks)
              else engine.fix == old(engine.fix) && approvals == old(approvals)
      ensures engine.fix == if got.Both() then GatedAll(old(engine.fix), s, asks) else old(engine.fix)
      ensures Opened(old(approvals), approvals, s, if got.Both() then Asked(old(engine.fix), s, asks) else {})
    {
      if !got.fixes { return false; }
      if !HasUngated(engine.fix, s) {
        NothingToGate(engine.fix, s, asks);
        assert Asked(engine.fix, s, asks) == {};
        GateInColumns(engine.fix, approvals, approvals, s, asks);
        return true;
      }
      if !got.session { return false; }
      AskForApprovals(s, asks);
      GateInColumns(old(engine.fix), old(approvals), approvals, s, asks);
      ok := true;
    }

    /** A failing read changes nothing; the row takes the decision unless its UPDATE fails; the
      * action does if that UPDATE reports success and the SELECT and UPDATE of the action, whose
      * errors are not looked at, go well; so does the session, whose reply is not looked at. */
    method DecisionApproval(
        s: SessionId, x: ApprovalId, approve: bool, env: Replies, readable: bool, first: Write, second: bool)
        returns (reply: DecisionReply)
      requires Valid()
      modifies this`approvals, engine
      ensures Valid() && (old(Agreeing()) && !first.Unreported? && second ==> Agreeing())
      ensures reply ==
        if !readable then DbError
        else if x !in old(approvals) then NoSuchApproval
        else if old(approvals)[x].sid != s then WrongSession
        else if !first.Lands? then DbError else Decided
      ensures approvals ==
        if readable && x in old(approvals) && old(approvals)[x].sid == s && !first.Refused? then
          old(approvals)[x := old(approvals)[x].(status := if approve then Approved else ApprovalStatus.Refused)]
        else old(approvals)
      ensures engine.fix ==
        if reply.Decided? && second then
          old(engine.fix)[old(approvals)[x].fix :=
            old(engine.fix)[old(approvals)[x].fix].(approval :=
              if approve then Approved else ApprovalStatus.Refused)]
        else old(engine.fix)
      ensures engine.sessions ==
        if reply.Decided? then
          Put(old(engine.sessions), s,
              Retried(Row(old(engine.sessions), s), if approve then Approve else Reject,
                      PendingHigh(engine.fix, s), env, 0).row)
        else old(engine.sessions)
      ensures (reply.Decided? && s in old(engine.sessions) && old(engine.sessions)[s] == AwaitingApproval
               && env(0) == TxReply.Lands) ==>
        s in engine.sessions && engine.sessions[s] == if approve then FixExecuting else Rejected
    {
      if !readable { return DbError; }
      if x !in approvals { return NoSuchApproval; }
      var row := approvals[x];
      if row.sid != s { return WrongSession; }
      var decision := P.Verdict(approve);
      var event := if approve then Approve else Reject;
      if Agreeing() { DecidedInStep(engine.fix, approvals, x, decision); }
      if !first.Refused? { approvals := approvals[x := row.(status := decision)]; }
      if !first.Lands? { return DbError; }
      if second { engine.fix := engine.fix[row.fix := engine.fix[row.fix].(approval := decision)]; }
      var _ := engine.Transition(s, event, env);
      if env(0) == TxReply.Lands { DecisionLands(approve, PendingHigh(engine.fix, s), env); }
      return Decided;
    }

    /** RUNNING, Execute, then SUCCEEDED or FAILED; either UPDATE may be lost. */
    method RunAction(f: FixId, e: Execution)
      requires f in engine.fix && engine.fix[f].exec == NotStarted
      modifies this`executed, engine`fix
      ensures executed == old(executed) + [f]
      ensures engine.fix == old(engine.fix)[f := old(engine.fix)[f].(exec := Left(e))]
    {
      if e.began { engine.fix := engine.fix[f := engine.fix[f].(exec := Running)]; }
      executed := executed + [f];
      if e.ended { engine.fix := engine.fix[f := engine.fix[f].(exec := if e.ok then Succeeded else FailedRun)]; }
      assert engine.fix[f] == old(engine.fix)[f].(exec := Left(e));
    }

    /** The loop of ExecuteFixActions: every cleared action not yet started goes to the
      * executor, once, by seq. */
    method RunActions(s: SessionId, run: FixId -> Execution) returns (ran: seq<FixId>)
      modifies this`executed, engine`fix
      ensures Lists(old(engine.fix), s, ran, Runnable) && executed == old(executed) + ran
      ensures engine.fix == RanAll(old(engine.fix), s, run)
      ensures RunLeaves(old(engine.fix), engine.fix, s, run, ran)
    {
      var ids := engine.GetBySessionID(s);
      var fixes := engine.fix;
      ran := [];
      ExecutingEnds(fixes, s, run, ids, ran, fixes);
      for i := 0 to |ids|
        invariant executed == old(executed) + ran
        invariant Executing(fixes, s, run, ids, i, ran, engine.fix)
      {
        var f := ids[i];
        ExecutesNext(fixes, s, run, ids, i, ran, engine.fix);
        if !WaitsForApproval(fixes[f]) && fixes[f].exec == NotStarted {
          RunAction(f, run(f));
          ran := ran + [f];
        }
      }
      ExecutingEnds(fixes, s, run, ids, ran, engine.fix);
      RunInColumns(fixes, s, run, ran);
    }

    /** Nothing when a read fails; else the loop, then one EXECUTE_COMPLETE. */
    method ExecuteFixActions(s: SessionId, run: FixId -> Execution, env: Replies, got: Reads)
        returns (ok: bool, ran: seq<FixId>)
      requires Valid()
      modifies this`executed, engine
      ensures Valid() && (old(Agreeing()) ==> Agreeing())
      ensures !got.Both() ==>
        !ok && ran == [] && executed == old(executed) && engine.fix == old(engine.fix)
        && engine.sessions == old(engine.sessions)
      ensures got.Both() ==>
        var t := Retried(Row(old(engine.sessions), s), ExecuteComplete, PendingHigh(engine.fix, s), env, 0);
        && Lists(old(engine.fix), s, ran, Runnable) && executed == old(executed) + ran
        && engine.fix == RanAll(old(engine.fix), s, run)
        && engine.sessions == Put(old(engine.sessions), s, t.row)
        && ok == (t.result.Moved? || t.result.Invalid?)
    {
      ran := [];
      if !got.fixes { return false, ran; }
      if !got.session { return false, ran; }
      ran := RunActions(s, run);
      RanAllSameConsent(old(engine.fix), s, run);
      if old(Agreeing()) { ExecutedInStep(old(engine.fix), engine.fix, approvals); }
      var r := engine.Transition(s, ExecuteComplete, env);
      ok := r.Moved? || r.Invalid?;
    }

    /** The CREATED session starts; and the base agents are told, if the handler also gets to
      * read the session, whether or not telling them works. */
    method StartSession(s: SessionId, env: Replies, read: RowRead, dispatches: bool) returns (reply: StartReply)
      requires Valid()
      modifies this`calls, engine`sessions
      ensures Valid() && (old(Agreeing()) ==> Agreeing())
      ensures var t := Retried(Row(old(engine.sessions), s), StartCollect, PendingHigh(engine.fix, s), env, 0);
        && engine.sessions == Put(old(engine.sessions), s, t.row)
        && reply == (match t.result
                     case NotFound => NoSuchSession
                     case Invalid => CannotStart
                     case Transient => InternalError
                     case Moved(_) =>
                       if read.Missing? then NoSuchSession
                       else if read.Found? && dispatches then Started else InternalError)
        && calls == old(calls) + (if t.result.Moved? && read.Found? then [CallMade(s, P.CollectFx)] else [])
        && (t.result.Moved? ==>
              s in old(engine.sessions) && old(engine.sessions)[s] == Created && engine.sessions[s] == Collecting)
    {
      RetryMovesOnce(Row(engine.sessions, s), StartCollect, PendingHigh(engine.fix, s), env, 0);
      var r := engine.Transition(s, StartCollect, env);
      if r.NotFound? { return NoSuchSession; }
      if r.Invalid? { return CannotStart; }
      if r.Transient? { return InternalError; }
      if read.Missing? { return NoSuchSession; }
      if read.ReadFails? { return InternalError; }
      calls := calls + [CallMade(s, P.CollectFx)];
      return if dispatches then Started else InternalError;
    }

    /** One Transition of the session an observation is about. */
    method Advance(s: SessionId, e: Event, env: Replies, ghost high: bool) returns (r: TxResult)
      requires s in engine.sessions && high == PendingHigh(engine.fix, s)
      modifies engine`sessions
      ensures var t := R.Goes(old(engine.sessions)[s], e, high, env);
        r == t.result && Now() == old(Now()).(sessions := old(engine.sessions)[s := t.status])
      ensures r.Moved? ==> Successor(old(engine.sessions)[s], e, high) == Some(r.status) == Some(engine.sessions[s])
    {
      R.GoesUp(engine.sessions[s], e, high, env);
      RetryMovesOnce(Row(engine.sessions, s), e, high, env, 0);
      r := engine.Transition(s, e, env);
    }

    /** The event loop's approval callback, whose error is only logged. */
    method OnApprovalGate(s: SessionId, asks: FixId -> Request, run: FixId -> Execution, got: Reads)
      requires Valid() && s in engine.sessions
      modifies this`calls, this`approvals, this`nextApproval, engine`fix
      ensures Valid()
      ensures Reacted(old(Now()), Now(), s, true, R.Reaction(true, engine.sessions[s], [P.GateFx]), asks, run, got)
    {
      calls := calls + [CallMade(s, P.GateFx)];
      var _ := TriggerApprovalGate(s, asks, got);
      assert engine.sessions[s := engine.sessions[s]] == engine.sessions;
      assert Tagged(s, [P.GateFx]) == [CallMade(s, P.GateFx)];
    }

    /** The event loop's execution callback, whose error is only logged. */
    method OnExecuteFixes(
        s: SessionId, asks: FixId -> Request, run: FixId -> Execution, env: nat -> Replies, got: Reads,
        ghost after: bool)
      requires Valid() && s in engine.sessions && engine.sessions[s] == FixExecuting
      requires after == PendingHigh(RanAll(engine.fix, s, run), s)
      modifies this`calls, this`executed, engine
      ensures Valid()
      ensures Reacted(old(Now()), Now(), s, true, R.Executing(after, env, got.Both()), asks, run, got)
    {
      calls := calls + [CallMade(s, P.ExecuteFx)];
      R.GoesUp(FixExecuting, ExecuteComplete, after, env(3));
      RetryMovesOnce(Some(FixExecuting), ExecuteComplete, after, env(3), 0);
      ghost var was := Now();
      var _, ran := ExecuteFixActions(s, run, env(3), got);
      assert Tagged(s, [P.ExecuteFx]) == [CallMade(s, P.ExecuteFx)];
      assert got.Both() ==> Lists(was.fix, s, ran, Runnable) && executed == was.executed + ran;
      assert was.sessions[s := FixExecuting] == was.sessions;
    }

    /** Step 3 of a proposal that nobody has to approve. */
    method StartExecution(
        s: SessionId, asks: FixId -> Request, run: FixId -> Execution, env: nat -> Replies, got: Reads,
        ghost high: bool, ghost after: bool)
        returns (ok: bool)
      requires Valid() && s in engine.sessions && engine.sessions[s] == FixSuggested
      requires high == PendingHigh(engine.fix, s) && after == PendingHigh(RanAll(engine.fix, s, run), s)
      modifies this, engine
      ensures Valid()
      ensures Reacted(old(Now()), Now(), s, ok, R.Suggested(high, after, env, got.Both()), asks, run, got)
    {
      ghost var was := Now();
      var started := Advance(s, Execute, env(2), high);
      ghost var mid := Now();
      if !started.Moved? {
        OnlyMoved(was, mid, s, started.Invalid?, engine.sessions[s], asks, run, got);
        return started.Invalid?;
      }
      OnExecuteFixes(s, asks, run, env, got, after);
      ok := true;
      MovedFirst(was, mid, Now(), s, FixExecuting, ok, R.Executing(after, env, got.Both()), asks, run, got);
    }

    /** Steps 2 and 3: route, and drive the gate or the execution. */
    method RouteProposal(
        s: SessionId, asks: FixId -> Request, run: FixId -> Execution, env: nat -> Replies, got: Reads,
        ghost high: bool, ghost after: bool) returns (ok: bool)
      requires Valid() && s in engine.sessions && engine.sessions[s] == FixProposed
      requires high == PendingHigh(engine.fix, s) && after == PendingHigh(RanAll(engine.fix, s, run), s)
      modifies this, engine
      ensures Valid()
      ensures Reacted(old(Now()), Now(), s, ok, R.Proposed(high, after, env, got.Both()), asks, run, got)
    {
      ghost var was := Now();
      var routed := Advance(s, FixGenerated, env(1), high);
      ghost var mid, r := Now(), R.Proposed(high, after, env, got.Both());
      if !routed.Moved? {
        OnlyMoved(was, mid, s, routed.Invalid?, engine.sessions[s], asks, run, got);
        return routed.Invalid?;
      }
      ok := true;
      if routed.status == AwaitingApproval {
        OnApprovalGate(s, asks, run, got);
      } else if routed.status == FixSuggested {
        ok := StartExecution(s, asks, run, env, got, high, after);
      }
      MovedFirst(was, mid, Now(), s, routed.status, ok, r, asks, run, got);
    }

    /** FIX_ACTION in RCA_DONE: propose, then route. */
    method DriveProposal(
        s: SessionId, asks: FixId -> Request, run: FixId -> Execution, env: nat -> Replies, got: Reads,
        ghost high: bool, ghost after: bool) returns (ok: bool)
      requires Valid() && s in engine.sessions && engine.sessions[s] == RcaDone
      requires high == PendingHigh(engine.fix, s) && after == PendingHigh(RanAll(engine.fix, s, run), s)
      modifies this, engine
      ensures Valid()
      ensures Reacted(old(Now()), Now(), s, ok, R.Analyzed(high, after, env, got.Both()), asks, run, got)
    {
      ghost var was := Now();
      var r := Advance(s, RcaGenerated, env(0), high);
      ghost var mid := Now();
      if !r.Moved? {
        OnlyMoved(was, mid, s, false, engine.sessions[s], asks, run, got);
        return false;
      }
      ok := RouteProposal(s, asks, run, env, got, high, after);
      MovedFirst(was, mid, Now(), s, FixProposed, ok, R.Proposed(high, after, env, got.Both()), asks, run, got);
    }

    /** Evidence in COLLECTING: the analysis is dispatched on success. */
    method StartAnalysis(
        s: SessionId, asks: FixId -> Request, run: FixId -> Execution, env: Replies, got: Reads,
        ghost high: bool) returns (ok: bool)
      requires Valid() && s in engine.sessions && engine.sessions[s] == Collecting
      requires high == PendingHigh(engine.fix, s)
      modifies this`calls, engine`sessions
      ensures Valid()
      ensures var t := R.Goes(Collecting, CollectComplete, high, env);
        Reacted(old(Now()), Now(), s, ok,
                R.Reaction(t.result.Moved?, t.status, if t.result.Moved? then [P.AnalyzeFx] else []), asks, run, got)
    {
      ghost var was := Now();
      var r := Advance(s, CollectComplete, env, high);
      if !r.Moved? {
        OnlyMoved(was, Now(), s, false, engine.sessions[s], asks, run, got);
        return false;
      }
      if r.status == Analyzing { calls := calls + [CallMade(s, P.AnalyzeFx)]; }
      assert Tagged(s, [P.AnalyzeFx]) == [CallMade(s, P.AnalyzeFx)];
      ok := true;
    }

    /** The dispatch on stored status and evidence type, for every behaviour of the database;
      * known is whether GetStatus answers. */
    method HandleObservation(
        s: SessionId, kind: EvidenceType, asks: FixId -> Request, run: FixId -> Execution, env: nat -> Replies,
        known: bool, got: Reads) returns (ok: bool)
      requires Valid()
      modifies this, engine
      ensures Valid()
      ensures !known || s !in old(engine.sessions) ==> !ok && Now() == old(Now())
      ensures known && s in old(engine.sessions) ==>
        var high := HighRiskLeft(old(engine.fix), s);
        var after := PendingHigh(RanAll(old(engine.fix), s, run), s);
        Reacted(old(Now()), Now(), s, ok, R.React(old(engine.sessions)[s], kind, high, after, env, got.Both()),
                asks, run, got)
    {
      if !known || s !in engine.sessions { return false; }
      ghost var was := Now();
      var status := engine.sessions[s];
      HighRiskCounted(engine.fix, s);
      ghost var high, after := PendingHigh(engine.fix, s), PendingHigh(RanAll(engine.fix, s, run), s);
      assert was.sessions[s := status] == was.sessions;
      OnlyMoved(was, was, s, true, status, asks, run, got);
      ok := true;
      if status == Collecting {
        if kind.LogEvidence? || kind.MetricEvidence? || kind.TraceEvidence? {
          ok := StartAnalysis(s, asks, run, env(0), got, high);
        }
      } else if status == Analyzing {
        if kind.RcaResult? {
          var r := Advance(s, AnalysisComplete, env(0), high);
          ok := r.Moved?;
          OnlyMoved(was, Now(), s, ok, engine.sessions[s], asks, run, got);
        }
      } else if status == RcaDone {
        if kind.FixAction? {
          ok := DriveProposal(s, asks, run, env, got, high, after);
        }
      }
    }
  }
}
