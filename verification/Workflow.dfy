/** The workflow engine as an object over its tables: one transaction attempt, the
  * retry loop around it and the three periodic sweeps. Every reply of the database
  * is an argument.
  */
module Workflow {
  import opened Domain
  import opened Lifecycle

  /** How the database treats one attempt of tryTransition. */
  datatype TxReply =
    | Unreachable   // Begin or the locking SELECT fails
    | Skipped       // SKIP LOCKED returns no row
    | Aborts        // the count, the UPDATE or the commit fails without effect
    | Lost          // the commit takes effect, yet an error comes back
    | Lands

  datatype TxResult = Moved(status: Status) | NotFound | Invalid | Transient

  datatype Try = Try(row: Option<Status>, result: TxResult)

  type Replies = nat -> TxReply

  const ATTEMPTS := 3

  function Row(sessions: map<SessionId, Status>, s: SessionId): Option<Status> {
    if s in sessions then Some(sessions[s]) else None
  }

  function Put(sessions: map<SessionId, Status>, s: SessionId, row: Option<Status>): map<SessionId, Status> {
    if row.Some? then sessions[s := row.value] else sessions
  }

  /** What one attempt makes of a session row. */
  function Attempt(row: Option<Status>, e: Event, high: bool, reply: TxReply): Try {
    if reply.Unreachable? then Try(row, Transient)
    else if reply.Skipped? || row.None? then Try(row, NotFound)
    else
      var next := Successor(row.value, e, high);
      if next.None? then Try(row, Invalid)
      else if reply.Aborts? then Try(row, Transient)
      else Try(next, if reply.Lost? then Transient else Moved(next.value))
  }

  /** ... and what the attempts from number k on make of it. */
  function Retried(row: Option<Status>, e: Event, high: bool, env: Replies, k: nat): Try
    decreases ATTEMPTS - k
  {
    if k >= ATTEMPTS then Try(row, Transient)
    else
      var t := Attempt(row, e, high, env(k));
      if t.result.Transient? then Retried(t.row, e, high, env, k + 1) else t
  }

  predicate Accepts(row: Option<Status>, e: Event, high: bool) {
    row.Some? && Successor(row.value, e, high).Some?
  }

  predicate Harmless(reply: TxReply) { reply.Unreachable? || reply.Aborts? }

  /** The first reply, from attempt k on, that is not a failure without effect. */
  function FirstTrace(env: Replies, k: nat): Option<TxReply>
    decreases ATTEMPTS - k
  {
    if k >= ATTEMPTS then None else if Harmless(env(k)) then FirstTrace(env, k + 1) else Some(env(k))
  }

  /** A row that does not accept the event stays as it is, whatever happens. */
  lemma {:induction false} RefusedForGood(row: Option<Status>, e: Event, high: bool, env: Replies, k: nat)
    requires !Accepts(row, e, high)
    ensures Retried(row, e, high, env, k).row == row
    ensures !Retried(row, e, high, env, k).result.Moved?
    decreases ATTEMPTS - k
  {
    if k < ATTEMPTS { RefusedForGood(row, e, high, env, k + 1); }
  }

  lemma MovedPast(s: Status, e: Event, high: bool)
    requires Successor(s, e, high).Some?
    ensures !Accepts(Successor(s, e, high), e, high)
  {
    var t := Successor(s, e, high).value;
    assert TableMove(s, e, t);
    if Accepts(Some(t), e, high) {
      assert TableMove(t, e, Successor(t, e, high).value);
      NoEventTwice(e, s, t, t, Successor(t, e, high).value);
    }
  }

  /** Retrying never applies an event twice, even after a commit that took effect and
    * reported failure; and success is reported only for a move that was made. */
  lemma {:induction false} RetryMovesOnce(row: Option<Status>, e: Event, high: bool, env: Replies, k: nat)
    ensures var t := Retried(row, e, high, env, k);
      && (t.row == row || (row.Some? && t.row == Successor(row.value, e, high)))
      && (t.result.Moved? ==> Accepts(row, e, high) && t.row == Successor(row.value, e, high) == Some(t.result.status))
    decreases ATTEMPTS - k
  {
    if k < ATTEMPTS {
      var t := Attempt(row, e, high, env(k));
      if t.result.Transient? {
        if t.row == row {
          RetryMovesOnce(row, e, high, env, k + 1);
        } else {
          MovedPast(row.value, e, high);
          RefusedForGood(t.row, e, high, env, k + 1);
        }
      }
    }
  }

  /** The row moves exactly when it accepts the event and the first attempt to leave a
    * trace commits; the caller is told so exactly when that commit also reports. */
  lemma {:induction false} WhenRetryMoves(row: Option<Status>, e: Event, high: bool, env: Replies, k: nat)
    ensures var t, trace := Retried(row, e, high, env, k), FirstTrace(env, k);
      && (t.row != row <==> Accepts(row, e, high) && (trace == Some(Lands) || trace == Some(Lost)))
      && (t.result.Moved? <==> Accepts(row, e, high) && trace == Some(Lands))
    decreases ATTEMPTS - k
  {
    if !Accepts(row, e, high) {
      RefusedForGood(row, e, high, env, k);
    } else if k < ATTEMPTS {
      if Harmless(env(k)) {
        WhenRetryMoves(row, e, high, env, k + 1);
      } else {
        MovedPast(row.value, e, high);
        RefusedForGood(Successor(row.value, e, high), e, high, env, k + 1);
      }
    }
  }

  // ---------- what the caller is told ----------

  /** From attempt k on, j is the first that gets to the row. */
  ghost predicate FirstReach(env: Replies, k: nat, j: nat) {
    k <= j < 3 && env(j) != Unreachable && forall i: nat | k <= i < j :: env(i) == Unreachable
  }

  /** From attempt k on, j is the first that does not fail without effect. */
  ghost predicate FirstEffect(env: Replies, k: nat, j: nat) {
    && k <= j < 3 && env(j) != Unreachable && env(j) != Aborts
    && forall i: nat | k <= i < j :: env(i) == Unreachable || env(i) == Aborts
  }

  /** A row that is missing, or does not accept the event, from attempt k on. */
  ghost predicate Refusal(known: bool, env: Replies, k: nat, r: TxResult) {
    && (forall j: nat :: FirstReach(env, k, j) ==> r == if known && env(j) != Skipped then Invalid else NotFound)
    && ((forall i: nat | k <= i < 3 :: env(i) == Unreachable) ==> r == Transient)
  }

  /** A row that accepts it: after a commit that reported failure the row refuses. */
  ghost predicate Acceptance(env: Replies, k: nat, r: TxResult) {
    && (forall j: nat :: FirstEffect(env, k, j) ==>
          && (env(j) == Skipped ==> r == NotFound)
          && (env(j) == Lands ==> r.Moved?)
          && (env(j) == Lost ==> Refusal(true, env, j + 1, r)))
    && ((forall i: nat | k <= i < 3 :: env(i) == Unreachable || env(i) == Aborts) ==> r == Transient)
  }

  lemma {:induction false} RefusalAnswers(row: Option<Status>, e: Event, high: bool, env: Replies, k: nat)
    requires !Accepts(row, e, high)
    ensures Refusal(row.Some?, env, k, Retried(row, e, high, env, k).result)
    decreases ATTEMPTS - k
  {
    if k < ATTEMPTS {
      if env(k) == Unreachable {
        RefusalAnswers(row, e, high, env, k + 1);
        assert forall j: nat :: FirstReach(env, k, j) ==> FirstReach(env, k + 1, j);
      } else {
        assert forall j: nat :: FirstReach(env, k, j) ==> j == k;
      }
    }
  }

  lemma AcceptanceLater(env: Replies, k: nat, r: TxResult)
    requires k < 3 && (env(k) == Unreachable || env(k) == Aborts) && Acceptance(env, k + 1, r)
    ensures Acceptance(env, k, r)
  {
    assert forall j: nat :: FirstEffect(env, k, j) ==> FirstEffect(env, k + 1, j);
  }

  lemma AcceptanceNow(env: Replies, k: nat, r: TxResult)
    requires k < 3 && env(k) != Unreachable && env(k) != Aborts
    requires env(k) == Skipped ==> r == NotFound
    requires env(k) == Lands ==> r.Moved?
    requires env(k) == Lost ==> Refusal(true, env, k + 1, r)
    ensures Acceptance(env, k, r)
  {
    assert forall j: nat :: FirstEffect(env, k, j) ==> j == k;
  }

  lemma {:induction false} AcceptanceAnswers(row: Option<Status>, e: Event, high: bool, env: Replies, k: nat)
    requires Accepts(row, e, high)
    ensures Acceptance(env, k, Retried(row, e, high, env, k).result)
    decreases ATTEMPTS - k
  {
    if k < ATTEMPTS {
      OneTry(row, e, high, env, k);
      var r := Retried(row, e, high, env, k).result;
      if Harmless(env(k)) {
        AcceptanceAnswers(row, e, high, env, k + 1);
        AcceptanceLater(env, k, r);
      } else {
        if env(k) == Lost {
          MovedPast(row.value, e, high);
          RefusalAnswers(Successor(row.value, e, high), e, high, env, k + 1);
        }
        AcceptanceNow(env, k, r);
      }
    }
  }

  /** The answer of the three attempts, for every row and every way they can go. */
  lemma RetryAnswers(row: Option<Status>, e: Event, high: bool, env: Replies)
    ensures var r := Retried(row, e, high, env, 0).result;
      if row.Some? && Listed(row.value, e).Some? then Acceptance(env, 0, r) else Refusal(row.Some?, env, 0, r)
  {
    if row.Some? { LookupIsListed(row.value, e); }
    if Accepts(row, e, high) { AcceptanceAnswers(row, e, high, env, 0); } else { RefusalAnswers(row, e, high, env, 0); }
  }

  /** The first trace is the reply of the first attempt that does not fail without effect. */
  lemma {:induction false} FirstTraceIs(env: Replies, k: nat)
    ensures FirstTrace(env, k).None? <==> forall i: nat | k <= i < 3 :: env(i) == Unreachable || env(i) == Aborts
    ensures forall j: nat :: FirstEffect(env, k, j) ==> FirstTrace(env, k) == Some(env(j))
    decreases ATTEMPTS - k
  {
    if k < ATTEMPTS {
      if Harmless(env(k)) {
        FirstTraceIs(env, k + 1);
        assert forall j: nat :: FirstEffect(env, k, j) ==> FirstEffect(env, k + 1, j);
      } else {
        assert forall j: nat :: FirstEffect(env, k, j) ==> j == k;
      }
    }
  }

  lemma OneTry(row: Option<Status>, e: Event, high: bool, env: Replies, k: nat)
    requires k < ATTEMPTS
    ensures var t := Attempt(row, e, high, env(k));
      && Retried(row, e, high, env, k) == (if t.result.Transient? then Retried(t.row, e, high, env, k + 1) else t)
      && (t.row.Some? <==> row.Some?)
  {
  }

  lemma PutTwice(sessions: map<SessionId, Status>, s: SessionId, row: Option<Status>, row': Option<Status>)
    requires row.None? ==> s !in sessions && row'.None?
    requires row.Some? ==> row'.Some?
    ensures Row(Put(sessions, s, row), s) == row
    ensures Put(Put(sessions, s, row), s, row') == Put(sessions, s, row')
  {
  }

  // ---------- the verdict on a verified session ----------

  /** The actions SweepVerifying sees: none when the read fails, whose error it drops. */
  ghost predicate Repaired(fix: map<FixId, FixRow>, s: SessionId, readable: bool) {
    && readable
    && (exists f :: f in fix && fix[f].sid == s)
    && (forall f | f in fix && fix[f].sid == s :: fix[f].exec != FailedRun)
  }

  ghost function VerdictEvent(fix: map<FixId, FixRow>, s: SessionId, readable: bool): Event {
    if Repaired(fix, s, readable) then VerifySuccess else VerifyFailure
  }

  predicate All(row: FixRow) { true }

  /** A session the sweep picked gets one Transition; any other row is left alone. */
  ghost predicate SweptTo(
      fix: map<FixId, FixRow>, sessions: map<SessionId, Status>, sessions': map<SessionId, Status>,
      picked: set<SessionId>, event: SessionId -> Event, env: SessionId -> Replies)
  {
    forall s :: Row(sessions', s) ==
      if s in picked then Retried(Row(sessions, s), event(s), PendingHigh(fix, s), env(s), 0).row
      else Row(sessions, s)
  }

  lemma SweepGoesOn(
      fix: map<FixId, FixRow>, sessions: map<SessionId, Status>, now: map<SessionId, Status>,
      next: map<SessionId, Status>, done: set<SessionId>, s: SessionId, event: SessionId -> Event,
      env: SessionId -> Replies)
    requires SweptTo(fix, sessions, now, done, event, env) && s !in done
    requires next == Put(now, s, Retried(Row(now, s), event(s), PendingHigh(fix, s), env(s), 0).row)
    ensures SweptTo(fix, sessions, next, done + {s}, event, env)
  {
    assert Row(now, s) == Row(sessions, s);
    RetryMovesOnce(Row(now, s), event(s), PendingHigh(fix, s), env(s), 0);
    forall o: SessionId | o != s
      ensures Row(next, o) == Row(now, o)
    {
    }
  }

  function InStatus(sessions: map<SessionId, Status>, status: Status): set<SessionId> {
    set s | s in sessions && sessions[s] == status
  }

  ghost function Verdicts(fix: map<FixId, FixRow>, readable: SessionId -> bool): SessionId -> Event {
    (s: SessionId) => VerdictEvent(fix, s, readable(s))
  }

  /** What SweepVerifying does to one session: nothing unless it is VERIFYING, else the
    * verdict or, when the transaction does not get through, nothing yet. */
  lemma VerifyingSwept(
      fix: map<FixId, FixRow>, sessions: map<SessionId, Status>, sessions': map<SessionId, Status>,
      readable: SessionId -> bool, env: SessionId -> Replies, s: SessionId)
    requires SweptTo(fix, sessions, sessions', InStatus(sessions, Verifying), Verdicts(fix, readable), env)
    requires s in sessions
    ensures s in sessions'
    ensures sessions[s] != Verifying ==> sessions'[s] == sessions[s]
    ensures
      var repaired := readable(s) && (exists f | f in fix :: fix[f].sid == s)
        && forall f | f in fix && fix[f].sid == s :: fix[f].exec != FailedRun;
      var verdict := if repaired then Resolved else RolledBack;
      sessions[s] == Verifying ==>
        && sessions'[s] in {Verifying, verdict}
        && (env(s)(0) == Lands ==> sessions'[s] == verdict)
  {
    var e := Verdicts(fix, readable)(s);
    assert Row(sessions, s) == Some(sessions[s]);
    RetryMovesOnce(Row(sessions, s), e, PendingHigh(fix, s), env(s), 0);
    if sessions[s] == Verifying {
      assert Row(sessions', s) == Retried(Some(Verifying), e, PendingHigh(fix, s), env(s), 0).row;
    } else {
      assert Row(sessions', s) == Row(sessions, s);
    }
  }

  /** What SweepFixProposed does: pending HIGH-risk actions send the session to approval. */
  lemma ProposedSwept(
      fix: map<FixId, FixRow>, sessions: map<SessionId, Status>, sessions': map<SessionId, Status>,
      env: SessionId -> Replies, s: SessionId)
    requires SweptTo(fix, sessions, sessions', InStatus(sessions, FixProposed), s => FixGenerated, env)
    requires s in sessions
    ensures s in sessions'
    ensures sessions[s] != FixProposed ==> sessions'[s] == sessions[s]
    ensures
      var high := exists f | f in fix :: fix[f].sid == s && fix[f].risk == High && fix[f].exec == NotStarted;
      var routed := if high then AwaitingApproval else FixSuggested;
      sessions[s] == FixProposed ==>
        && sessions'[s] in {FixProposed, routed}
        && (env(s)(0) == Lands ==> sessions'[s] == routed)
  {
    assert Row(sessions, s) == Some(sessions[s]);
    RetryMovesOnce(Row(sessions, s), FixGenerated, PendingHigh(fix, s), env(s), 0);
    if sessions[s] == FixProposed {
      assert Row(sessions', s) == Retried(Some(FixProposed), FixGenerated, PendingHigh(fix, s), env(s), 0).row;
    } else {
      assert Row(sessions', s) == Row(sessions, s);
    }
  }

  /** What Sweep does: a session that is not both COLLECTING and stale stays, and one that is
    * fails, or stays when the transaction does not get through. */
  lemma StaleSwept(
      fix: map<FixId, FixRow>, sessions: map<SessionId, Status>, sessions': map<SessionId, Status>,
      stale: set<SessionId>, env: SessionId -> Replies, s: SessionId)
    requires SweptTo(fix, sessions, sessions', InStatus(sessions, Collecting) * stale, s => Fail, env)
    requires s in sessions
    ensures s in sessions'
    ensures sessions[s] != Collecting || s !in stale ==> sessions'[s] == sessions[s]
    ensures sessions[s] == Collecting && s in stale ==>
      && sessions'[s] in {Collecting, Failed}
      && (env(s)(0) == Lands ==> sessions'[s] == Failed)
  {
    assert Row(sessions, s) == Some(sessions[s]);
    RetryMovesOnce(Row(sessions, s), Fail, PendingHigh(fix, s), env(s), 0);
    if sessions[s] == Collecting && s in stale {
      assert Row(sessions', s) == Retried(Some(Collecting), Fail, PendingHigh(fix, s), env(s), 0).row;
    } else {
      assert Row(sessions', s) == Row(sessions, s);
    }
  }

  /** ids are exactly the members, each once, by seq. */
  ghost predicate Ranked(fix: map<FixId, FixRow>, ids: seq<FixId>, members: set<FixId>) {
    && members <= fix.Keys && Distinct(ids)
    && (forall f :: f in ids <==> f in members)
    && (forall i, j | 0 <= i < j < |ids| :: fix[ids[i]].seqNo <= fix[ids[j]].seqNo)
  }

  function Place(fix: map<FixId, FixRow>, ids: seq<FixId>, f: FixId): seq<FixId>
    requires f in fix && forall g | g in ids :: g in fix
  {
    if ids == [] || fix[f].seqNo < fix[ids[0]].seqNo then [f] + ids
    else [ids[0]] + Place(fix, ids[1..], f)
  }

  lemma {:induction false} Places(fix: map<FixId, FixRow>, ids: seq<FixId>, members: set<FixId>, f: FixId)
    requires Ranked(fix, ids, members) && f in fix && f !in members
    ensures Ranked(fix, Place(fix, ids, f), members + {f})
  {
    if ids != [] && fix[f].seqNo >= fix[ids[0]].seqNo {
      var rest := members - {ids[0]};
      assert ids == [ids[0]] + ids[1..];
      Places(fix, ids[1..], rest, f);
      assert members + {f} == rest + {f} + {ids[0]};
      RanksFirst(fix, ids[0], Place(fix, ids[1..], f), rest + {f});
    } else {
      RanksFirst(fix, f, ids, members);
    }
  }

  lemma RanksFirst(fix: map<FixId, FixRow>, f: FixId, ids: seq<FixId>, members: set<FixId>)
    requires Ranked(fix, ids, members) && f in fix && f !in members
    requires forall g | g in members :: fix[f].seqNo <= fix[g].seqNo
    ensures Ranked(fix, [f] + ids, members + {f})
  {
  }

  class Engine {
    var sessions: map<SessionId, Status>
    var fix: map<FixId, FixRow>

    constructor ()
      ensures sessions == map[] && fix == map[]
    {
      sessions, fix := map[], map[];
    }

    method TryTransition(s: SessionId, e: Event, reply: TxReply) returns (r: TxResult)
      modifies this`sessions
      ensures var t := Attempt(Row(old(sessions), s), e, PendingHigh(fix, s), reply);
        r == t.result && sessions == Put(old(sessions), s, t.row)
      ensures r == NotFound <==> reply != Unreachable && (s !in old(sessions) || reply == Skipped)
      ensures s in old(sessions) && reply != Unreachable && reply != Skipped ==>
        var status := old(sessions)[s];
        && (r == Invalid <==> Listed(status, e).None?)
        && (r == Transient <==> Listed(status, e).Some? && (reply == Aborts || reply == Lost))
        && (if Listed(status, e).Some? && (reply == Lands || reply == Lost) then
              && s in sessions && sessions == old(sessions)[s := sessions[s]]
              && (reply == Lands ==> r == Moved(sessions[s]))
              && (if status == FixProposed && e == FixGenerated then
                    sessions[s] ==
                      if exists f | f in fix :: fix[f].sid == s && fix[f].risk == High && fix[f].exec == NotStarted
                      then AwaitingApproval else FixSuggested
                  else Some(sessions[s]) == Listed(status, e))
            else sessions == old(sessions))
      ensures s !in old(sessions) || reply == Unreachable || reply == Skipped ==>
        sessions == old(sessions) && (r == NotFound || (r == Transient && reply == Unreachable))
    {
      if s in sessions { LookupIsListed(sessions[s], e); }
      if reply.Unreachable? { return Transient; }
      if s !in sessions || reply.Skipped? { return NotFound; }
      var status := sessions[s];
      var next := Lookup(status, e);
      if next.None? { return Invalid; }
      if status == FixProposed && e == FixGenerated {
        if reply.Aborts? { return Transient; }
        var high := PendingHigh(fix, s);
        next := Some(if high then AwaitingApproval else FixSuggested);
      }
      if reply.Aborts? { return Transient; }
      sessions := sessions[s := next.value];
      if reply.Lost? { return Transient; }
      return Moved(next.value);
    }

    method Transition(s: SessionId, e: Event, env: Replies) returns (r: TxResult)
      modifies this`sessions
      ensures var t := Retried(Row(old(sessions), s), e, PendingHigh(fix, s), env, 0);
        r == t.result && sessions == Put(old(sessions), s, t.row)
      ensures r.Moved? ==> s in sessions && sessions[s] == r.status
    {
      ghost var row, high := Row(sessions, s), PendingHigh(fix, s);
      ghost var now := row;
      RetryMovesOnce(row, e, high, env, 0);
      var attempt := 0;
      while attempt < ATTEMPTS
        invariant attempt <= ATTEMPTS && (row.Some? <==> now.Some?)
        invariant Retried(now, e, high, env, attempt) == Retried(row, e, high, env, 0)
        invariant sessions == Put(old(sessions), s, now)
      {
        ghost var t := Attempt(now, e, high, env(attempt));
        OneTry(now, e, high, env, attempt);
        PutTwice(old(sessions), s, now, t.row);
        r := TryTransition(s, e, env(attempt));
        now := t.row;
        if !r.Transient? {
          PutTwice(old(sessions), s, now, now);
          return;
        }
        attempt := attempt + 1;
      }
      return Transient;
    }

    /** SELECT ... WHERE session_id ORDER BY seq. */
    method GetBySessionID(s: SessionId) returns (ids: seq<FixId>)
      ensures Lists(fix, s, ids, All)
    {
      ids := [];
      var todo := set f | f in fix && fix[f].sid == s;
      ghost var mine := todo;
      while todo != {}
        invariant todo <= mine && Ranked(fix, ids, mine - todo)
        decreases |todo|
      {
        var f :| f in todo;
        Places(fix, ids, mine - todo, f);
        todo := todo - {f};
        ids := Place(fix, ids, f);
        assert mine - todo - {f} + {f} == mine - todo;
      }
    }

    /** The flag loop of SweepVerifying. */
    method Judge(s: SessionId, readable: bool) returns (e: Event)
      ensures e == VerdictEvent(fix, s, readable)
      ensures e == VerifySuccess || e == VerifyFailure
      ensures e == VerifySuccess <==>
        && readable && (exists f | f in fix :: fix[f].sid == s)
        && forall f | f in fix && fix[f].sid == s :: fix[f].exec != FailedRun
    {
      var ids := [];
      if readable { ids := GetBySessionID(s); }
      var allSucceeded, anyFailed := |ids| > 0, false;
      for i := 0 to |ids|
        invariant anyFailed <==> exists j | 0 <= j < i :: fix[ids[j]].exec == FailedRun
        invariant allSucceeded <==> |ids| > 0 && forall j | 0 <= j < i :: fix[ids[j]].exec == Succeeded
      {
        if fix[ids[i]].exec == FailedRun { anyFailed := true; }
        if fix[ids[i]].exec != Succeeded { allSucceeded := false; }
      }
      assert readable && |ids| > 0 ==> ids[0] in fix && fix[ids[0]].sid == s;
      e := VerifySuccess;
      if anyFailed {
        e := VerifyFailure;
      } else if !allSucceeded && |ids| == 0 {
        e := VerifyFailure;
      }
    }

    /** Every VERIFYING session gets its verdict; every other row stays. */
    method SweepVerifying(readable: SessionId -> bool, env: SessionId -> Replies)
      modifies this`sessions
      ensures SweptTo(fix, old(sessions), sessions, InStatus(old(sessions), Verifying), Verdicts(fix, readable), env)
    {
      var todo := InStatus(sessions, Verifying);
      ghost var picked, verdict := todo, Verdicts(fix, readable);
      while todo != {}
        invariant todo <= picked
        invariant SweptTo(fix, old(sessions), sessions, picked - todo, verdict, env)
        decreases |todo|
      {
        var s :| s in todo;
        ghost var now, done := sessions, picked - todo;
        todo := todo - {s};
        var e := Judge(s, readable(s));
        assert e == verdict(s);
        var _ := Transition(s, e, env(s));
        SweepGoesOn(fix, old(sessions), now, sessions, done, s, verdict, env);
        assert done + {s} == picked - todo;
      }
      assert picked - todo == picked;
    }

    /** Every FIX_PROPOSED session is routed. */
    method SweepFixProposed(env: SessionId -> Replies)
      modifies this`sessions
      ensures SweptTo(fix, old(sessions), sessions, InStatus(old(sessions), FixProposed), s => FixGenerated, env)
    {
      var todo := InStatus(sessions, FixProposed);
      ghost var picked := todo;
      while todo != {}
        invariant todo <= picked
        invariant SweptTo(fix, old(sessions), sessions, picked - todo, s => FixGenerated, env)
        decreases |todo|
      {
        var s :| s in todo;
        todo := todo - {s};
        ghost var now := sessions;
        var _ := Transition(s, FixGenerated, env(s));
        SweepGoesOn(fix, old(sessions), now, sessions, picked - todo - {s}, s, s => FixGenerated, env);
        assert picked - todo - {s} + {s} == picked - todo;
      }
      assert picked - todo == picked;
    }

    /** Sessions stuck in COLLECTING are failed. */
    method Sweep(stale: set<SessionId>, env: SessionId -> Replies)
      modifies this`sessions
      ensures SweptTo(fix, old(sessions), sessions, InStatus(old(sessions), Collecting) * stale, s => Fail, env)
    {
      var todo := InStatus(sessions, Collecting) * stale;
      ghost var picked := todo;
      while todo != {}
        invariant todo <= picked
        invariant SweptTo(fix, old(sessions), sessions, picked - todo, s => Fail, env)
        decreases |todo|
      {
        var s :| s in todo;
        todo := todo - {s};
        ghost var now := sessions;
        var _ := Transition(s, Fail, env(s));
        SweepGoesOn(fix, old(sessions), now, sessions, picked - todo - {s}, s, s => Fail, env);
        assert picked - todo - {s} + {s} == picked - todo;
      }
      assert picked - todo == picked;
    }
  }
}
