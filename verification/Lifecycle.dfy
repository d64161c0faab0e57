/** What the transition table alone implies about a session's whole life. */
module Lifecycle {
  import opened Domain

  datatype Move = Move(event: Event, from: Status, to: Status)

  /** The longest distance from CREATED. */
  function Rank(s: Status): (r: nat)
    ensures r <= 8
  {
    match s
    case Created => 0
    case Collecting => 1
    case Analyzing => 2
    case RcaDone => 3
    case FixProposed => 4
    case AwaitingApproval => 5
    case FixSuggested => 5
    case FixExecuting => 6
    case Verifying => 7
    case _ => 8
  }

  // ---------- the table, status by status ----------

  /** The outgoing moves of a status, as the table lists them. */
  function TableRow(s: Status): map<Event, Status> {
    match s
    case Created => map[StartCollect := Collecting, Ignore := Ignored, Fail := Failed]
    case Collecting => map[CollectComplete := Analyzing, Ignore := Ignored, Fail := Failed]
    case Analyzing => map[AnalysisComplete := RcaDone, Ignore := Ignored, Fail := Failed]
    case RcaDone => map[RcaGenerated := FixProposed, Ignore := Ignored, Fail := Failed]
    case FixProposed => map[Approve := FixExecuting, FixGenerated := FixSuggested, Ignore := Ignored, Fail := Failed]
    case AwaitingApproval => map[Approve := FixExecuting, Reject := Rejected, Ignore := Ignored, Fail := Failed]
    case FixSuggested => map[Execute := FixExecuting, Ignore := Ignored, Fail := Failed]
    case FixExecuting => map[ExecuteComplete := Verifying, Ignore := Ignored, Fail := Failed]
    case Verifying => map[VerifySuccess := Resolved, VerifyFailure := RolledBack, Ignore := Ignored, Fail := Failed]
    case Resolved => map[]
    case Rejected => map[]
    case RolledBack => map[]
    case Ignored => map[]
    case Failed => map[]
  }

  function Listed(s: Status, e: Event): Option<Status> { if e in TableRow(s) then Some(TableRow(s)[e]) else None }

  /** Read event by event or status by status it is the same table. */
  lemma LookupIsListed(s: Status, e: Event)
    ensures Lookup(s, e) == Listed(s, e)
  {
  }

  function End(h: seq<Move>): Status {
    if h == [] then Created else h[|h| - 1].to
  }

  /** A committed history: table rows glued end to end, from CREATED. */
  predicate TablePath(h: seq<Move>) {
    h == [] ||
    var last := |h| - 1;
    TablePath(h[..last]) && h[last].from == End(h[..last]) && TableMove(h[last].from, h[last].event, h[last].to)
  }

  predicate Used(h: seq<Move>, e: Event) {
    exists k | 0 <= k < |h| :: h[k].event == e
  }

  predicate Visited(h: seq<Move>, s: Status) {
    exists k | 0 <= k < |h| :: h[k].to == s
  }

  lemma MoveRaisesRank(s: Status, e: Event, t: Status)
    requires TableMove(s, e, t)
    ensures Rank(s) < Rank(t)
  {
  }

  /** No event leads to a status at or below one that still accepts it. */
  lemma NoEventTwice(e: Event, s: Status, t: Status, s': Status, t': Status)
    requires TableMove(s, e, t) && TableMove(s', e, t')
    ensures Rank(s') < Rank(t)
  {
  }

  /** ... and so is every beginning of it. */
  lemma {:induction false} PathAt(h: seq<Move>, k: nat)
    requires TablePath(h) && k < |h|
    ensures TablePath(h[..k]) && h[k].from == End(h[..k]) && TableMove(h[k].from, h[k].event, h[k].to)
  {
    var last := |h| - 1;
    if k < last {
      PathAt(h[..last], k);
      assert h[..last][..k] == h[..k];
    }
  }

  lemma {:induction false} RanksGrow(h: seq<Move>, k: nat)
    requires TablePath(h) && k < |h|
    ensures Rank(h[k].to) <= Rank(End(h))
  {
    var last := |h| - 1;
    if k < last {
      RanksGrow(h[..last], k);
      MoveRaisesRank(h[last].from, h[last].event, h[last].to);
    }
  }

  /** No history is longer than eight moves. */
  lemma {:induction false} AtMostEightMoves(h: seq<Move>)
    requires TablePath(h)
    ensures |h| <= Rank(End(h)) <= 8
  {
    if h != [] {
      var last := |h| - 1;
      AtMostEightMoves(h[..last]);
      MoveRaisesRank(h[last].from, h[last].event, h[last].to);
    }
  }

  /** An event the current status accepts has not been applied before. */
  lemma EventIsFresh(h: seq<Move>, e: Event, t: Status)
    requires TablePath(h) && TableMove(End(h), e, t)
    ensures !Used(h, e)
  {
    if k :| 0 <= k < |h| && h[k].event == e {
      PathAt(h, k);
      RanksGrow(h, k);
      NoEventTwice(e, h[k].from, h[k].to, End(h), t);
    }
  }

  lemma PathExtends(h: seq<Move>, e: Event, t: Status)
    requires TablePath(h) && TableMove(End(h), e, t)
    ensures TablePath(h + [Move(e, End(h), t)])
  {
    assert (h + [Move(e, End(h), t)])[..|h|] == h;
  }

  /** Over a whole life every event is applied at most once. */
  lemma EachEventOnce(h: seq<Move>, i: nat, j: nat)
    requires TablePath(h) && i < j < |h|
    ensures h[i].event != h[j].event
  {
    PathAt(h, j);
    EventIsFresh(h[..j], h[j].event, h[j].to);
    assert h[..j][i] == h[i];
  }

  /** The absorbing statuses are exactly the terminal ones. */
  lemma AbsorbingIffTerminal(s: Status)
    ensures IsTerminal(s) <==> !exists e, t :: TableMove(s, e, t)
  {
    if IsTerminal(s) {
    } else {
      assert Successor(s, Fail, false) == Some(Failed);
      assert TableMove(s, Fail, Failed);
    }
  }

  /** AWAITING_APPROVAL in the past rules out FIX_PROPOSED in the present. */
  lemma AwaitingIsPastProposal(h: seq<Move>)
    requires TablePath(h) && Visited(h, AwaitingApproval)
    ensures Rank(End(h)) >= 5
  {
    var k :| 0 <= k < |h| && h[k].to == AwaitingApproval;
    RanksGrow(h, k);
  }
}
