/** The startup decision to jump over a stale backlog: the lag fold over partitions, the
  * three guards, and the commit loop that retries until every partition took.
  */
module Backlog {

  const DEFAULT_THRESHOLD := 10_000
  const NO_OFFSET := -1

  /** One entry of the ListOffsets reply. */
  datatype Listed = Listed(partition: int, last: int, failed: bool)

  /** How the broker treats one OffsetCommit. A reply names the partitions it took and those
    * it refused, and may leave some out; what it stored besides those it took, it does not
    * say, and an error reply says nothing at all. */
  datatype Reply =
    | Refused(stored: set<int>)
    | Answered(taken: set<int>, errors: set<int>, alsoStored: set<int>)

  /** Which of the three requests before the fold are answered. */
  datatype Requests = Requests(metadata: bool, committed: bool, ends: bool)

  datatype Outcome =
    | RequestFailed | NoPartitions | PartitionFailed | WithinThreshold | FreshGroup | Repositioned | TimedOut

  type Offsets = map<int, int>

  /** A Go map lookup: a partition the reply lacks reads as 0, not as "no offset". */
  function At(m: Offsets, p: int): int { if p in m then m[p] else 0 }

  /** The lag of an entry; an uncommitted partition counts from the start of the topic. */
  function LagOf(committed: Offsets, e: Listed): int {
    e.last - (if At(committed, e.partition) == NO_OFFSET then 0 else At(committed, e.partition))
  }

  function Threshold(configured: int): int { if configured == 0 then DEFAULT_THRESHOLD else configured }

  /** lastByPartition: the last entry of a partition wins. */
  function Ends(listed: seq<Listed>): Offsets {
    if listed == [] then map[]
    else Ends(listed[..|listed| - 1])[listed[|listed| - 1].partition := listed[|listed| - 1].last]
  }

  /** A partition's target is the end its last entry lists. */
  lemma {:induction false} EndsAreListed(listed: seq<Listed>, p: int)
    ensures p in Ends(listed) <==> exists i | 0 <= i < |listed| :: listed[i].partition == p
    ensures p in Ends(listed) ==> exists i :: LastEntry(listed, p, i) && listed[i].last == Ends(listed)[p]
  {
    if listed != [] {
      var n := |listed| - 1;
      EndsAreListed(listed[..n], p);
      if listed[n].partition == p {
        assert LastEntry(listed, p, n);
      } else if p in Ends(listed[..n]) {
        var i :| LastEntry(listed[..n], p, i) && listed[..n][i].last == Ends(listed[..n])[p];
        assert LastEntry(listed, p, i);
      }
      if i :| 0 <= i < n && listed[i].partition == p { assert listed[..n][i] == listed[i]; }
    }
  }

  predicate LastEntry(listed: seq<Listed>, p: int, i: int) {
    0 <= i < |listed| && listed[i].partition == p && forall j | i < j < |listed| :: listed[j].partition != p
  }

  // ---------- the commit loop ----------

  function Stored(r: Reply, partitions: set<int>): set<int> {
    match r
    case Refused(stored) => stored * partitions
    case Answered(taken, _, also) => (taken + also) * partitions
  }

  /** What the loop takes for success: a reply without an error entry, whatever it leaves out. */
  predicate AllCommitted(r: Reply) { r.Answered? && r.errors == {} }

  /** The broker's offsets after it stored the targets of some partitions. */
  function Moved(offsets: Offsets, target: Offsets, stored: set<int>): Offsets {
    map p | p in offsets.Keys + stored :: if p in stored then At(target, p) else offsets[p]
  }

  /** The offsets after the retries; replies that end stand for the timeout. */
  function Retries(offsets: Offsets, partitions: set<int>, target: Offsets, replies: seq<Reply>): Offsets
    decreases replies
  {
    if replies == [] then offsets
    else
      var next := Moved(offsets, target, Stored(replies[0], partitions));
      if AllCommitted(replies[0]) then next else Retries(next, partitions, target, replies[1..])
  }

  /** Whether some reply stores partition p before the loop ends. */
  predicate Reached(partitions: set<int>, replies: seq<Reply>, p: int)
    decreases replies
  {
    replies != [] &&
    (p in Stored(replies[0], partitions) || (!AllCommitted(replies[0]) && Reached(partitions, replies[1..], p)))
  }

  /** Whatever the replies, a partition ends at its target if some reply tried stored it, and
    * else where it was; only the partitions of the topic move. */
  lemma {:induction false} RetriesEnd(offsets: Offsets, partitions: set<int>, target: Offsets, replies: seq<Reply>)
    ensures var r := Retries(offsets, partitions, target, replies);
      && offsets.Keys <= r.Keys <= offsets.Keys + partitions
      && (forall p :: At(r, p) == At(if Reached(partitions, replies, p) then target else offsets, p))
      && forall p | Reached(partitions, replies, p) :: p in partitions && p in r
    decreases replies
  {
    if replies != [] && !AllCommitted(replies[0]) {
      RetriesEnd(Moved(offsets, target, Stored(replies[0], partitions)), partitions, target, replies[1..]);
    }
  }

  /** The loop ends with success at reply i. */
  predicate SucceedsAt(replies: seq<Reply>, i: nat) {
    i < |replies| && AllCommitted(replies[i]) && forall j | 0 <= j < i :: !AllCommitted(replies[j])
  }

  lemma {:induction false} ReachedBy(partitions: set<int>, replies: seq<Reply>, i: nat, p: int)
    requires SucceedsAt(replies, i)
    ensures Reached(partitions, replies, p) <==> exists j | 0 <= j <= i :: p in Stored(replies[j], partitions)
    decreases i
  {
    if i > 0 {
      assert forall j | 1 <= j < |replies| :: replies[j] == replies[1..][j - 1];
      ReachedBy(partitions, replies[1..], i - 1, p);
      if j :| 0 <= j <= i && p in Stored(replies[j], partitions) {
        if j > 0 { assert p in Stored(replies[1..][j - 1], partitions); }
      }
    }
  }

  /** Success puts every partition at its target if and only if each was there already or was
    * stored by the successful reply or one before it. */
  lemma SuccessMeansTargetIff(
      offsets: Offsets, partitions: set<int>, target: Offsets, replies: seq<Reply>, i: nat)
    requires SucceedsAt(replies, i)
    ensures var r := Retries(offsets, partitions, target, replies);
      (forall p | p in partitions :: At(r, p) == At(target, p)) <==>
      forall p | p in partitions ::
        At(offsets, p) == At(target, p) || exists j | 0 <= j <= i :: p in Stored(replies[j], partitions)
  {
    RetriesEnd(offsets, partitions, target, replies);
    forall p
      ensures Reached(partitions, replies, p) <==> exists j | 0 <= j <= i :: p in Stored(replies[j], partitions)
    {
      ReachedBy(partitions, replies, i, p);
    }
  }

  /** So it does when the successful reply names every partition ... */
  lemma FullReplyMeansTarget(
      offsets: Offsets, partitions: set<int>, target: Offsets, replies: seq<Reply>, i: nat)
    requires SucceedsAt(replies, i) && partitions <= replies[i].taken
    ensures forall p | p in partitions :: At(Retries(offsets, partitions, target, replies), p) == At(target, p)
  {
    SuccessMeansTargetIff(offsets, partitions, target, replies, i);
    assert forall p | p in partitions :: p in Stored(replies[i], partitions);
  }

  /** ... and it need not when one is left out: an empty reply counts as success and moves nothing. */
  lemma EmptyReplyCountsAsSuccess(offsets: Offsets, partitions: set<int>, target: Offsets)
    ensures var none := Answered({}, {}, {});
      SucceedsAt([none], 0) && Retries(offsets, partitions, target, [none]) == offsets
  {
    var none := Answered({}, {}, {});
    assert Retries(offsets, partitions, target, [none]) == Moved(offsets, target, Stored(none, partitions));
  }

  /** No partition ever moves back exactly when no target is behind its old offset. */
  lemma NeverBackIff(offsets: Offsets, partitions: set<int>, target: Offsets)
    ensures (forall replies, p :: At(offsets, p) <= At(Retries(offsets, partitions, target, replies), p)) <==>
      (forall p | p in partitions :: At(offsets, p) <= At(target, p))
  {
    if forall p | p in partitions :: At(offsets, p) <= At(target, p) {
      forall replies, p
        ensures At(offsets, p) <= At(Retries(offsets, partitions, target, replies), p)
      {
        RetriesEnd(offsets, partitions, target, replies);
      }
    } else {
      var p :| p in partitions && At(target, p) < At(offsets, p);
      var all := Answered(partitions, {}, {});
      assert Retries(offsets, partitions, target, [all]) == Moved(offsets, target, Stored(all, partitions));
      assert At(Retries(offsets, partitions, target, [all]), p) < At(offsets, p);
    }
  }

  /** The condition a deployment meets: every partition is listed, and no group offset is
    * beyond the log end listed for it. */
  ghost predicate Sound(offsets: Offsets, partitions: set<int>, listed: seq<Listed>) {
    && (forall p | p in partitions :: p in Ends(listed))
    && (forall i | 0 <= i < |listed| :: At(offsets, listed[i].partition) <= listed[i].last)
  }

  /** Then skipping never rewinds a partition, and one ends without lag exactly when it had
    * none before or some reply tried stored it. */
  lemma SoundMeansForward(offsets: Offsets, partitions: set<int>, listed: seq<Listed>, replies: seq<Reply>, p: int)
    requires Sound(offsets, partitions, listed)
    ensures var r := Retries(offsets, partitions, Ends(listed), replies);
      && At(offsets, p) <= At(r, p)
      && (p in partitions ==>
            (Ends(listed)[p] - At(r, p) == 0 <==>
             Ends(listed)[p] - At(offsets, p) == 0 || Reached(partitions, replies, p)))
  {
    forall q | q in partitions
      ensures At(offsets, q) <= At(Ends(listed), q)
    {
      EndsAreListed(listed, q);
    }
    NeverBackIff(offsets, partitions, Ends(listed));
    RetriesEnd(offsets, partitions, Ends(listed), replies);
  }

  /** A partition the broker did not list is committed at 0, however far it had come. */
  lemma UnlistedPartitionsRewind(offsets: Offsets, partitions: set<int>, listed: seq<Listed>, p: int)
    requires p in partitions && p !in Ends(listed) && At(offsets, p) > 0
    ensures exists replies :: At(Retries(offsets, partitions, Ends(listed), replies), p) == 0
  {
    var all := Answered(partitions, {}, {});
    assert Retries(offsets, partitions, Ends(listed), [all]) == Moved(offsets, Ends(listed), Stored(all, partitions));
    assert At(Retries(offsets, partitions, Ends(listed), [all]), p) == 0;
  }

  // ---------- the decision ----------

  /** Some partition lags too far behind, and every listed one has a committed offset. */
  ghost predicate MustSkip(committed: Offsets, listed: seq<Listed>, configured: int) {
    && (forall i | 0 <= i < |listed| :: !listed[i].failed && At(committed, listed[i].partition) != NO_OFFSET)
    && (Threshold(configured) < 0 ||
        exists i | 0 <= i < |listed| :: LagOf(committed, listed[i]) > Threshold(configured))
  }

  /** The group's offsets after the whole of skipBacklogFast. */
  ghost function Skipped(
      offsets: Offsets, partitions: set<int>, listed: seq<Listed>, configured: int, replies: seq<Reply>): Offsets
  {
    if partitions != {} && MustSkip(offsets, listed, configured) then
      Retries(offsets, partitions, Ends(listed), replies)
    else offsets
  }

  /** Some partition can be moved back exactly when the guards let the skip through and some
    * target lies behind its old offset. */
  lemma SkipMovesBackIff(offsets: Offsets, partitions: set<int>, listed: seq<Listed>, configured: int)
    ensures
      (exists replies, p :: At(Skipped(offsets, partitions, listed, configured, replies), p) < At(offsets, p))
      <==>
      && partitions != {} && MustSkip(offsets, listed, configured)
      && exists p | p in partitions :: At(Ends(listed), p) < At(offsets, p)
  {
    NeverBackIff(offsets, partitions, Ends(listed));
    if partitions != {} && MustSkip(offsets, listed, configured) {
      if forall p | p in partitions :: At(offsets, p) <= At(Ends(listed), p) {
        forall replies, p
          ensures At(offsets, p) <= At(Skipped(offsets, partitions, listed, configured, replies), p)
        {
          assert At(offsets, p) <= At(Retries(offsets, partitions, Ends(listed), replies), p);
        }
      } else {
        var replies, q :| !(At(offsets, q) <= At(Retries(offsets, partitions, Ends(listed), replies), q));
        assert At(Skipped(offsets, partitions, listed, configured, replies), q) < At(offsets, q);
      }
    }
  }

  /** It does happen: partition 1 is at 500 and missing from the listing, partition 0 lags by
    * twice the default threshold; the skip goes through and puts partition 1 at 0. */
  lemma UnlistedPartitionIsRewound()
      returns (offsets: Offsets, partitions: set<int>, listed: seq<Listed>, replies: seq<Reply>)
    ensures MustSkip(offsets, listed, 0) && 1 in partitions && 1 !in Ends(listed) && At(offsets, 1) == 500
    ensures At(Skipped(offsets, partitions, listed, 0, replies), 1) == 0
  {
    offsets, partitions, listed := map[0 := 0, 1 := 500], {0, 1}, [Listed(0, 20_000, false)];
    var all := Answered(partitions, {}, {});
    replies := [all];
    assert listed[..0] == [] && Ends(listed) == map[0 := 20_000];
    assert LagOf(offsets, listed[0]) > Threshold(0);
    assert Retries(offsets, partitions, Ends(listed), replies) == Moved(offsets, Ends(listed), Stored(all, partitions));
  }

  // ---------- in terms of the replies ----------

  /** What the code reads for partition p, and what it commits for it: the last entry's end,
    * or 0 for a partition no entry names. */
  ghost function Read(m: Offsets, p: int): int { if p in m then m[p] else 0 }

  ghost predicate IsTarget(listed: seq<Listed>, p: int, t: int) {
    if exists i | 0 <= i < |listed| :: listed[i].partition == p then
      exists i :: LastEntry(listed, p, i) && listed[i].last == t
    else t == 0
  }

  /** How far an entry's partition is behind; -1 is the only value that means "no offset". */
  ghost function Behind(offsets: Offsets, e: Listed): int {
    if Read(offsets, e.partition) == -1 then e.last else e.last - Read(offsets, e.partition)
  }

  /** Reply j is tried, since none before it is an answer without errors, and stores p. */
  ghost predicate TriedAndStores(replies: seq<Reply>, partitions: set<int>, p: int, j: int) {
    && 0 <= j < |replies| && (forall k | 0 <= k < j :: replies[k].Refused? || replies[k].errors != {})
    && p in partitions
    && (match replies[j]
        case Refused(stored) => p in stored
        case Answered(taken, _, also) => p in taken || p in also)
  }

  lemma {:induction false} ReachedMeansStored(partitions: set<int>, replies: seq<Reply>, p: int)
    ensures Reached(partitions, replies, p) <==> exists j :: TriedAndStores(replies, partitions, p, j)
    decreases replies
  {
    if replies != [] {
      var rest := replies[1..];
      ReachedMeansStored(partitions, rest, p);
      if p in Stored(replies[0], partitions) {
        assert TriedAndStores(replies, partitions, p, 0);
      } else if Reached(partitions, replies, p) {
        var j :| TriedAndStores(rest, partitions, p, j);
        assert TriedAndStores(replies, partitions, p, j + 1);
      }
      if j :| TriedAndStores(replies, partitions, p, j) {
        if j > 0 {
          assert replies[0].Refused? || replies[0].errors != {};
          assert TriedAndStores(rest, partitions, p, j - 1);
        }
      }
    }
  }

  /** Where the retries leave every partition. */
  ghost predicate LeftBy(
      before: Offsets, after: Offsets, partitions: set<int>, listed: seq<Listed>, replies: seq<Reply>)
  {
    forall p :: LeftAt(p, Read(before, p), Read(after, p), partitions, listed, replies)
  }

  ghost predicate LeftAt(
      p: int, before: int, after: int, partitions: set<int>, listed: seq<Listed>, replies: seq<Reply>)
  {
    if exists j :: TriedAndStores(replies, partitions, p, j) then IsTarget(listed, p, after) else after == before
  }

  lemma RetriesLeave(offsets: Offsets, partitions: set<int>, listed: seq<Listed>, replies: seq<Reply>)
    ensures LeftBy(offsets, Retries(offsets, partitions, Ends(listed), replies), partitions, listed, replies)
  {
    var r := Retries(offsets, partitions, Ends(listed), replies);
    RetriesEnd(offsets, partitions, Ends(listed), replies);
    forall p
      ensures LeftAt(p, Read(offsets, p), Read(r, p), partitions, listed, replies)
    {
      ReachedMeansStored(partitions, replies, p);
      EndsAreListed(listed, p);
      assert At(r, p) == At(if Reached(partitions, replies, p) then Ends(listed) else offsets, p);
    }
  }

  class Group {
    var offsets: Offsets

    constructor (initial: Offsets)
      ensures offsets == initial
    {
      offsets := initial;
    }

    /** The fold over the listed partitions. */
    method MeasureLag(listed: seq<Listed>)
        returns (failed: bool, lag: int, uncommitted: bool, last: Offsets)
      ensures failed <==> exists i | 0 <= i < |listed| :: listed[i].failed
      ensures !failed ==> last == Ends(listed)
      ensures !failed ==> lag >= 0 && forall i | 0 <= i < |listed| :: LagOf(offsets, listed[i]) <= lag
      ensures !failed ==> lag == 0 || exists i | 0 <= i < |listed| :: LagOf(offsets, listed[i]) == lag
      ensures !failed ==>
        (uncommitted <==> exists i | 0 <= i < |listed| :: At(offsets, listed[i].partition) == NO_OFFSET)
    {
      failed, lag, uncommitted, last := false, 0, false, map[];
      for i := 0 to |listed|
        invariant forall j | 0 <= j < i :: !listed[j].failed
        invariant last == Ends(listed[..i])
        invariant lag >= 0 && forall j | 0 <= j < i :: LagOf(offsets, listed[j]) <= lag
        invariant lag == 0 || exists j | 0 <= j < i :: LagOf(offsets, listed[j]) == lag
        invariant uncommitted <==> exists j | 0 <= j < i :: At(offsets, listed[j].partition) == NO_OFFSET
      {
        var po := listed[i];
        if po.failed { failed := true; return; }
        assert listed[..i + 1][..i] == listed[..i];
        last := last[po.partition := po.last];
        var c := At(offsets, po.partition);
        if c == NO_OFFSET { c, uncommitted := 0, true; }
        if po.last - c > lag { lag := po.last - c; }
      }
      assert listed[..|listed|] == listed;
    }

    /** Offsets are touched exactly when every request is answered and the group must skip,
      * and then as the retries say; the skip is reported when some reply counts as success. */
    method SkipBacklogFast(
        requests: Requests, partitions: set<int>, listed: seq<Listed>, configured: int, replies: seq<Reply>)
        returns (outcome: Outcome)
      modifies this
      ensures outcome.RequestFailed? <==>
        !requests.metadata || (partitions != {} && !(requests.committed && requests.ends))
      ensures outcome.Repositioned? || outcome.TimedOut? <==>
        !outcome.RequestFailed? && partitions != {} && MustSkip(old(offsets), listed, configured)
      ensures offsets ==
        if outcome.RequestFailed? then old(offsets)
        else Skipped(old(offsets), partitions, listed, configured, replies)
      ensures var limit := if configured == 0 then 10_000 else configured;
        var asked := requests.metadata && partitions != {} && requests.committed && requests.ends;
        var failed := exists i | 0 <= i < |listed| :: listed[i].failed;
        var within := limit >= 0 && forall i | 0 <= i < |listed| :: Behind(old(offsets), listed[i]) <= limit;
        var unset := exists i | 0 <= i < |listed| :: Read(old(offsets), listed[i].partition) == -1;
        && (outcome == NoPartitions <==> requests.metadata && partitions == {})
        && (outcome == PartitionFailed <==> asked && failed)
        && (outcome == WithinThreshold <==> asked && !failed && within)
        && (outcome == FreshGroup <==> asked && !failed && !within && unset)
        && (outcome == Repositioned || outcome == TimedOut <==> asked && !failed && !within && !unset)
      ensures if outcome == Repositioned || outcome == TimedOut then
                LeftBy(old(offsets), offsets, partitions, listed, replies)
              else offsets == old(offsets)
      ensures outcome == Repositioned ==>
        exists i | 0 <= i < |replies| :: replies[i].Answered? && replies[i].errors == {}
      ensures outcome == TimedOut ==> forall i | 0 <= i < |replies| :: replies[i].Refused? || replies[i].errors != {}
      ensures !outcome.RequestFailed? && partitions != {} && MustSkip(old(offsets), listed, configured) ==>
        (outcome.Repositioned? <==> exists i :: SucceedsAt(replies, i))
    {
      if !requests.metadata { return RequestFailed; }
      if partitions == {} { return NoPartitions; }
      if !requests.committed { return RequestFailed; }
      if !requests.ends { return RequestFailed; }
      var failed, lag, uncommitted, last := MeasureLag(listed);
      if failed { return PartitionFailed; }
      var threshold := configured;
      if threshold == 0 { threshold := DEFAULT_THRESHOLD; }
      if lag <= threshold { return WithinThreshold; }
      if uncommitted { return FreshGroup; }
      RetriesLeave(offsets, partitions, listed, replies);
      var i := 0;
      while i < |replies|
        invariant i <= |replies| && forall j | 0 <= j < i :: !AllCommitted(replies[j])
        invariant Retries(offsets, partitions, last, replies[i..]) == Retries(old(offsets), partitions, last, replies)
      {
        var r := replies[i];
        assert replies[i..][0] == r && replies[i..][1..] == replies[i + 1..];
        offsets := Moved(offsets, last, Stored(r, partitions));
        if AllCommitted(r) {
          assert SucceedsAt(replies, i);
          return Repositioned;
        }
        i := i + 1;
      }
      return TimedOut;
    }
  }
}
