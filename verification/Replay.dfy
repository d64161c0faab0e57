/** Replaying a topic: raw partition connections read in batches that the broker cuts
  * as it likes, against the plain walk over the log.
  */
module Replay {
  import opened Domain

  const FIRST_OFFSET := -2

  datatype Message = Message(offset: nat, value: string)

  datatype ReplayResult = ReplayResult(partition: int, from: int, lastOffset: nat, count: nat)

  datatype Outcome =
    | Done | ReadError | CloseError | HandlerError | BadStart | MetadataError | DialError | SeekError

  /** One ReadBatch: at most size records, then end of batch or a read error; Close may
    * fail. An idle timeout is an empty batch that ends well. */
  datatype Batch = Batch(size: nat, endsWell: bool, closes: bool)

  type Broker = nat -> Batch

  /** The connection to a partition leader; Seek also fails when From is out of range. */
  datatype Conn = Conn(dials: bool, seeks: bool, broker: Broker)

  /** Offsets grow along a log, with gaps where records were compacted away. */
  ghost predicate IsLog(log: seq<Message>) {
    forall i, j | 0 <= i < j < |log| :: log[i].offset < log[j].offset
  }

  /** Where Seek leaves the connection: the first record at or after from. */
  function Start(log: seq<Message>, from: int): (k: nat)
    ensures k <= |log|
  {
    if log == [] || log[0].offset >= from then 0 else 1 + Start(log[1..], from)
  }

  /** The suffix is exactly the records at or after from. */
  lemma {:induction false} SuffixIsExact(log: seq<Message>, from: int)
    requires IsLog(log)
    ensures forall i | 0 <= i < |log| :: log[i].offset >= from <==> i >= Start(log, from)
  {
    if log != [] && log[0].offset < from {
      SuffixIsExact(log[1..], from);
      forall i | 0 <= i < |log|
        ensures log[i].offset >= from <==> i >= Start(log, from)
      {
        if i > 0 { assert log[i] == log[1..][i - 1]; }
      }
    }
  }

  function Min(a: nat, b: nat): nat { if a <= b then a else b }

  /** From batch i on the broker hands out all n remaining records: every batch is
    * non-empty and closes, until one that finds the end of the log. */
  predicate Exhausts(broker: Broker, i: nat, n: nat)
    decreases n
  {
    broker(i).endsWell &&
    (n == 0 ||
     (broker(i).size > 0 && broker(i).closes && Exhausts(broker, i + 1, n - Min(broker(i).size, n))))
  }

  predicate Accepts(accept: Message -> bool, log: seq<Message>, lo: nat, hi: nat)
    requires hi <= |log|
  {
    forall i | lo <= i < hi :: accept(log[i])
  }

  /** The result that reports log[lo..hi] handled. */
  function Report(partition: int, from: int, log: seq<Message>, lo: nat, hi: nat): ReplayResult
    requires lo <= hi <= |log|
  {
    ReplayResult(partition, from, if lo == hi then 0 else log[hi - 1].offset, hi - lo)
  }

  /** The caller's handler. It is called through Handle only, and remembers every call. */
  class Handler {
    const accept: Message -> bool
    var calls: seq<Message>

    constructor (accept: Message -> bool)
      ensures this.accept == accept && calls == []
    {
      this.accept, calls := accept, [];
    }

    method Handle(m: Message) returns (ok: bool)
      modifies this
      ensures calls == old(calls) + [m] && ok == accept(m)
    {
      calls := calls + [m];
      ok := accept(m);
    }
  }

  lemma SlicesJoin(before: seq<Message>, log: seq<Message>, a: nat, b: nat, c: nat)
    requires a <= b <= c <= |log|
    ensures (before + log[a..b]) + log[b..c] == before + log[a..c]
  {
  }

  /** The inner loop: the records of one batch, each handed to the handler once, cut short
    * only by the handler. */
  method ReadBatch(log: seq<Message>, pos: nat, size: nat, h: Handler, res: ReplayResult)
      returns (end: nat, ok: bool, res': ReplayResult)
    requires pos <= |log|
    modifies h
    ensures pos <= end <= |log| && h.calls == old(h.calls) + log[pos..end]
    ensures ok ==> end == pos + Min(size, |log| - pos) && Accepts(h.accept, log, pos, end)
    ensures !ok ==> pos < end <= pos + size && Accepts(h.accept, log, pos, end - 1) && !h.accept(log[end - 1])
    ensures var good := if ok then end else end - 1;
      res' == if good == pos then res else res.(count := res.count + good - pos, lastOffset := log[good - 1].offset)
  {
    end, res', ok := pos, res, true;
    while end < pos + size && end < |log|
      invariant pos <= end <= |log| && end <= pos + size && Accepts(h.accept, log, pos, end)
      invariant h.calls == old(h.calls) + log[pos..end]
      invariant res' ==
        if end == pos then res else res.(count := res.count + end - pos, lastOffset := log[end - 1].offset)
    {
      var m := log[end];
      assert log[end..end + 1] == [m];
      SlicesJoin(old(h.calls), log, pos, end, end + 1);
      end := end + 1;
      ok := h.Handle(m);
      if !ok { return; }
      res' := res'.(count := res'.count + 1, lastOffset := m.offset);
    }
  }

  /** What a partition's replay reports and has handed to the handler: log[start..end]. */
  ghost predicate Replayed(
      log: seq<Message>, partition: int, from: int, accept: Message -> bool, res: ReplayResult, outcome: Outcome,
      end: nat)
  {
    && Start(log, from) <= end <= |log|
    && (outcome.HandlerError? <==> !Accepts(accept, log, Start(log, from), end))
    && (outcome.HandlerError? ==> Start(log, from) < end && Accepts(accept, log, Start(log, from), end - 1))
    && res == Report(partition, from, log, Start(log, from), if outcome.HandlerError? then end - 1 else end)
  }

  // ---------- which batch ends it ----------

  /** Where the reading stands after n batches. */
  ghost function After(log: seq<Message>, start: nat, broker: Broker, n: nat): (k: nat)
    requires start <= |log|
    ensures start <= k <= |log|
  {
    if n == 0 then start
    else
      var next := After(log, start, broker, n - 1) + broker(n - 1).size;
      if next < |log| then next else |log|
  }

  /** Batch i hands out these records. */
  ghost predicate Empty(log: seq<Message>, start: nat, broker: Broker, i: nat)
    requires start <= |log|
  {
    After(log, start, broker, i + 1) == After(log, start, broker, i)
  }

  ghost predicate Refused(log: seq<Message>, start: nat, broker: Broker, accept: Message -> bool, i: nat)
    requires start <= |log|
  {
    exists k | After(log, start, broker, i) <= k < After(log, start, broker, i + 1) :: !accept(log[k])
  }

  /** Batch i goes through: something is in it, all of it accepted, and it ends and closes well. */
  ghost predicate GoesThrough(log: seq<Message>, start: nat, broker: Broker, accept: Message -> bool, i: nat)
    requires start <= |log|
  {
    && !Empty(log, start, broker, i) && !Refused(log, start, broker, accept, i)
    && broker(i).endsWell && broker(i).closes
  }

  /** Batch i is the first that does not go through, and the outcome says why: the handler
    * before the broker, the broker before the end, the end before the close. */
  ghost predicate EndedBy(
      log: seq<Message>, start: nat, broker: Broker, accept: Message -> bool, i: nat, outcome: Outcome)
    requires start <= |log|
  {
    var refused, empty, batch := Refused(log, start, broker, accept, i), Empty(log, start, broker, i), broker(i);
    && (forall j: nat | j < i :: GoesThrough(log, start, broker, accept, j))
    && !GoesThrough(log, start, broker, accept, i)
    && (outcome == HandlerError <==> refused)
    && (outcome == ReadError <==> !refused && !batch.endsWell)
    && (outcome == Done <==> !refused && batch.endsWell && empty)
    && (outcome == CloseError <==> !refused && batch.endsWell && !empty && !batch.closes)
  }

  /** How a partition's replay ends: at the connection, or by a batch. */
  ghost predicate EndsWith(
      log: seq<Message>, from: int, conn: Conn, accept: Message -> bool, outcome: Outcome)
  {
    if !conn.dials then outcome == DialError
    else if !conn.seeks then outcome == SeekError
    else exists i: nat :: EndedBy(log, Start(log, from), conn.broker, accept, i, outcome)
  }

  /** There is one way it can end. */
  lemma OneEnding(log: seq<Message>, from: int, conn: Conn, accept: Message -> bool, a: Outcome, b: Outcome)
    requires EndsWith(log, from, conn, accept, a) && EndsWith(log, from, conn, accept, b)
    ensures a == b
  {
    if conn.dials && conn.seeks {
      var start := Start(log, from);
      var i: nat :| EndedBy(log, start, conn.broker, accept, i, a);
      var j: nat :| EndedBy(log, start, conn.broker, accept, j, b);
      assert i == j;
    }
  }

  /** The loop has read i batches, all of which went through, and stands at end. */
  ghost predicate Reading(
      log: seq<Message>, start: nat, broker: Broker, accept: Message -> bool, i: nat, end: nat)
    requires start <= |log|
  {
    && end == After(log, start, broker, i) && Accepts(accept, log, start, end)
    && (forall j: nat | j < i :: GoesThrough(log, start, broker, accept, j))
    && (Exhausts(broker, 0, |log| - start) <==> Exhausts(broker, i, |log| - end))
  }

  /** What the reading of one more batch shows. */
  lemma BatchTells(
      log: seq<Message>, start: nat, broker: Broker, accept: Message -> bool, i: nat, end: nat, end': nat, ok: bool)
    requires start <= |log| && Reading(log, start, broker, accept, i, end) && end <= end' <= |log|
    requires if ok then end' == end + Min(broker(i).size, |log| - end) && Accepts(accept, log, end, end')
             else end < end' <= end + broker(i).size && !accept(log[end' - 1])
    ensures Refused(log, start, broker, accept, i) <==> !ok
    ensures ok ==> end' == After(log, start, broker, i + 1) && Accepts(accept, log, start, end')
    ensures ok && broker(i).endsWell && end' != end && broker(i).closes ==>
      Reading(log, start, broker, accept, i + 1, end')
  {
    assert !ok ==> After(log, start, broker, i) <= end' - 1 < After(log, start, broker, i + 1);
  }

  /** The handler accepts the whole suffix and the broker hands it out. */
  predicate AllRead(log: seq<Message>, start: nat, broker: Broker, accept: Message -> bool)
    requires start <= |log|
  {
    Accepts(accept, log, start, |log|) && Exhausts(broker, 0, |log| - start)
  }

  /** How a batch ends the loop, if it does. */
  lemma ReadingEnds(log: seq<Message>, start: nat, broker: Broker, accept: Message -> bool, i: nat, end: nat)
    requires start <= |log| && Reading(log, start, broker, accept, i, end)
    ensures Refused(log, start, broker, accept, i) ==>
      EndedBy(log, start, broker, accept, i, HandlerError) && !AllRead(log, start, broker, accept)
    ensures !Refused(log, start, broker, accept, i) ==>
      && (!broker(i).endsWell ==>
            EndedBy(log, start, broker, accept, i, ReadError) && !AllRead(log, start, broker, accept))
      && (broker(i).endsWell && Empty(log, start, broker, i) ==>
            EndedBy(log, start, broker, accept, i, Done) && (AllRead(log, start, broker, accept) <==> end == |log|))
      && (broker(i).endsWell && !Empty(log, start, broker, i) && !broker(i).closes ==>
            EndedBy(log, start, broker, accept, i, CloseError) && !AllRead(log, start, broker, accept))
  {
  }

  /** The outer loop. Whatever the batches, it hands log[start..end] to the handler, each
    * record once and in order, and all of the suffix without an error exactly when the
    * broker exhausts the log and the handler accepts every record. It ends as the first
    * batch that does not go through says. */
  method ReadPartition(log: seq<Message>, partition: int, from: int, broker: Broker, h: Handler)
      returns (res: ReplayResult, outcome: Outcome, end: nat)
    modifies h
    ensures Replayed(log, partition, from, h.accept, res, outcome, end)
    ensures h.calls == old(h.calls) + log[Start(log, from)..end]
    ensures outcome.Done? && end == |log| <==> AllRead(log, Start(log, from), broker, h.accept)
    ensures exists i: nat :: EndedBy(log, Start(log, from), broker, h.accept, i, outcome)
  {
    res := ReplayResult(partition, from, 0, 0);
    var start := Start(log, from);
    end := start;
    var i := 0;
    while true
      invariant start <= end <= |log| && h.calls == old(h.calls) + log[start..end]
      invariant Reading(log, start, broker, h.accept, i, end) && res == Report(partition, from, log, start, end)
      decreases |log| - end
    {
      var batch := broker(i);
      var before, ok := end, true;
      end, ok, res := ReadBatch(log, before, batch.size, h, res);
      SlicesJoin(old(h.calls), log, start, before, end);
      BatchTells(log, start, broker, h.accept, i, before, end, ok);
      ReadingEnds(log, start, broker, h.accept, i, before);
      if !ok { outcome := HandlerError; return; }
      if !batch.endsWell { outcome := ReadError; return; }
      if end == before { outcome := Done; return; }
      if !batch.closes { outcome := CloseError; return; }
      i := i + 1;
    }
  }

  /** Nothing goes wrong on a partition. */
  predicate Clean(log: seq<Message>, from: int, conn: Conn, accept: Message -> bool) {
    conn.dials && conn.seeks && AllRead(log, Start(log, from), conn.broker, accept)
  }

  /** Dial, seek, read: the handler gets a beginning of the suffix, and all of it without an
    * error exactly when nothing goes wrong. */
  method ReplayPartition(log: seq<Message>, partition: int, from: int, conn: Conn, h: Handler)
      returns (res: ReplayResult, outcome: Outcome, end: nat)
    requires from >= 0 || from == FIRST_OFFSET
    modifies h
    ensures Replayed(log, partition, from, h.accept, res, outcome, end)
    ensures h.calls == old(h.calls) + log[Start(log, from)..end]
    ensures outcome.Done? && end == |log| <==> Clean(log, from, conn, h.accept)
    ensures EndsWith(log, from, conn, h.accept, outcome)
  {
    res, end := ReplayResult(partition, from, 0, 0), Start(log, from);
    if !conn.dials { outcome := DialError; return; }
    if !conn.seeks { outcome := SeekError; return; }
    res, outcome, end := ReadPartition(log, partition, from, conn.broker, h);
  }

  // ---------- the in-memory replayer ----------

  /** Where offsets are indices, the suffix is what the plain loop walks over. */
  lemma {:induction false} SuffixOfMemory(log: seq<Message>, from: int)
    requires forall i | 0 <= i < |log| :: log[i].offset == i
    ensures Start(log, from) == Min(if from < 0 then 0 else from, |log|)
  {
    SuffixIsExact(log, from);
    var k := Min(if from < 0 then 0 else from, |log|);
    var s := Start(log, from);
    if s < |log| { assert log[s].offset >= from; }
    if s > 0 { assert log[s - 1].offset < from; }
  }

  /** It calls the handler on the same records and reports the same, except that a replay
    * from FirstOffset is reported as one from 0. */
  method ReplayMemory(log: seq<Message>, from: int, h: Handler) returns (res: ReplayResult, ok: bool, end: nat)
    requires from >= 0 || from == FIRST_OFFSET
    requires forall i | 0 <= i < |log| :: log[i].offset == i
    modifies h
    ensures Replayed(log, 0, if from < 0 then 0 else from, h.accept, res, if ok then Done else HandlerError, end)
    ensures h.calls == old(h.calls) + log[Start(log, from)..end]
    ensures ok ==> end == |log|
  {
    SuffixOfMemory(log, from);
    SuffixOfMemory(log, if from < 0 then 0 else from);
    var start := if from < 0 then 0 else from;
    res, ok, end := ReplayResult(0, start, 0, 0), true, |log|;
    if start > |log| { return; }
    end := start;
    while end < |log|
      invariant start <= end <= |log| && h.calls == old(h.calls) + log[start..end]
      invariant Accepts(h.accept, log, start, end) && res == Report(0, start, log, start, end)
    {
      var m := log[end];
      assert log[end..end + 1] == [m];
      SlicesJoin(old(h.calls), log, start, end, end + 1);
      end := end + 1;
      ok := h.Handle(m);
      if !ok { return; }
      res := res.(count := res.count + 1, lastOffset := m.offset);
    }
  }

  // ---------- all partitions ----------

  function Insert(x: int, s: seq<int>): (r: seq<int>)
    ensures |r| == |s| + 1
  {
    if s == [] || x <= s[0] then [x] + s else [s[0]] + Insert(x, s[1..])
  }

  /** sort.Ints. */
  function Sorted(s: seq<int>): seq<int> {
    if s == [] then [] else Insert(s[0], Sorted(s[1..]))
  }

  predicate Ascending(s: seq<int>) { forall i, j | 0 <= i < j < |s| :: s[i] <= s[j] }

  lemma AscendingCons(x: int, s: seq<int>)
    requires Ascending(s) && (s == [] || x <= s[0])
    ensures Ascending([x] + s)
  {
  }

  lemma {:induction false} InsertSorts(x: int, s: seq<int>)
    requires Ascending(s)
    ensures Ascending(Insert(x, s)) && multiset(Insert(x, s)) == multiset{x} + multiset(s)
    ensures Insert(x, s)[0] == if s == [] || x <= s[0] then x else s[0]
  {
    if s != [] && x > s[0] {
      InsertSorts(x, s[1..]);
      assert s == [s[0]] + s[1..];
      AscendingCons(s[0], Insert(x, s[1..]));
    } else {
      AscendingCons(x, s);
    }
  }

  lemma {:induction false} SortedSorts(s: seq<int>)
    ensures Ascending(Sorted(s)) && multiset(Sorted(s)) == multiset(s) && |Sorted(s)| == |s|
  {
    if s != [] {
      SortedSorts(s[1..]);
      InsertSorts(s[0], Sorted(s[1..]));
      assert s == [s[0]] + s[1..];
      assert |multiset(Sorted(s))| == |multiset(s)|;
    }
  }

  /** One end per partition visited: log[Start(log, from)..end] is what its handler calls were. */
  ghost predicate Ends(ps: seq<int>, logs: int -> seq<Message>, from: int, ends: seq<nat>) {
    |ends| <= |ps| && forall i | 0 <= i < |ends| :: Start(logs(ps[i]), from) <= ends[i] <= |logs(ps[i])|
  }

  /** The handler calls of the partitions visited, one partition after the other. */
  ghost function Called(ps: seq<int>, logs: int -> seq<Message>, from: int, ends: seq<nat>): seq<Message>
    requires Ends(ps, logs, from, ends)
  {
    if ends == [] then []
    else
      var last := |ends| - 1;
      Called(ps, logs, from, ends[..last]) + logs(ps[last])[Start(logs(ps[last]), from)..ends[last]]
  }

  /** Every partition to its end. */
  ghost function Full(ps: seq<int>, logs: int -> seq<Message>): seq<nat> {
    seq(|ps|, i requires 0 <= i < |ps| => |logs(ps[i])|)
  }

  /** calls are those made before, and those of the partitions visited. */
  ghost predicate Calls(
      ps: seq<int>, logs: int -> seq<Message>, from: int, ends: seq<nat>, before: seq<Message>, calls: seq<Message>)
  {
    Ends(ps, logs, from, ends) && calls == before + Called(ps, logs, from, ends)
  }

  lemma CallsNext(
      ps: seq<int>, logs: int -> seq<Message>, from: int, ends: seq<nat>, end: nat, before: seq<Message>,
      calls: seq<Message>, calls': seq<Message>)
    requires Calls(ps, logs, from, ends, before, calls) && |ends| < |ps|
    requires var log := logs(ps[|ends|]);
      Start(log, from) <= end <= |log| && calls' == calls + log[Start(log, from)..end]
    ensures Calls(ps, logs, from, ends + [end], before, calls')
  {
    assert (ends + [end])[..|ends|] == ends;
  }

  /** What the replay of the partitions ps reports: a result for each that went through, and
    * the outcome of the first that did not. */
  ghost predicate Visited(
      ps: seq<int>, logs: int -> seq<Message>, from: int, conns: int -> Conn, accept: Message -> bool,
      results: seq<ReplayResult>, outcome: Outcome, ends: seq<nat>)
  {
    && Ends(ps, logs, from, ends) && |results| <= |ends|
    && (forall i | 0 <= i < |results| ::
          && Replayed(logs(ps[i]), ps[i], from, accept, results[i], Done, ends[i])
          && EndsWith(logs(ps[i]), from, conns(ps[i]), accept, Done))
    && if outcome.Done? then |results| == |ends| == |ps| else
         var i := |results|;
         && |ends| == i + 1 && EndsWith(logs(ps[i]), from, conns(ps[i]), accept, outcome)
         && exists res :: Replayed(logs(ps[i]), ps[i], from, accept, res, outcome, ends[i])
  }

  function Total(results: seq<ReplayResult>): nat {
    if results == [] then 0 else Total(results[..|results| - 1]) + results[|results| - 1].count
  }

  /** The counts add up to the handler calls of the partitions that went through, so to all of
    * them when the replay is done. */
  lemma {:induction false} CountsAddUp(
      ps: seq<int>, logs: int -> seq<Message>, from: int, accept: Message -> bool, results: seq<ReplayResult>,
      ends: seq<nat>)
    requires Ends(ps, logs, from, ends) && |results| == |ends|
    requires forall i | 0 <= i < |results| ::
      Replayed(logs(ps[i]), ps[i], from, accept, results[i], Done, ends[i])
    ensures |Called(ps, logs, from, ends)| == Total(results)
  {
    if ends != [] {
      var last := |ends| - 1;
      CountsAddUp(ps, logs, from, accept, results[..last], ends[..last]);
      assert Replayed(logs(ps[last]), ps[last], from, accept, results[last], Done, ends[last]);
    }
  }

  /** Nothing goes wrong on any of them. */
  predicate AllClean(
      ps: seq<int>, logs: int -> seq<Message>, from: int, conns: int -> Conn, accept: Message -> bool)
  {
    forall i | 0 <= i < |ps| :: Clean(logs(ps[i]), from, conns(ps[i]), accept)
  }

  /** A partition went through: an empty batch ended it well, and at its end exactly when
    * nothing went wrong. */
  ghost predicate Through(
      log: seq<Message>, partition: int, from: int, conn: Conn, accept: Message -> bool, res: ReplayResult, end: nat)
  {
    && Replayed(log, partition, from, accept, res, Done, end)
    && EndsWith(log, from, conn, accept, Done)
    && (end == |log| <==> Clean(log, from, conn, accept))
  }

  ghost predicate AllThrough(
      ps: seq<int>, logs: int -> seq<Message>, from: int, conns: int -> Conn, accept: Message -> bool,
      results: seq<ReplayResult>, ends: seq<nat>)
  {
    && |results| == |ends| <= |ps| && Ends(ps, logs, from, ends)
    && forall k | 0 <= k < |ends| ::
         Through(logs(ps[k]), ps[k], from, conns(ps[k]), accept, results[k], ends[k])
  }

  lemma AllThroughNext(
      ps: seq<int>, logs: int -> seq<Message>, from: int, conns: int -> Conn, accept: Message -> bool,
      results: seq<ReplayResult>, ends: seq<nat>, res: ReplayResult, end: nat)
    requires AllThrough(ps, logs, from, conns, accept, results, ends) && |ends| < |ps|
    requires var p := ps[|ends|]; Through(logs(p), p, from, conns(p), accept, res, end)
    ensures AllThrough(ps, logs, from, conns, accept, results + [res], ends + [end])
  {
  }

  lemma AllThroughEnds(
      ps: seq<int>, logs: int -> seq<Message>, from: int, conns: int -> Conn, accept: Message -> bool,
      results: seq<ReplayResult>, ends: seq<nat>)
    requires AllThrough(ps, logs, from, conns, accept, results, ends) && |ends| == |ps|
    ensures Visited(ps, logs, from, conns, accept, results, Done, ends)
    ensures ends == Full(ps, logs) <==> AllClean(ps, logs, from, conns, accept)
  {
    assert forall k | 0 <= k < |ps| :: Through(logs(ps[k]), ps[k], from, conns(ps[k]), accept, results[k], ends[k]);
    if ends == Full(ps, logs) {
      assert forall k | 0 <= k < |ps| :: ends[k] == Full(ps, logs)[k];
    }
  }

  lemma FailedNext(
      ps: seq<int>, logs: int -> seq<Message>, from: int, conns: int -> Conn, accept: Message -> bool,
      results: seq<ReplayResult>, ends: seq<nat>, res: ReplayResult, outcome: Outcome, end: nat)
    requires AllThrough(ps, logs, from, conns, accept, results, ends) && |ends| < |ps| && !outcome.Done?
    requires var p := ps[|ends|];
      Replayed(logs(p), p, from, accept, res, outcome, end) && EndsWith(logs(p), from, conns(p), accept, outcome)
    ensures Visited(ps, logs, from, conns, accept, results, outcome, ends + [end])
  {
    var now := ends + [end];
    forall i | 0 <= i < |results|
      ensures Replayed(logs(ps[i]), ps[i], from, accept, results[i], Done, now[i])
      ensures EndsWith(logs(ps[i]), from, conns(ps[i]), accept, Done)
    {
      assert Through(logs(ps[i]), ps[i], from, conns(ps[i]), accept, results[i], ends[i]);
    }
  }

  /** One partition, as the loop over partitions sees it. */
  method ReplayNext(log: seq<Message>, partition: int, from: int, conn: Conn, h: Handler)
      returns (res: ReplayResult, outcome: Outcome, end: nat)
    requires from >= 0 || from == FIRST_OFFSET
    modifies h
    ensures Start(log, from) <= end <= |log| && h.calls == old(h.calls) + log[Start(log, from)..end]
    ensures Replayed(log, partition, from, h.accept, res, outcome, end)
    ensures if outcome.Done? then Through(log, partition, from, conn, h.accept, res, end)
            else !Clean(log, from, conn, h.accept)
    ensures EndsWith(log, from, conn, h.accept, outcome)
    ensures !outcome.BadStart? && !outcome.MetadataError?
  {
    res, outcome, end := ReplayPartition(log, partition, from, conn, h);
  }

  /** The loop over the partitions. */
  method ReplayAll(ps: seq<int>, logs: int -> seq<Message>, from: int, conns: int -> Conn, h: Handler)
      returns (results: seq<ReplayResult>, outcome: Outcome, ghost ends: seq<nat>)
    requires from >= 0 || from == FIRST_OFFSET
    modifies h
    ensures Visited(ps, logs, from, conns, h.accept, results, outcome, ends)
    ensures Calls(ps, logs, from, ends, old(h.calls), h.calls)
    ensures outcome.Done? && ends == Full(ps, logs) <==> AllClean(ps, logs, from, conns, h.accept)
    ensures !outcome.BadStart? && !outcome.MetadataError?
  {
    results, ends := [], [];
    for i := 0 to |ps|
      invariant |ends| == i && AllThrough(ps, logs, from, conns, h.accept, results, ends)
      invariant Calls(ps, logs, from, ends, old(h.calls), h.calls)
    {
      ghost var calls := h.calls;
      var res, reply, end := ReplayNext(logs(ps[i]), ps[i], from, conns(ps[i]), h);
      CallsNext(ps, logs, from, ends, end, old(h.calls), calls, h.calls);
      if !reply.Done? {
        FailedNext(ps, logs, from, conns, h.accept, results, ends, res, reply, end);
        return results, reply, ends + [end];
      }
      AllThroughNext(ps, logs, from, conns, h.accept, results, ends, res, end);
      results, ends := results + [res], ends + [end];
    }
    outcome := Done;
    AllThroughEnds(ps, logs, from, conns, h.accept, results, ends);
  }

  /** The partitions in ascending order, up to the first that fails: the handler is called on
    * the beginnings of their suffixes, one after the other, and on all suffixes without an
    * error exactly when nothing goes wrong. */
  method Replay(listed: Option<seq<int>>, logs: int -> seq<Message>, from: int, conns: int -> Conn, h: Handler)
      returns (results: seq<ReplayResult>, outcome: Outcome, ghost ends: seq<nat>)
    modifies h
    ensures outcome.BadStart? <==> from < 0 && from != -2
    ensures outcome.MetadataError? <==> !outcome.BadStart? && listed.None?
    ensures outcome.BadStart? || outcome.MetadataError? ==> results == [] && h.calls == old(h.calls)
    ensures !outcome.BadStart? && listed.Some? ==>
      var ps := Sorted(listed.value);
      && Visited(ps, logs, from, conns, h.accept, results, outcome, ends)
      && Calls(ps, logs, from, ends, old(h.calls), h.calls)
      && (outcome.Done? && ends == Full(ps, logs) <==> AllClean(ps, logs, from, conns, h.accept))
  {
    results, ends := [], [];
    if from < 0 && from != FIRST_OFFSET { return results, BadStart, ends; }
    if listed.None? { return results, MetadataError, ends; }
    results, outcome, ends := ReplayAll(Sorted(listed.value), logs, from, conns, h);
  }
}
