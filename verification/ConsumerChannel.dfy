/** One subscription of a ConsumerChannel: the forwarding goroutine, the buffered Go
  * channel, the agent runner at its far end, and shutdown, interleaved in any way and
  * restarted any number of times. Messages are their offsets.
  */
module ConsumerChannel {
  import opened Domain

  const CAPACITY := 100

  datatype Forwarder =
    | Fetching
    | Sending(o: nat)        // blocked on the channel
    | Committing(o: nat)     // the handler returned nil
    | Backoff
    | Leaving                // the Consume loop is over
    | ForwarderGone

  datatype Reader = Looking | Receiving | Handling(o: nat) | ReaderGone

  datatype Chan = Chan(
    start: nat,              // where this process began to fetch
    pos: nat, committed: nat,
    sent: seq<nat>, buffer: seq<nat>, processed: seq<nat>,
    forwarder: Forwarder, reader: Reader,
    listed: bool, closed: bool, cancelled: bool,
    done: set<nat>,          // processed by this process or an earlier one
    restarts: nat)

  function Booted(committed: nat, done: set<nat>, restarts: nat): Chan {
    Chan(committed, committed, committed, [], [], [], Fetching, Looking, true, false, false, done, restarts)
  }

  function Initial(): Chan { Booted(0, {}, 0) }

  datatype Step =
    | Fetch
    | FetchEnds                  // context cancelled: Consume returns nil
    | FetchFails
    | Unlisted                   // the handler finds the subscription removed
    | Send
    | SendCancelled
    | CommitLands
    | CommitFails(took: bool)
    | Retry
    | CloseChannel
    | Look
    | Receive
    | SeeClosed
    | ReaderCancelled
    | Process
    | Cancel
    | Restart                    // crash or deploy: everything in memory is gone

  predicate Enabled(c: Chan, st: Step) {
    match st
    case Fetch => c.forwarder.Fetching?
    case FetchEnds => c.forwarder.Fetching? && c.cancelled
    case FetchFails => c.forwarder.Fetching?
    case Unlisted => c.forwarder.Sending? && !c.listed
    case Send => c.forwarder.Sending? && c.listed && |c.buffer| < CAPACITY
    case SendCancelled => c.forwarder.Sending? && c.cancelled
    case CommitLands => c.forwarder.Committing?
    case CommitFails(_) => c.forwarder.Committing?
    case Retry => c.forwarder.Backoff?
    case CloseChannel => c.forwarder.Leaving?
    case Look => c.reader.Looking?
    case Receive => c.reader.Receiving? && c.buffer != []
    case SeeClosed => c.reader.Receiving? && c.closed && c.buffer == []
    case ReaderCancelled => (c.reader.Looking? || c.reader.Receiving?) && c.cancelled
    case Process => c.reader.Handling?
    case Cancel => true
    case Restart => true
  }

  function AfterFailure(c: Chan): Forwarder { if c.cancelled then Leaving else Backoff }

  function Apply(c: Chan, st: Step): Chan
    requires Enabled(c, st)
  {
    match st
    case Fetch => c.(forwarder := Sending(c.pos), pos := c.pos + 1)
    case FetchEnds => c.(forwarder := Leaving)
    case FetchFails => c.(forwarder := AfterFailure(c))
    case Unlisted => c.(forwarder := Leaving)
    case Send =>
      var o := c.forwarder.o;
      c.(forwarder := Committing(o), sent := c.sent + [o], buffer := c.buffer + [o])
    case SendCancelled => c.(forwarder := Leaving)
    case CommitLands => c.(forwarder := Fetching, committed := c.forwarder.o + 1)
    case CommitFails(took) =>
      c.(forwarder := AfterFailure(c), committed := if took then c.forwarder.o + 1 else c.committed)
    case Retry => c.(forwarder := Fetching)
    case CloseChannel => c.(forwarder := ForwarderGone, closed := true, listed := false)
    case Look => c.(reader := if c.listed then Receiving else ReaderGone)
    case Receive => c.(reader := Handling(c.buffer[0]), buffer := c.buffer[1..])
    case SeeClosed => c.(reader := ReaderGone)
    case ReaderCancelled => c.(reader := ReaderGone)
    case Process =>
      var o := c.reader.o;
      c.(reader := Looking, processed := c.processed + [o], done := c.done + {o})
    case Cancel => c.(cancelled := true)
    case Restart => Booted(c.committed, c.done, c.restarts + 1)
  }

  ghost predicate Run(cs: seq<Chan>, steps: seq<Step>) {
    && |cs| == |steps| + 1 && cs[0] == Initial()
    && forall i | 0 <= i < |steps| :: Enabled(cs[i], steps[i]) && cs[i + 1] == Apply(cs[i], steps[i])
  }

  // ---------- the invariant ----------

  function InHand(c: Chan): seq<nat> { if c.reader.Handling? then [c.reader.o] else [] }

  /** The first offset this process has not sent. */
  function Frontier(c: Chan): nat { if c.forwarder.Sending? then c.forwarder.o else c.pos }

  /** s is from, from + 1, ... */
  predicate Contiguous(s: seq<nat>, from: nat) {
    forall i | 0 <= i < |s| :: s[i] == from + i
  }

  ghost predicate Conserved(c: Chan) {
    && c.sent == c.processed + InHand(c) + c.buffer
    && |c.buffer| <= CAPACITY
    && Contiguous(c.sent, c.start)
    && forall o | o in c.processed :: o in c.done
  }

  ghost predicate Ordered(c: Chan) {
    && (c.forwarder.Sending? || c.forwarder.Committing? ==> c.pos == c.forwarder.o + 1)
    && c.start <= c.committed
    && (c.forwarder.Leaving? || c.forwarder.ForwarderGone? || c.start + |c.sent| == Frontier(c))
    && c.committed <= c.start + |c.sent|
    && (c.closed <==> c.forwarder.ForwarderGone?) && (c.listed <==> !c.closed)
  }

  /** Committed by this or an earlier process, and processed by none. */
  function Missing(bound: nat, done: set<nat>): set<nat> {
    set o: nat | o < bound && o !in done
  }

  ghost predicate Inv(c: Chan) {
    Conserved(c) && Ordered(c) && |Missing(c.start, c.done)| <= (CAPACITY + 1) * c.restarts
  }

  function Between(lo: nat, hi: nat): (s: set<nat>)
    ensures forall o: nat :: o in s <==> lo <= o < hi
    ensures |s| == if lo <= hi then hi - lo else 0
    decreases hi
  {
    if lo >= hi then {} else Between(lo, hi - 1) + {hi - 1}
  }

  /** What this process adds to the missing offsets is still in its memory. */
  lemma MissingIsInMemory(c: Chan)
    requires Conserved(c) && Ordered(c)
    ensures |Missing(c.committed, c.done)| <= |Missing(c.start, c.done)| + CAPACITY + 1
  {
    var k := c.start + |c.processed|;
    var n := c.start + |c.sent|;
    assert n - k == |InHand(c)| + |c.buffer|;
    forall o: nat | c.start <= o < k
      ensures o in c.done
    {
      assert c.sent[o - c.start] == o && c.processed[o - c.start] == o;
    }
    assert Missing(c.committed, c.done) <= Missing(c.start, c.done) + Between(k, n);
    Subsets(Missing(c.committed, c.done), Missing(c.start, c.done) + Between(k, n));
  }

  lemma ConservedKept(c: Chan, st: Step)
    requires Conserved(c) && Ordered(c) && Enabled(c, st)
    ensures Conserved(Apply(c, st))
  {
    match st
    case Send => SendConserves(c);
    case Receive => assert c.buffer == [c.buffer[0]] + c.buffer[1..];
    case Process => assert c.processed + [c.reader.o] + c.buffer == c.processed + InHand(c) + c.buffer;
    case _ => OthersConserve(c, st);
  }

  lemma SendConserves(c: Chan)
    requires Conserved(c) && Ordered(c) && Enabled(c, Send)
    ensures Conserved(Apply(c, Send))
  {
    var o := c.forwarder.o;
    assert c.processed + InHand(c) + (c.buffer + [o]) == (c.processed + InHand(c) + c.buffer) + [o];
  }

  lemma OthersConserve(c: Chan, st: Step)
    requires Conserved(c) && Ordered(c) && Enabled(c, st) && !st.Send? && !st.Receive? && !st.Process?
    ensures Conserved(Apply(c, st))
  {
  }

  lemma OrderedKept(c: Chan, st: Step)
    requires Conserved(c) && Ordered(c) && Enabled(c, st)
    ensures Ordered(Apply(c, st))
  {
  }

  lemma InvKept(c: Chan, st: Step)
    requires Inv(c) && Enabled(c, st)
    ensures Inv(Apply(c, st))
  {
    ConservedKept(c, st);
    OrderedKept(c, st);
    var c' := Apply(c, st);
    if st.Restart? {
      MissingIsInMemory(c);
    } else {
      Subsets(Missing(c'.start, c'.done), Missing(c.start, c.done));
    }
  }

  lemma {:induction false} Reachable(cs: seq<Chan>, steps: seq<Step>, n: nat)
    requires Run(cs, steps) && n < |cs|
    ensures Inv(cs[n])
  {
    if n == 0 {
      assert Missing(0, {}) == {};
    } else {
      Reachable(cs, steps, n - 1);
      InvKept(cs[n - 1], steps[n - 1]);
    }
  }

  // ---------- what it means ----------

  /** At every interleaving, what was sent is what was processed, then what the runner
    * holds, then what is buffered, in offset order without gaps. */
  lemma NothingIsDropped(cs: seq<Chan>, steps: seq<Step>, n: nat)
    requires Run(cs, steps) && n < |cs|
    ensures cs[n].sent == cs[n].processed + InHand(cs[n]) + cs[n].buffer
    ensures Contiguous(cs[n].sent, cs[n].start) && Contiguous(cs[n].processed, cs[n].start)
  {
    Reachable(cs, steps, n);
    assert forall i | 0 <= i < |cs[n].processed| :: cs[n].processed[i] == cs[n].sent[i];
  }

  /** Nothing is committed before it was sent, and no more than 101 committed messages of
    * this process are unprocessed: a full buffer and the one in hand. */
  lemma AtMost101Ahead(cs: seq<Chan>, steps: seq<Step>, n: nat)
    requires Run(cs, steps) && n < |cs|
    ensures var c := cs[n];
      && c.start <= c.committed <= c.start + |c.sent|
      && c.committed - (c.start + |c.processed|) <= 101
  {
    Reachable(cs, steps, n);
  }

  /** Over all processes, at most 101 committed messages per process go unprocessed. */
  lemma LossIsBounded(cs: seq<Chan>, steps: seq<Step>, n: nat)
    requires Run(cs, steps) && n < |cs|
    ensures |Missing(cs[n].committed, cs[n].done)| <= 101 * (cs[n].restarts + 1)
  {
    Reachable(cs, steps, n);
    MissingIsInMemory(cs[n]);
  }

  /** The channel is closed only after the last send, so no send meets a closed channel. */
  lemma NoSendOnClosed(cs: seq<Chan>, steps: seq<Step>, n: nat)
    requires Run(cs, steps) && n < |cs| && cs[n].forwarder.Sending?
    ensures !cs[n].closed && !Enabled(cs[n], Unlisted)
  {
    Reachable(cs, steps, n);
  }

  /** A commit never moves the group backwards. */
  lemma CommitsAdvance(cs: seq<Chan>, steps: seq<Step>, n: nat)
    requires Run(cs, steps) && n < |steps|
    ensures cs[n].committed <= cs[n + 1].committed
  {
    Reachable(cs, steps, n);
  }

  // ---------- who leaves when ----------

  /** The forwarder gives up its loop only when the context has ended or the subscription is
    * gone, and fetches again after any other failure. */
  lemma WhenTheForwarderLeaves(c: Chan, st: Step)
    requires Enabled(c, st) && !c.forwarder.Leaving? && !st.Restart?
    ensures Apply(c, st).forwarder.Leaving? ==> c.cancelled || !c.listed
    ensures (st.FetchFails? || st.CommitFails?) ==>
      Apply(c, st).forwarder == if c.cancelled then Leaving else Backoff
  {
  }

  /** The reader has left, or is between messages with nothing to come back to. */
  predicate Stranded(c: Chan) { !c.listed && (c.reader.Looking? || c.reader.ReaderGone?) }

  lemma StrandedStays(c: Chan, st: Step)
    requires Conserved(c) && Ordered(c) && Stranded(c) && Enabled(c, st) && !st.Restart?
    ensures var c' := Apply(c, st); Stranded(c') && c'.processed == c.processed && c'.buffer == c.buffer
  {
  }

  /** Once the subscription is gone, a reader between two messages processes none of those
    * still buffered; only a new process can. */
  lemma {:induction false} BufferedIsLost(cs: seq<Chan>, steps: seq<Step>, i: nat, n: nat)
    requires Run(cs, steps) && i <= n < |cs| && Stranded(cs[i])
    requires forall k | i <= k < n :: !steps[k].Restart?
    ensures Stranded(cs[n]) && cs[n].processed == cs[i].processed && cs[n].buffer == cs[i].buffer
  {
    if i < n {
      BufferedIsLost(cs, steps, i, n - 1);
      Reachable(cs, steps, n - 1);
      StrandedStays(cs[n - 1], steps[n - 1]);
    }
  }

  // ---------- the bound is tight ----------

  /** The runner busy with message 0 while k more have been sent and committed. */
  function Ahead(k: nat): Chan {
    Chan(0, k + 1, k + 1, seq(k + 1, i => i), seq(k, i => i + 1), [], Fetching, Handling(0),
         true, false, false, {}, 0)
  }

  lemma Extend(cs: seq<Chan>, steps: seq<Step>, st: Step)
    requires Run(cs, steps) && Enabled(cs[|steps|], st)
    ensures Run(cs + [Apply(cs[|steps|], st)], steps + [st])
  {
  }

  lemma Forward(cs: seq<Chan>, steps: seq<Step>) returns (cs': seq<Chan>, steps': seq<Step>)
    requires Run(cs, steps) && cs[|steps|].forwarder.Fetching? && cs[|steps|].listed && |cs[|steps|].buffer| < CAPACITY
    ensures Run(cs', steps')
    ensures var c := cs[|steps|];
      cs'[|steps'|] == c.(pos := c.pos + 1, committed := c.pos + 1,
                          sent := c.sent + [c.pos], buffer := c.buffer + [c.pos])
  {
    cs', steps' := cs, steps;
    Extend(cs', steps', Fetch);
    cs', steps' := cs' + [Apply(cs'[|steps'|], Fetch)], steps' + [Fetch];
    Extend(cs', steps', Send);
    cs', steps' := cs' + [Apply(cs'[|steps'|], Send)], steps' + [Send];
    Extend(cs', steps', CommitLands);
    cs', steps' := cs' + [Apply(cs'[|steps'|], CommitLands)], steps' + [CommitLands];
  }

  /** 101 committed and unprocessed messages do occur. */
  lemma {:induction false} BoundIsReached(k: nat) returns (cs: seq<Chan>, steps: seq<Step>)
    requires k <= 100
    ensures Run(cs, steps) && cs[|steps|] == Ahead(k)
    ensures cs[|steps|].committed - |cs[|steps|].processed| == k + 1
  {
    if k == 0 {
      cs, steps := Forward([Initial()], []);
      Extend(cs, steps, Look);
      cs, steps := cs + [Apply(cs[|steps|], Look)], steps + [Look];
      Extend(cs, steps, Receive);
      cs, steps := cs + [Apply(cs[|steps|], Receive)], steps + [Receive];
    } else {
      cs, steps := BoundIsReached(k - 1);
      cs, steps := Forward(cs, steps);
    }
  }
}
