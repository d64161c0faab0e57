/** The commit-after-handle loop of one consumer-group member over one partition.
  *
  * The broker keeps the group's committed offset, the reader its own fetch position;
  * they part ways when a message is fetched but not committed. A run is driven by a
  * script of what fetch, handler and commit do; a script that ends stands for a crash
  * between two turns. The log has end messages when the last run is over; a fetch that
  * waits for a message which never comes is one that is cancelled.
  */
module Consume {

  datatype Turn =
    | Cancelled            // FetchMessage sees the cancelled context
    | FetchFails
    | HandlerFails
    | HandlerCrashes       // the process dies before the handler is done
    | CrashBeforeCommit
    | CommitRefused        // CommitMessages fails without effect
    | CommitLost           // ... fails although the broker took the offset
    | Committed

  predicate Fetches(t: Turn) { !t.Cancelled? && !t.FetchFails? }
  predicate Handles(t: Turn) { Fetches(t) && !t.HandlerFails? && !t.HandlerCrashes? }
  predicate Stores(t: Turn) { t.CommitLost? || t.Committed? }

  /** committed: what a new reader starts from; pos: what this reader fetches next. */
  datatype Group = Group(committed: nat, pos: nat, delivered: seq<nat>, handled: set<nat>)

  function Fresh(): Group { Group(0, 0, [], {}) }

  /** A restart: the new reader resumes at the committed offset. */
  function Reopened(g: Group): Group { g.(pos := g.committed) }

  function Turned(g: Group, t: Turn, end: nat): Group {
    if g.pos >= end || !Fetches(t) then g
    else
      Group(if Stores(t) then g.pos + 1 else g.committed, g.pos + 1, g.delivered + [g.pos],
            if Handles(t) then g.handled + {g.pos} else g.handled)
  }

  /** A whole run over a log of end messages: it goes on only after a commit. */
  function Run(g: Group, turns: seq<Turn>, end: nat): Group
    decreases turns
  {
    if turns == [] then g
    else
      var next := Turned(g, turns[0], end);
      if turns[0].Committed? && g.pos < end then Run(next, turns[1..], end) else next
  }

  function Upto(from: nat, to: nat): (s: seq<nat>)
    ensures |s| == if from <= to then to - from else 0
    ensures forall i | 0 <= i < |s| :: s[i] == from + i
  {
    if from >= to then [] else seq(to - from, i requires 0 <= i => from + i)
  }

  /** Everything below the committed offset has been handled successfully. */
  ghost predicate Covered(g: Group) {
    g.committed <= g.pos && forall o: nat | o < g.committed :: o in g.handled
  }

  /** ... and so has everything this reader has left behind. */
  ghost predicate Settled(g: Group) {
    g.committed <= g.pos && forall o: nat | o < g.pos :: o in g.handled
  }

  /** One run: the commit never moves back, the offsets delivered are contiguous from
    * where the reader stood, and a settled reader leaves the group covered. */
  lemma {:induction false} RunKeeps(g: Group, turns: seq<Turn>, end: nat)
    requires Settled(g)
    ensures var r := Run(g, turns, end);
      && g.committed <= r.committed <= r.pos && g.pos <= r.pos
      && r.delivered == g.delivered + Upto(g.pos, r.pos)
      && g.handled <= r.handled && Covered(r)
    decreases turns
  {
    if turns != [] && turns[0].Committed? && g.pos < end {
      RunKeeps(Turned(g, turns[0], end), turns[1..], end);
      assert Upto(g.pos, Run(g, turns, end).pos) == [g.pos] + Upto(g.pos + 1, Run(g, turns, end).pos);
    }
  }

  // ---------- sequences of runs ----------

  function Reruns(g: Group, runs: seq<seq<Turn>>, end: nat): Group {
    if runs == [] then g
    else Run(Reopened(Reruns(g, runs[..|runs| - 1], end)), runs[|runs| - 1], end)
  }

  /** Over any sequence of runs, each on a new reader, whatever ended the ones before:
    * the group stays covered ... */
  lemma {:induction false} RerunsCover(runs: seq<seq<Turn>>, end: nat)
    ensures Covered(Reruns(Fresh(), runs, end))
  {
    if runs != [] {
      RerunsCover(runs[..|runs| - 1], end);
      RunKeeps(Reopened(Reruns(Fresh(), runs[..|runs| - 1], end)), runs[|runs| - 1], end);
    }
  }

  /** ... each run delivers a contiguous stretch that starts at the committed offset, and
    * the committed offset never moves back. */
  lemma {:induction false} RerunsAdvance(runs: seq<seq<Turn>>, k: nat, end: nat)
    requires k < |runs|
    ensures var before, after := Reruns(Fresh(), runs[..k], end), Reruns(Fresh(), runs[..k + 1], end);
      && before.committed <= after.committed <= after.pos
      && after.delivered == before.delivered + Upto(before.committed, after.pos)
  {
    RerunsCover(runs[..k], end);
    assert runs[..k + 1][..k] == runs[..k];
    RunKeeps(Reopened(Reruns(Fresh(), runs[..k], end)), runs[k], end);
  }

  // ---------- reusing a reader ----------

  /** Running the same reader again, without reopening it, keeps the group covered
    * whatever happens if and only if no offset behind the reader is still unhandled. */
  lemma ReuseIsSafeIffSettled(g: Group, end: nat)
    requires Covered(g) && g.pos < end
    ensures (forall turns :: Covered(Run(g, turns, end))) <==> Settled(g)
  {
    if Settled(g) {
      forall turns
        ensures Covered(Run(g, turns, end))
      {
        RunKeeps(g, turns, end);
      }
    } else {
      var turns := UnsettledLoses(g, end);
      assert !Covered(Run(g, turns, end));
    }
  }

  /** One more commit passes whatever the reader left unhandled. */
  lemma UnsettledLoses(g: Group, end: nat) returns (turns: seq<Turn>)
    requires Covered(g) && g.pos < end && !Settled(g)
    ensures !Covered(Run(g, turns, end))
  {
    turns := [Committed];
    var o: nat :| o < g.pos && o !in g.handled;
    var next := Turned(g, Committed, end);
    assert turns[1..] == [] && Run(next, [], end) == next;
    assert o < next.committed && o !in next.handled;
  }

  /** It does happen: a new reader's handler refuses message 0, the same reader runs again,
    * and committing message 1 passes message 0, which no later reader is given. */
  lemma ReuseLosesARefusedMessage()
    ensures var g := Run(Fresh(), [HandlerFails], 2);
      && Covered(g) && !Settled(g)
      && var again := Run(g, [Committed], 2);
         && !Covered(again) && 0 !in again.handled
         && forall turns, end :: 0 !in Run(Reopened(again), turns, end).handled
  {
    var g := Run(Fresh(), [HandlerFails], 2);
    assert g == Group(0, 1, [0], {});
    var again := Run(g, [Committed], 2);
    assert again == Turned(g, Committed, 2) == Group(2, 2, [0, 1], {1});
    assert 0 !in again.handled && 0 < again.committed;
    forall turns, end
      ensures 0 !in Run(Reopened(again), turns, end).handled
    {
      StaysUnhandled(Reopened(again), turns, end, 0);
    }
  }

  /** What lies behind a reader is not handled by it any more. */
  lemma {:induction false} StaysUnhandled(g: Group, turns: seq<Turn>, end: nat, o: nat)
    requires o < g.pos && o !in g.handled
    ensures o !in Run(g, turns, end).handled
    decreases turns
  {
    if turns != [] && turns[0].Committed? && g.pos < end {
      StaysUnhandled(Turned(g, turns[0], end), turns[1..], end, o);
    }
  }

  /** A run leaves a settled reader settled unless its handler failed. */
  lemma {:induction false} OnlyHandlerErrorsUnsettle(g: Group, turns: seq<Turn>, end: nat)
    requires Settled(g)
    ensures HandlerFails !in turns && HandlerCrashes !in turns ==> Settled(Run(g, turns, end))
    decreases turns
  {
    RunKeeps(g, turns, end);
    if turns != [] && turns[0].Committed? && g.pos < end {
      OnlyHandlerErrorsUnsettle(Turned(g, turns[0], end), turns[1..], end);
    }
  }

  // ---------- the in-memory consumer ----------

  datatype Seen = Seen(next: nat, delivered: seq<nat>)

  /** The consumer without a broker: verdicts are what the handler says until the
    * context ends, and the offset is simply the next index. */
  function InMemory(next: nat, end: nat, verdicts: seq<bool>): Seen
    decreases verdicts
  {
    if next >= end || verdicts == [] then Seen(next, [])
    else if !verdicts[0] then Seen(next, [next])
    else
      var rest := InMemory(next + 1, end, verdicts[1..]);
      Seen(rest.next, [next] + rest.delivered)
  }

  /** What the handler says along a script. */
  function Verdicts(turns: seq<Turn>): seq<bool> {
    if turns == [] || !Fetches(turns[0]) then []
    else if turns[0].Committed? then [true] + Verdicts(turns[1..])
    else [Handles(turns[0])]
  }

  /** Every run makes the same handler calls as the in-memory consumer, and commits what
    * it consumed, except for the last message when its commit did not take effect. */
  lemma {:induction false} RefinesInMemory(g: Group, turns: seq<Turn>, end: nat)
    requires g.pos == g.committed
    ensures var r, seen := Run(g, turns, end), InMemory(g.committed, end, Verdicts(turns));
      && r.delivered == g.delivered + seen.delivered
      && seen.next - 1 <= r.committed <= seen.next
      && (CrashBeforeCommit !in turns && CommitRefused !in turns ==> r.committed == seen.next)
    decreases turns
  {
    if turns != [] && turns[0].Committed? && g.pos < end {
      assert Verdicts(turns)[1..] == Verdicts(turns[1..]);
      RefinesInMemory(Turned(g, turns[0], end), turns[1..], end);
    } else if turns != [] && Handles(turns[0]) && g.pos < end {
      assert Verdicts(turns) == [true];
      assert InMemory(g.pos + 1, end, Verdicts(turns)[1..]) == Seen(g.pos + 1, []);
    }
  }

  // ---------- the loop ----------

  datatype RunEnd = Shutdown | FetchError | HandlerError | CommitError | Died

  /** The first k turns each commit a message ... */
  ghost predicate Commits(g: Group, turns: seq<Turn>, end: nat, k: nat) {
    k <= |turns| && g.pos + k <= (if k > 0 then end else g.pos) && forall i | 0 <= i < k :: turns[i] == Committed
  }

  /** ... and turn k does not. */
  ghost predicate Stops(g: Group, turns: seq<Turn>, end: nat, k: nat) {
    Commits(g, turns, end, k) && (k < |turns| ==> turns[k] != Committed || g.pos + k >= end)
  }

  /** Turn k ends a run so: the context or the fetch first, then the handler, then the commit;
    * without a turn the process has died. idle: no message is left. */
  ghost predicate EndsSo(turns: seq<Turn>, k: nat, idle: bool, outcome: RunEnd)
    requires k <= |turns|
  {
    if k == |turns| then outcome == Died
    else
      && (outcome == FetchError <==> turns[k] == FetchFails)
      && (outcome == Shutdown <==> turns[k] != FetchFails && (turns[k] == Cancelled || idle))
      && (outcome == HandlerError <==> turns[k] == HandlerFails && !idle)
      && (outcome == CommitError <==> turns[k] in {CommitRefused, CommitLost} && !idle)
      && (outcome == Died <==> turns[k] in {HandlerCrashes, CrashBeforeCommit} && !idle)
  }

  /** What it leaves: k messages handled and committed, and of the next, if turn k fetched it,
    * whether the handler and the broker took it. */
  ghost predicate Leaves(g: Group, r: Group, turns: seq<Turn>, end: nat, k: nat)
    requires k <= |turns|
  {
    var fetched := k < |turns| && g.pos + k < end && turns[k] != FetchFails && turns[k] != Cancelled;
    && r.pos == g.pos + k + (if fetched then 1 else 0)
    && r.delivered == g.delivered + Upto(g.pos, r.pos)
    && (forall o :: o in r.handled <==>
          || o in g.handled || g.pos <= o < g.pos + k
          || (fetched && o == g.pos + k && turns[k] in {CrashBeforeCommit, CommitRefused, CommitLost}))
    && r.committed ==
         if fetched && turns[k] == CommitLost then g.pos + k + 1
         else if k > 0 then g.pos + k else g.committed
  }

  lemma {:induction false} RunLeaves(g: Group, turns: seq<Turn>, end: nat, k: nat)
    requires k <= |turns|
    ensures Stops(g, turns, end, k) ==> Leaves(g, Run(g, turns, end), turns, end, k)
    decreases k
  {
    if Stops(g, turns, end, k) && k > 0 {
      var next, r := Turned(g, turns[0], end), Run(g, turns, end);
      assert turns[0] == Committed && g.pos < end;
      assert forall i | 0 <= i < k - 1 :: turns[1..][i] == turns[i + 1];
      RunLeaves(next, turns[1..], end, k - 1);
      assert Upto(g.pos, r.pos) == [g.pos] + Upto(g.pos + 1, r.pos);
    } else if Stops(g, turns, end, k) && turns != [] {
      assert Run(g, turns, end) == Turned(g, turns[0], end);
      assert Upto(g.pos, g.pos) == [] && Upto(g.pos, g.pos + 1) == [g.pos];
    }
  }

  class KafkaConsumer {
    var committed: nat
    var pos: nat
    var delivered: seq<nat>
    ghost var handled: set<nat>

    ghost function State(): Group
      reads this
    {
      Group(committed, pos, delivered, handled)
    }

    constructor ()
      ensures State() == Fresh()
    {
      committed, pos, delivered, handled := 0, 0, [], {};
    }

    method Reopen()
      modifies this
      ensures State() == Reopened(old(State()))
    {
      pos := committed;
    }

    /** k messages are committed one after the other, and turn k ends the run: how it does,
      * and what becomes of the message it was about. */
    method Consume(turns: seq<Turn>, end: nat) returns (outcome: RunEnd, k: nat)
      modifies this
      ensures State() == Run(old(State()), turns, end)
      ensures Stops(old(State()), turns, end, k) && EndsSo(turns, k, old(pos) + k >= end, outcome)
      ensures Leaves(old(State()), State(), turns, end, k)
      ensures old(committed) == old(pos) ==>
        && (outcome.Shutdown? || outcome.FetchError? ==> committed == pos)
        && (outcome.HandlerError? ==> committed + 1 == pos)
    {
      k := 0;
      while k < |turns|
        invariant pos == old(pos) + k && Commits(old(State()), turns, end, k)
        invariant Run(State(), turns[k..], end) == Run(old(State()), turns, end)
      {
        var t := turns[k];
        RunLeaves(old(State()), turns, end, k);
        assert turns[k..][0] == t && turns[k..][1..] == turns[k + 1..];
        if t.FetchFails? { return FetchError, k; }
        if t.Cancelled? || pos >= end { return Shutdown, k; }
        var o := pos;
        pos, delivered := pos + 1, delivered + [o];
        if t.HandlerCrashes? { return Died, k; }
        if t.HandlerFails? { return HandlerError, k; }
        handled := handled + {o};
        if t.CrashBeforeCommit? { return Died, k; }
        if t.CommitRefused? { return CommitError, k; }
        committed := o + 1;
        if t.CommitLost? { return CommitError, k; }
        k := k + 1;
      }
      RunLeaves(old(State()), turns, end, k);
      return Died, k;
    }

    /** Process after process: each starts a reader of its own and consumes until its run ends. */
    method ConsumeAll(runs: seq<seq<Turn>>, end: nat)
      modifies this
      ensures State() == Reruns(old(State()), runs, end)
    {
      for i := 0 to |runs|
        invariant State() == Reruns(old(State()), runs[..i], end)
      {
        assert runs[..i + 1][..i] == runs[..i];
        Reopen();
        var _, _ := Consume(runs[i], end);
      }
      assert runs[..|runs|] == runs;
    }
  }
}
