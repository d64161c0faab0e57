/** The chat client's rate limit: under a mutex every attempt reserves the next free
  * slot and then sleeps until it. Any number of callers share the client; the clock of
  * each is read as it goes and never runs backwards. Times are in milliseconds.
  */
module Limiter {

  const MAX_ATTEMPTS := 3
  const DEFAULT_INTERVAL := 100

  function Max(a: int, b: int): int { if a > b then a else b }

  /** One critical section: the two clock readings it makes. The request leaves later. */
  datatype Reservation = Reservation(since: int, now: int)

  /** lastRequest after a reservation; None is the zero time, which lies ages back. */
  datatype Last = Never | At(t: int)

  function Wait(last: Last, min: int, since: int): int {
    match last
    case Never => -1
    case At(t) => min - (since - t)
  }

  function Slot(last: Last, min: int, r: Reservation): int { r.now + Max(Wait(last, min, r.since), 0) }

  /** The slots handed out to a sequence of critical sections, oldest first. */
  function Slots(min: int, rs: seq<Reservation>): (s: seq<int>)
    ensures |s| == |rs|
  {
    if rs == [] then []
    else
      var before := Slots(min, rs[..|rs| - 1]);
      before + [Slot(if before == [] then Never else At(before[|before| - 1]), min, rs[|rs| - 1])]
  }

  /** The clock under the mutex: each section reads it twice, sections follow one another. */
  predicate Monotone(rs: seq<Reservation>) {
    && (forall i | 0 <= i < |rs| :: rs[i].since <= rs[i].now)
    && (forall i | 0 <= i < |rs| - 1 :: rs[i].now <= rs[i + 1].since)
  }

  /** Neighbouring slots are at least the minimum interval apart, and none is in the past
    * of its own reservation. */
  lemma {:induction false} SlotsKeepDistance(min: int, rs: seq<Reservation>)
    requires Monotone(rs)
    ensures forall i | 0 <= i < |rs| - 1 :: Slots(min, rs)[i] + min <= Slots(min, rs)[i + 1]
    ensures forall i | 0 <= i < |rs| :: rs[i].now <= Slots(min, rs)[i]
  {
    if rs != [] {
      SlotsKeepDistance(min, rs[..|rs| - 1]);
    }
  }

  /** A slot is no later than it must be: the first is its own moment, a later one is its own
    * moment if the last lies the interval back, and else that much later as is missing. */
  lemma {:induction false} SlotExactly(min: int, rs: seq<Reservation>, i: nat)
    requires i < |rs|
    ensures var slot, now, since := Slots(min, rs)[i], rs[i].now, rs[i].since;
      if i == 0 then slot == now
      else
        var last := Slots(min, rs)[i - 1];
        && (since - last >= min ==> slot == now)
        && (since - last < min ==> slot == now + min - (since - last))
  {
    SlotAt(min, rs, i);
  }

  /** With one clock reading per section a slot is the later of its own moment and the last
    * slot plus the interval. */
  lemma SlotIsEarliest(min: int, rs: seq<Reservation>, i: nat)
    requires 0 < i < |rs| && rs[i].since == rs[i].now
    ensures var slot, soonest := Slots(min, rs)[i], Slots(min, rs)[i - 1] + min;
      slot == if rs[i].now >= soonest then rs[i].now else soonest
  {
    SlotExactly(min, rs, i);
  }

  lemma {:induction false} SlotsSpread(min: int, rs: seq<Reservation>, i: nat, j: nat)
    requires Monotone(rs) && i <= j < |rs|
    ensures Slots(min, rs)[i] + (j - i) * min <= Slots(min, rs)[j]
    decreases j
  {
    if i < j {
      SlotsKeepDistance(min, rs);
      SlotsSpread(min, rs, i, j - 1);
      assert (j - i) * min == (j - 1 - i) * min + min;
    }
  }

  // ---------- requests ----------

  /** What became of a reserved slot: a request leaves at some time after the mutex was
    * released and the caller has slept. */
  datatype Request = Unsent | Sent(released: int, slept: int, at: int)

  /** The mutex is released after its second clock reading, the timer runs for the wait
    * computed under it, if that is positive, and only then the request is made. */
  predicate SentAfterSleep(last: Last, min: int, r: Reservation, req: Request) {
    req.Sent? ==>
      && r.now <= req.released && req.released + req.slept <= req.at && 0 <= req.slept
      && (Wait(last, min, r.since) > 0 ==> Wait(last, min, r.since) <= req.slept)
  }

  function LastBefore(min: int, rs: seq<Reservation>, i: nat): Last
    requires i < |rs|
  {
    if i == 0 then Never else At(Slots(min, rs)[i - 1])
  }

  /** Every caller sleeps out its own wait. */
  ghost predicate AllSleep(min: int, rs: seq<Reservation>, reqs: seq<Request>) {
    |reqs| == |rs| && forall i | 0 <= i < |rs| :: SentAfterSleep(LastBefore(min, rs, i), min, rs[i], reqs[i])
  }

  /** The reservations whose request left by time t. */
  function SentBy(reqs: seq<Request>, t: int): set<nat> {
    set i: nat | i < |reqs| && reqs[i].Sent? && reqs[i].at <= t
  }

  lemma {:induction false} SubsetOfFirst(s: set<nat>, n: nat)
    requires forall i | i in s :: i < n
    ensures |s| <= n
  {
    if n > 0 {
      SubsetOfFirst(s - {n - 1}, n - 1);
    } else {
      assert s == {};
    }
  }

  /** No request leaves before its slot, though its caller never looks at the slot. */
  lemma NoneBeforeItsSlot(min: int, rs: seq<Reservation>, reqs: seq<Request>, i: nat)
    requires AllSleep(min, rs, reqs) && i < |rs| && reqs[i].Sent?
    ensures Slots(min, rs)[i] <= reqs[i].at
  {
    SlotAt(min, rs, i);
  }

  /** By any time t at most floor((t - first slot) / min) + 1 requests have been sent,
    * however many callers and retries there are and in whatever order they wake up. */
  lemma RateIsBounded(min: int, rs: seq<Reservation>, reqs: seq<Request>, t: int)
    requires min > 0 && Monotone(rs) && rs != [] && AllSleep(min, rs, reqs)
    ensures var first := Slots(min, rs)[0];
      |SentBy(reqs, t)| <= if t < first then 0 else (t - first) / min + 1
  {
    var first := Slots(min, rs)[0];
    var n := if t < first then 0 else (t - first) / min + 1;
    forall i | i in SentBy(reqs, t)
      ensures i < n
    {
      NoneBeforeItsSlot(min, rs, reqs, i);
      SlotsSpread(min, rs, 0, i);
      DivisionBound(i, min, t - first);
    }
    SubsetOfFirst(SentBy(reqs, t), n);
  }

  lemma LessFactor(a: int, b: int, m: int)
    requires m > 0 && a * m < b * m
    ensures a < b
  {
  }

  lemma DivisionBound(i: nat, min: int, d: int)
    requires min > 0 && i * min <= d
    ensures d >= 0 && i <= d / min
  {
    assert i * min >= 0;
    assert d < (d / min + 1) * min;
    LessFactor(i, d / min + 1, min);
  }

  lemma {:induction false} SlotAt(min: int, rs: seq<Reservation>, i: nat)
    requires i < |rs|
    ensures Slots(min, rs)[i] == Slot(LastBefore(min, rs, i), min, rs[i])
  {
    if i < |rs| - 1 {
      SlotAt(min, rs[..|rs| - 1], i);
    }
  }

  // ---------- the client ----------

  datatype Cancel = Nowhere | InBackoff | InWait

  /** What time, the caller's context and the server do to one attempt. */
  datatype Turn = Turn(reservation: Reservation, delay: nat, oversleep: nat, cancel: Cancel, answers: bool)

  datatype Answer = Replied | Cancelled | GaveUp

  class Client {
    const minInterval: int
    var lastRequest: Last
    var reservations: seq<Reservation>
    var requests: seq<Request>

    ghost predicate Valid()
      reads this
    {
      && AllSleep(minInterval, reservations, requests)
      && lastRequest == if reservations == [] then Never else At(Slots(minInterval, reservations)[|reservations| - 1])
    }

    constructor (configured: int)
      ensures Valid() && reservations == [] && requests == []
      ensures minInterval == if configured == 0 then 100 else configured
    {
      minInterval := if configured == 0 then DEFAULT_INTERVAL else configured;
      lastRequest, reservations, requests := Never, [], [];
    }

    /** The critical section and the sleep that follows it. */
    method Reserve(r: Reservation, delay: nat, oversleep: nat, cancelled: bool) returns (req: Request)
      requires Valid()
      modifies this
      ensures Valid() && reservations == old(reservations) + [r]
      ensures requests == old(requests) + [req]
      ensures lastRequest.At? && lastRequest.t >= r.now
      ensures var missing := if old(lastRequest).Never? then 0 else minInterval - (r.since - old(lastRequest).t);
        && lastRequest.t == (if missing > 0 then r.now + missing else r.now)
        && (req.Unsent? <==> cancelled && missing > 0)
        && (req.Sent? ==>
              && req.released == r.now + delay
              && req.slept == (if missing > 0 then missing + oversleep else 0)
              && req.at == req.released + req.slept)
    {
      var wait := Wait(lastRequest, minInterval, r.since);
      lastRequest := At(r.now + Max(wait, 0));
      var slept := if wait > 0 then wait + oversleep else 0;
      req := if wait > 0 && cancelled then Unsent else Sent(r.now + delay, slept, r.now + delay + slept);
      SleepsOnToo(minInterval, reservations, requests, r, req);
      reservations, requests := reservations + [r], requests + [req];
    }

    /** Up to three attempts, each with a slot of its own that its request keeps to, until one
      * is answered or the caller's context ends. */
    method ChatWithRetry(turns: nat -> Turn) returns (answer: Answer, mine: seq<Request>)
      requires Valid()
      modifies this
      ensures Valid() && requests == old(requests) + mine && |mine| <= 3
      ensures old(reservations) <= reservations
      ensures answer.GaveUp? ==> |mine| == 3 && InVain(turns, mine)
      ensures answer.Replied? ==>
        mine != [] && InVain(turns, mine[..|mine| - 1]) && mine[|mine| - 1].Sent? && turns(|mine| - 1).answers
      ensures answer.Cancelled? ==>
        if mine != [] && mine[|mine| - 1].Unsent? then
          InVain(turns, mine[..|mine| - 1]) && turns(|mine| - 1).cancel == InWait
        else 1 <= |mine| < 3 && InVain(turns, mine) && turns(|mine|).cancel == InBackoff
    {
      mine := [];
      for attempt := 0 to MAX_ATTEMPTS
        invariant Valid() && requests == old(requests) + mine && |mine| == attempt
        invariant old(reservations) <= reservations && InVain(turns, mine)
      {
        var turn := turns(attempt);
        if attempt > 0 && turn.cancel == InBackoff { return Cancelled, mine; }
        var req := Reserve(turn.reservation, turn.delay, turn.oversleep, turn.cancel == InWait);
        OneMore(turns, old(requests), mine, req);
        mine := mine + [req];
        if req.Unsent? { return Cancelled, mine; }
        if turn.answers { return Replied, mine; }
      }
      return GaveUp, mine;
    }
  }

  /** Every attempt so far was made and failed. */
  predicate InVain(turns: nat -> Turn, mine: seq<Request>) {
    forall i | 0 <= i < |mine| ::
      mine[i].Sent? && !turns(i).answers && (i > 0 ==> turns(i).cancel != InBackoff)
  }

  lemma OneMore(turns: nat -> Turn, before: seq<Request>, mine: seq<Request>, req: Request)
    requires InVain(turns, mine)
    ensures before + (mine + [req]) == (before + mine) + [req] && (mine + [req])[..|mine|] == mine
    ensures req.Sent? && !turns(|mine|).answers && (mine != [] ==> turns(|mine|).cancel != InBackoff) ==>
      InVain(turns, mine + [req])
  {
  }

  lemma SleepsOnToo(min: int, rs: seq<Reservation>, reqs: seq<Request>, r: Reservation, req: Request)
    requires AllSleep(min, rs, reqs)
    requires SentAfterSleep(if rs == [] then Never else At(Slots(min, rs)[|rs| - 1]), min, r, req)
    ensures AllSleep(min, rs + [r], reqs + [req])
    ensures Slots(min, rs + [r])[|rs|] == Slot(if rs == [] then Never else At(Slots(min, rs)[|rs| - 1]), min, r)
  {
    assert (rs + [r])[..|rs + [r]| - 1] == rs;
    forall i | 0 <= i < |rs| + 1
      ensures SentAfterSleep(LastBefore(min, rs + [r], i), min, (rs + [r])[i], (reqs + [req])[i])
    {
      if i > 0 { SlotsGrow(min, rs, r, i - 1); }
    }
  }

  lemma SlotsGrow(min: int, rs: seq<Reservation>, r: Reservation, i: nat)
    requires i < |rs|
    ensures Slots(min, rs + [r])[i] == Slots(min, rs)[i]
  {
    assert (rs + [r])[..|rs + [r]| - 1] == rs;
  }
}
