/** Root-cause analysis without a model to ask: counters over the evidence, a ladder of
  * rules over the counters, and what the agent emits.
  */
module Rca {
  import opened Domain
  import opened Observations

  datatype Cause =
    | SlowDownstream | PoolExhausted | QueryPattern | Leaking | NotEnoughEvidence
    | Triggered(service: string)    // analyze command without a model
    | Said(text: string)            // the model's words

  datatype Finding = Finding(cause: Cause, pattern: Pattern, confidence: real)

  /** How a trace's detail decodes to its duration in milliseconds, if it does. */
  type Durations = string -> Option<real>

  // ---------- what the loop counts ----------

  predicate IsError(o: Observation) { o.severity.Error? || o.severity.Fatal? }

  predicate IsWarning(o: Observation) { o.severity.Warn? }

  predicate IsSlow(o: Observation, ms: Durations) {
    o.kind.TraceEvidence? && ms(o.detail).Some? && ms(o.detail).value > 5000.0
  }

  function Count(s: seq<Observation>, p: Observation -> bool): (n: nat)
    ensures n <= |s|
  {
    if s == [] then 0 else Count(s[..|s| - 1], p) + if p(s[|s| - 1]) then 1 else 0
  }

  /** The ladder: the first rule that fires. */
  function Conclude(errors: nat, warnings: nat, slow: nat): Finding {
    if errors > 5 && slow > 0 then Finding(SlowDownstream, TimeoutCascade, 0.8)
    else if errors > 10 then Finding(PoolExhausted, PoolExhaustion, 0.75)
    else if slow > 3 then Finding(QueryPattern, NPlusOneQuery, 0.7)
    else if warnings > 20 then Finding(Leaking, ResourceLeak, 0.65)
    else Finding(NotEnoughEvidence, OtherPattern("unknown"), 0.3)
  }

  /** The heuristic as a function of the evidence. */
  function Heuristic(s: seq<Observation>, ms: Durations): Finding {
    Conclude(Count(s, IsError), Count(s, IsWarning), Count(s, o => IsSlow(o, ms)))
  }

  // ---------- order and growth ----------

  function Without(t: seq<Observation>, i: nat): seq<Observation>
    requires i < |t|
  {
    t[..i] + t[i + 1..]
  }

  lemma {:induction false} CountWithout(t: seq<Observation>, i: nat, p: Observation -> bool)
    requires i < |t|
    ensures Count(t, p) == Count(Without(t, i), p) + if p(t[i]) then 1 else 0
  {
    var last := |t| - 1;
    if i == last {
      assert Without(t, i) == t[..last];
    } else {
      CountWithout(t[..last], i, p);
      assert Without(t, i)[..last - 1] == Without(t[..last], i);
    }
  }

  lemma MultisetWithout(t: seq<Observation>, i: nat)
    requires i < |t|
    ensures multiset(Without(t, i)) == multiset(t) - multiset{t[i]}
  {
    assert t == t[..i] + [t[i]] + t[i + 1..];
  }

  /** More evidence, in whatever order, never counts less. */
  lemma {:induction false} CountGrows(s: seq<Observation>, t: seq<Observation>, p: Observation -> bool)
    requires multiset(s) <= multiset(t)
    ensures Count(s, p) <= Count(t, p)
  {
    if s != [] {
      var last := |s| - 1;
      assert s[last] in multiset(t);
      var i :| 0 <= i < |t| && t[i] == s[last];
      CountWithout(s, last, p);
      CountWithout(t, i, p);
      MultisetWithout(s, last);
      MultisetWithout(t, i);
      CountGrows(Without(s, last), Without(t, i), p);
    }
  }

  /** Adding observations anywhere, and reordering the rest, never lowers the confidence. */
  lemma ConfidenceGrows(s: seq<Observation>, t: seq<Observation>, ms: Durations)
    requires multiset(s) <= multiset(t)
    ensures Heuristic(s, ms).confidence <= Heuristic(t, ms).confidence
  {
    CountGrows(s, t, IsError);
    CountGrows(s, t, IsWarning);
    CountGrows(s, t, o => IsSlow(o, ms));
  }

  /** Cause, pattern and confidence do not depend on the order of the evidence. */
  lemma OrderDoesNotMatter(s: seq<Observation>, t: seq<Observation>, ms: Durations)
    requires multiset(s) == multiset(t)
    ensures Heuristic(s, ms) == Heuristic(t, ms)
  {
    CountGrows(s, t, IsError);
    CountGrows(t, s, IsError);
    CountGrows(s, t, IsWarning);
    CountGrows(t, s, IsWarning);
    CountGrows(s, t, o => IsSlow(o, ms));
    CountGrows(t, s, o => IsSlow(o, ms));
  }

  /** Putting an observation in anywhere is a special case of growth. */
  lemma InsertedAnywhere(pre: seq<Observation>, more: seq<Observation>, post: seq<Observation>, ms: Durations)
    ensures Heuristic(pre + post, ms).confidence <= Heuristic(pre + more + post, ms).confidence
  {
    ConfidenceGrows(pre + post, pre + more + post, ms);
  }

  // ---------- the loops ----------

  /** Where the evidence shows an ERROR or FATAL, a WARN, a span of more than five seconds. */
  ghost function ErrorsAt(s: seq<Observation>): set<nat> {
    set i: nat | i < |s| && (s[i].severity == Error || s[i].severity == Fatal)
  }

  ghost function WarningsAt(s: seq<Observation>): set<nat> { set i: nat | i < |s| && s[i].severity == Warn }

  ghost function SlowSpansAt(s: seq<Observation>, ms: Durations): set<nat> {
    set i: nat | i < |s| && s[i].kind == TraceEvidence && ms(s[i].detail).Some? && ms(s[i].detail).value > 5000.0
  }

  /** Counting is the size of the set of places. */
  lemma {:induction false} CountIsSize(s: seq<Observation>, p: Observation -> bool, places: set<nat>)
    requires forall i: nat :: i in places <==> i < |s| && p(s[i])
    ensures Count(s, p) == |places|
  {
    if s == [] {
      assert forall i :: i !in places;
      assert places == {};
    } else {
      var last: nat := |s| - 1;
      forall i: nat
        ensures i in places - {last} <==> i < last && p(s[..last][i])
      {
      }
      CountIsSize(s[..last], p, places - {last});
    }
  }

  lemma HeuristicCounts(s: seq<Observation>, ms: Durations)
    ensures Heuristic(s, ms) == Conclude(|ErrorsAt(s)|, |WarningsAt(s)|, |SlowSpansAt(s, ms)|)
  {
    CountIsSize(s, IsError, ErrorsAt(s));
    CountIsSize(s, IsWarning, WarningsAt(s));
    CountIsSize(s, o => IsSlow(o, ms), SlowSpansAt(s, ms));
  }

  /** What the evidence says: each answer comes exactly when its rule fires and no rule above
    * it does. */
  ghost predicate Answers(f: Finding, errors: nat, warnings: nat, slow: nat) {
    && (f == Finding(SlowDownstream, TimeoutCascade, 0.8) <==> errors > 5 && slow > 0)
    && (f == Finding(PoolExhausted, PoolExhaustion, 0.75) <==> errors > 10 && slow == 0)
    && (f == Finding(QueryPattern, NPlusOneQuery, 0.7) <==> errors <= 5 && slow > 3)
    && (f == Finding(Leaking, ResourceLeak, 0.65) <==>
          warnings > 20 && errors <= 10 && slow <= 3 && (errors <= 5 || slow == 0))
    && (f == Finding(NotEnoughEvidence, OtherPattern("unknown"), 0.3) <==>
          warnings <= 20 && errors <= 10 && slow <= 3 && (errors <= 5 || slow == 0))
  }

  /** The counting loop and the ladder. */
  method HeuristicRCA(inputs: seq<Observation>, ms: Durations) returns (f: Finding)
    ensures f == Heuristic(inputs, ms)
    ensures Answers(f, |ErrorsAt(inputs)|, |WarningsAt(inputs)|, |SlowSpansAt(inputs, ms)|)
  {
    HeuristicCounts(inputs, ms);
    var errCount, warnCount, slowSpans := 0, 0, 0;
    for i := 0 to |inputs|
      invariant errCount == Count(inputs[..i], IsError)
      invariant warnCount == Count(inputs[..i], IsWarning)
      invariant slowSpans == Count(inputs[..i], o => IsSlow(o, ms))
    {
      var o := inputs[i];
      assert inputs[..i + 1][..i] == inputs[..i];
      if o.severity.Error? || o.severity.Fatal? {
        errCount := errCount + 1;
      } else if o.severity.Warn? {
        warnCount := warnCount + 1;
      }
      if o.kind.TraceEvidence? {
        var d := ms(o.detail);
        if d.Some? && d.value > 5000.0 { slowSpans := slowSpans + 1; }
      }
    }
    assert inputs[..|inputs|] == inputs;
    if errCount > 5 && slowSpans > 0 { return Finding(SlowDownstream, TimeoutCascade, 0.8); }
    if errCount > 10 { return Finding(PoolExhausted, PoolExhaustion, 0.75); }
    if slowSpans > 3 { return Finding(QueryPattern, NPlusOneQuery, 0.7); }
    if warnCount > 20 { return Finding(Leaking, ResourceLeak, 0.65); }
    return Finding(NotEnoughEvidence, OtherPattern("unknown"), 0.3);
  }

  function Level(s: Severity): nat {
    match s
    case UnspecifiedSeverity => 0
    case Debug => 1
    case Info => 2
    case Warn => 3
    case Error => 4
    case Fatal => 5
  }

  /** The severity of the result: the highest one reported, and INFO at least. */
  predicate IsPeak(inputs: seq<Observation>, peak: Severity) {
    && Level(peak) >= Level(Info)
    && (forall i | 0 <= i < |inputs| :: Level(inputs[i].severity) <= Level(peak))
    && (peak == Info || exists i | 0 <= i < |inputs| :: inputs[i].severity == peak)
  }

  method PeakSeverity(inputs: seq<Observation>) returns (peak: Severity)
    ensures IsPeak(inputs, peak)
    ensures peak == Fatal <==> exists i | 0 <= i < |inputs| :: inputs[i].severity == Fatal
    ensures peak != Fatal ==> (peak == Error <==> exists i | 0 <= i < |inputs| :: inputs[i].severity == Error)
    ensures peak != Fatal && peak != Error ==>
      (peak == Warn <==> exists i | 0 <= i < |inputs| :: inputs[i].severity == Warn)
    ensures peak in {Info, Warn, Error, Fatal}
  {
    peak := Info;
    for i := 0 to |inputs|
      invariant IsPeak(inputs[..i], peak)
    {
      assert inputs[..i + 1] == inputs[..i] + [inputs[i]];
      if Level(inputs[i].severity) > Level(peak) {
        peak := inputs[i].severity;
        assert inputs[..i + 1][i].severity == peak;
      } else if peak != Info {
        var j :| 0 <= j < i && inputs[..i][j].severity == peak;
        assert inputs[..i + 1][j].severity == peak;
      }
    }
    assert inputs[..|inputs|] == inputs;
  }

  /** The peak too is a matter of which observations there are, not of their order. */
  lemma PeakIsUnique(s: seq<Observation>, t: seq<Observation>, a: Severity, b: Severity)
    requires IsPeak(s, a) && IsPeak(t, b) && multiset(s) == multiset(t)
    ensures a == b
  {
    PeakBelow(s, t, a, b);
    PeakBelow(t, s, b, a);
  }

  lemma PeakBelow(s: seq<Observation>, t: seq<Observation>, a: Severity, b: Severity)
    requires IsPeak(s, a) && IsPeak(t, b) && multiset(s) <= multiset(t)
    ensures Level(a) <= Level(b)
  {
    if a != Info {
      var i :| 0 <= i < |s| && s[i].severity == a;
      assert s[i] in multiset(t);
      var j :| 0 <= j < |t| && t[j] == s[i];
      assert Level(t[j].severity) <= Level(b);
    }
  }

  // ---------- the agent ----------

  datatype ModelReply = NoModel | ModelFails | ModelSays(text: string, pattern: Pattern, confidence: real)

  function Clamp(x: real): real {
    var low := if x > 0.0 then x else 0.0;
    if low < 1.0 then low else 1.0
  }

  /** The model's answer counts only when it fills in cause and pattern. */
  predicate Usable(reply: ModelReply) {
    reply.ModelSays? && reply.text != "" && reply.pattern != OtherPattern("")
  }

  method RunRCA(service: string, inputs: seq<Observation>, reply: ModelReply, ms: Durations) returns (f: Finding)
    ensures Usable(reply) <==> reply.ModelSays? && reply.text != "" && reply.pattern != OtherPattern("")
    ensures Usable(reply) ==>
      && f.cause == Said(reply.text) && f.pattern == reply.pattern
      && f.confidence ==
           if reply.confidence < 0.0 then 0.0 else if reply.confidence > 1.0 then 1.0 else reply.confidence
    ensures !Usable(reply) && inputs != [] ==> f == Heuristic(inputs, ms)
    ensures !Usable(reply) && inputs == [] ==> f == Finding(Triggered(service), OtherPattern("unknown"), 0.3)
    ensures 0.0 <= f.confidence <= 1.0
  {
    if reply.ModelSays? {
      if reply.text != "" && reply.pattern != OtherPattern("") {
        return Finding(Said(reply.text), reply.pattern, Clamp(reply.confidence));
      }
    }
    if |inputs| > 0 {
      f := HeuristicRCA(inputs, ms);
    } else {
      f := Finding(Triggered(service), OtherPattern("unknown"), 0.3);
    }
  }

  /** An ALERT that decodes to an analyze command names the service to analyze. */
  function AnalyzeTarget(inputs: seq<Observation>, command: string -> Option<string>): Option<string> {
    if |inputs| == 1 && inputs[0].kind.Alert? then command(inputs[0].detail) else None
  }

  /** The agent answers any evidence with exactly one conforming RCA_RESULT. */
  method Handle(
      session: string, inputs: seq<Observation>, command: string -> Option<string>, reply: ModelReply,
      ms: Durations, uuid: string) returns (out: Option<Observation>, finding: Option<Finding>)
    requires uuid != ""
    ensures out.Some? <==> inputs != [] && session != ""
    ensures out.Some? ==>
      && Conforms(out.value) && out.value.kind == RcaResult
      && out.value.sessionId == session && out.value.source == "agent-rca"
    ensures out.Some? ==> finding.Some? && out.value.confidence == finding.value.confidence
    ensures AnalyzeTarget(inputs, command).Some? <==>
      |inputs| == 1 && inputs[0].kind == Alert && command(inputs[0].detail).Some?
    ensures out.Some? && AnalyzeTarget(inputs, command).None? ==>
      IsPeak(inputs, out.value.severity) && out.value.service == inputs[0].service
    ensures out.Some? && AnalyzeTarget(inputs, command).None? && !Usable(reply) ==>
      finding.value == Heuristic(inputs, ms)
    ensures out.Some? && AnalyzeTarget(inputs, command).Some? ==>
      && command(inputs[0].detail) == Some(out.value.service) && out.value.severity == Info
      && (!Usable(reply) ==> finding.value == Finding(Triggered(out.value.service), OtherPattern("unknown"), 0.3))
    ensures out.Some? && Usable(reply) ==>
      finding.value.cause == Said(reply.text) && finding.value.pattern == reply.pattern
  {
    if |inputs| == 0 { return None, None; }
    var f: Finding;
    var severity, service := Info, inputs[0].service;
    var target := AnalyzeTarget(inputs, command);
    if target.Some? {
      service := target.value;
      f := RunRCA(service, [], reply, ms);
    } else {
      f := RunRCA(service, inputs, reply, ms);
      severity := PeakSeverity(inputs);
    }
    out := New(Observation("", session, "agent-rca", RcaResult, f.confidence, severity, 0, service, ""), uuid);
    finding := Some(f);
  }
}
