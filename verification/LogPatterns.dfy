/** Grouping raw logs under a string key and counting errors per group, with the groups
  * visited in whatever order the map yields them.
  */
module LogPatterns {
  import opened Domain

  datatype Log = Log(service: string, severity: Severity, trace: Option<string>)

  datatype LogPattern = LogPattern(count: nat, severity: Severity, service: string, trace: Option<string>)

  datatype Pair = Pair(service: string, severity: Severity)

  predicate IsError(l: Log) { l.severity.Error? || l.severity.Fatal? }

  function PairOf(l: Log): Pair { Pair(l.service, l.severity) }

  // ---------- the key ----------

  /** The enum value's name. */
  function Name(s: Severity): (r: string)
    ensures ':' !in r
    ensures |r| > 9 && r[9] == Initial(s)
  {
    match s
    case UnspecifiedSeverity => "SEVERITY_UNSPECIFIED"
    case Debug => "SEVERITY_DEBUG"
    case Info => "SEVERITY_INFO"
    case Warn => "SEVERITY_WARN"
    case Error => "SEVERITY_ERROR"
    case Fatal => "SEVERITY_FATAL"
  }

  function Initial(s: Severity): char {
    match s
    case UnspecifiedSeverity => 'U'
    case Debug => 'D'
    case Info => 'I'
    case Warn => 'W'
    case Error => 'E'
    case Fatal => 'F'
  }

  function Key(p: Pair): string { p.service + ":" + Name(p.severity) }

  /** Two concatenations around a colon are equal only if their parts are, as long as the
    * right-hand parts are free of colons; the left-hand ones may contain any. */
  lemma SplitAtLastColon(a: string, n: string, b: string, m: string)
    requires a + ":" + n == b + ":" + m && ':' !in n && ':' !in m
    ensures a == b && n == m
  {
    var s, t := a + ":" + n, b + ":" + m;
    assert s[|a|] == ':' && t[|b|] == ':';
    forall i | |a| < i < |s|
      ensures s[i] != ':'
    {
      assert s[i] == n[i - |a| - 1];
    }
    forall i | |b| < i < |t|
      ensures t[i] != ':'
    {
      assert t[i] == m[i - |b| - 1];
    }
    assert |a| == |b|;
    assert a == s[..|a|] && b == t[..|b|] && n == s[|a| + 1..] && m == t[|b| + 1..];
  }

  /** The key tells service and severity apart, whatever the service is called. */
  lemma KeyIsInjective(p: Pair, q: Pair)
    requires Key(p) == Key(q)
    ensures p == q
  {
    SplitAtLastColon(p.service, Name(p.severity), q.service, Name(q.severity));
    assert Initial(p.severity) == Initial(q.severity);
  }

  // ---------- groups ----------

  /** The logs of one pair, in order. */
  function Group(logs: seq<Log>, p: Pair): seq<Log> {
    if logs == [] then []
    else Group(logs[..|logs| - 1], p) + if PairOf(logs[|logs| - 1]) == p then [logs[|logs| - 1]] else []
  }

  function Errors(logs: seq<Log>): nat {
    if logs == [] then 0 else Errors(logs[..|logs| - 1]) + if IsError(logs[|logs| - 1]) then 1 else 0
  }

  /** The errors among the logs whose pair is in ps. */
  function ErrorsIn(logs: seq<Log>, ps: set<Pair>): nat {
    if logs == [] then 0
    else
      var l := logs[|logs| - 1];
      ErrorsIn(logs[..|logs| - 1], ps) + if IsError(l) && PairOf(l) in ps then 1 else 0
  }

  function FirstTrace(logs: seq<Log>): Option<string> {
    if logs == [] then None else if logs[0].trace.Some? then logs[0].trace else FirstTrace(logs[1..])
  }

  /** The pattern a pair gives rise to. */
  function PatternOf(logs: seq<Log>, p: Pair): LogPattern {
    var group := Group(logs, p);
    LogPattern(|group|, if |group| > 5 then Fatal else Error, p.service, FirstTrace(group))
  }

  predicate IsErrorPair(p: Pair) { p.severity.Error? || p.severity.Fatal? }

  /** The pairs that occur. */
  function Pairs(logs: seq<Log>): set<Pair> {
    if logs == [] then {} else Pairs(logs[..|logs| - 1]) + {PairOf(logs[|logs| - 1])}
  }

  lemma {:induction false} PairsOccur(logs: seq<Log>, p: Pair)
    ensures p in Pairs(logs) <==> exists i | 0 <= i < |logs| :: PairOf(logs[i]) == p
  {
    if logs != [] {
      var last := |logs| - 1;
      PairsOccur(logs[..last], p);
      if p in Pairs(logs[..last]) {
        var i :| 0 <= i < last && PairOf(logs[..last][i]) == p;
        assert PairOf(logs[i]) == p;
      } else if i :| 0 <= i < last && PairOf(logs[i]) == p {
        assert PairOf(logs[..last][i]) == p;
      }
    }
  }

  lemma {:induction false} GroupIsOfPair(logs: seq<Log>, p: Pair)
    ensures forall l | l in Group(logs, p) :: PairOf(l) == p
  {
    if logs != [] { GroupIsOfPair(logs[..|logs| - 1], p); }
  }

  lemma {:induction false} GroupsAreOfPairs(logs: seq<Log>, p: Pair)
    ensures Group(logs, p) != [] <==> p in Pairs(logs)
  {
    if logs != [] { GroupsAreOfPairs(logs[..|logs| - 1], p); }
  }

  lemma {:induction false} ErrorsOfUniform(group: seq<Log>, error: bool)
    requires forall l | l in group :: IsError(l) == error
    ensures Errors(group) == if error then |group| else 0
  {
    if group != [] {
      assert group[|group| - 1] in group;
      ErrorsOfUniform(group[..|group| - 1], error);
    }
  }

  lemma {:induction false} ErrorsSplit(logs: seq<Log>, ps: set<Pair>, p: Pair)
    requires p !in ps && IsErrorPair(p)
    ensures ErrorsIn(logs, ps + {p}) == ErrorsIn(logs, ps) + |Group(logs, p)|
  {
    if logs != [] { ErrorsSplit(logs[..|logs| - 1], ps, p); }
  }

  lemma {:induction false} ErrorsOfAll(logs: seq<Log>, ps: set<Pair>)
    requires forall l | l in logs && IsError(l) :: PairOf(l) in ps
    ensures ErrorsIn(logs, ps) == Errors(logs)
  {
    if logs != [] {
      assert logs[|logs| - 1] in logs;
      ErrorsOfAll(logs[..|logs| - 1], ps);
    }
  }

  function Total(patterns: seq<LogPattern>): nat {
    if patterns == [] then 0 else Total(patterns[..|patterns| - 1]) + patterns[|patterns| - 1].count
  }

  // ---------- what a pattern says ----------

  /** Where the logs of a service at a severity stand. */
  ghost function Places(logs: seq<Log>, p: Pair): set<nat> {
    set i: nat | i < |logs| && logs[i].service == p.service && logs[i].severity == p.severity
  }

  /** Of these, i is the first with a trace. */
  ghost predicate TracedFirst(logs: seq<Log>, p: Pair, i: nat) {
    i in Places(logs, p) && logs[i].trace.Some? && forall j | j in Places(logs, p) && j < i :: logs[j].trace.None?
  }

  lemma {:induction false} TraceAppended(group: seq<Log>, l: Log)
    ensures FirstTrace(group + [l]) == if FirstTrace(group).Some? then FirstTrace(group) else l.trace
  {
    if group != [] {
      assert (group + [l])[1..] == group[1..] + [l];
      TraceAppended(group[1..], l);
    }
  }

  lemma PlacesGrow(logs: seq<Log>, p: Pair)
    requires logs != []
    ensures var n: nat := |logs| - 1;
      Places(logs, p) == Places(logs[..n], p) + if PairOf(logs[n]) == p then {n} else {}
  {
  }

  lemma {:induction false} GroupPlaces(logs: seq<Log>, p: Pair)
    ensures |Group(logs, p)| == |Places(logs, p)|
  {
    if logs != [] {
      GroupPlaces(logs[..|logs| - 1], p);
      PlacesGrow(logs, p);
    }
  }

  /** The first trace of the group, if there is one, is the one of that log. */
  ghost predicate HasFirstTrace(logs: seq<Log>, p: Pair, trace: Option<string>) {
    if exists i | i in Places(logs, p) :: logs[i].trace.Some? then
      exists i: nat :: TracedFirst(logs, p, i) && trace == logs[i].trace
    else trace.None?
  }

  lemma TraceGoesOn(logs: seq<Log>, l: Log, p: Pair, trace: Option<string>)
    requires HasFirstTrace(logs, p, trace)
    ensures HasFirstTrace(logs + [l], p, if trace.Some? || PairOf(l) != p then trace else l.trace)
  {
    var all := logs + [l];
    PlacesGrow(all, p);
    assert all[..|all| - 1] == logs;
    assert forall i | i in Places(logs, p) :: all[i] == logs[i];
    if i: nat :| TracedFirst(logs, p, i) && trace == logs[i].trace {
      assert TracedFirst(all, p, i);
    } else if PairOf(l) == p && l.trace.Some? {
      assert TracedFirst(all, p, |logs|);
    }
  }

  lemma {:induction false} GroupTrace(logs: seq<Log>, p: Pair)
    ensures HasFirstTrace(logs, p, FirstTrace(Group(logs, p)))
  {
    if logs != [] {
      var n := |logs| - 1;
      GroupTrace(logs[..n], p);
      TraceGoesOn(logs[..n], logs[n], p, FirstTrace(Group(logs[..n], p)));
      assert logs == logs[..n] + [logs[n]];
      TraceAppended(Group(logs[..n], p), logs[n]);
      assert Group(logs[..n], p) + [] == Group(logs[..n], p);
    }
  }

  /** The pattern of a service at a severity: how many logs, FATAL above five and else ERROR,
    * and the first trace among them. */
  ghost predicate Describes(pattern: LogPattern, logs: seq<Log>, p: Pair) {
    && pattern.service == p.service && pattern.count == |Places(logs, p)|
    && pattern.severity == (if |Places(logs, p)| > 5 then Fatal else Error)
    && HasFirstTrace(logs, p, pattern.trace)
  }

  lemma PatternDescribes(logs: seq<Log>, p: Pair)
    ensures Describes(PatternOf(logs, p), logs, p)
    ensures p in Pairs(logs) && IsErrorPair(p) <==>
      Places(logs, p) != {} && (p.severity == Error || p.severity == Fatal)
  {
    GroupPlaces(logs, p);
    GroupTrace(logs, p);
    PairsOccur(logs, p);
    if i: nat :| i < |logs| && PairOf(logs[i]) == p { assert i in Places(logs, p); }
  }

  /** One pattern for each service and severity with ERROR or FATAL logs. */
  ghost predicate Described(logs: seq<Log>, patterns: seq<LogPattern>, pairs: seq<Pair>) {
    && |patterns| == |pairs|
    && (forall p :: p in pairs <==> Places(logs, p) != {} && (p.severity == Error || p.severity == Fatal))
    && (forall i | 0 <= i < |patterns| :: Describes(patterns[i], logs, pairs[i]))
  }

  lemma AllDescribed(logs: seq<Log>, patterns: seq<LogPattern>, pairs: seq<Pair>)
    requires |patterns| == |pairs| && forall p :: p in pairs <==> p in Pairs(logs) && IsErrorPair(p)
    requires forall i | 0 <= i < |patterns| :: patterns[i] == PatternOf(logs, pairs[i])
    ensures Described(logs, patterns, pairs)
  {
    forall p
      ensures p in pairs <==> Places(logs, p) != {} && (p.severity == Error || p.severity == Fatal)
      ensures Describes(PatternOf(logs, p), logs, p)
    {
      PatternDescribes(logs, p);
    }
  }

  // ---------- the loops ----------

  ghost predicate Injective(key: Pair -> string) { forall p, q :: key(p) == key(q) ==> p == q }

  lemma KeysTellPairsApart()
    ensures Injective(Key)
  {
    forall p, q | Key(p) == Key(q)
      ensures p == q
    {
      KeyIsInjective(p, q);
    }
  }

  /** The map holds the group of every pair that occurs, and nothing else. */
  ghost predicate Grouped(groups: map<string, seq<Log>>, logs: seq<Log>, key: Pair -> string) {
    && (forall p | p in Pairs(logs) :: key(p) in groups && groups[key(p)] == Group(logs, p))
    && (forall k | k in groups :: exists p :: p in Pairs(logs) && k == key(p))
  }

  function Appended(groups: map<string, seq<Log>>, k: string, l: Log): map<string, seq<Log>> {
    groups[k := (if k in groups then groups[k] else []) + [l]]
  }

  lemma GroupAppends(logs: seq<Log>, l: Log, p: Pair)
    ensures Group(logs + [l], p) == if PairOf(l) == p then Group(logs, p) + [l] else Group(logs, p)
    ensures Pairs(logs + [l]) == Pairs(logs) + {PairOf(l)}
  {
    assert (logs + [l])[..|logs + [l]| - 1] == logs;
  }

  lemma GroupingGoesOn(groups: map<string, seq<Log>>, logs: seq<Log>, l: Log, key: Pair -> string)
    requires Grouped(groups, logs, key) && Injective(key)
    ensures Grouped(Appended(groups, key(PairOf(l)), l), logs + [l], key)
  {
    var all, mine := logs + [l], PairOf(l);
    var groups' := Appended(groups, key(mine), l);
    GroupAppends(logs, l, mine);
    GroupsAreOfPairs(logs, mine);
    assert mine in Pairs(logs) <==> key(mine) in groups;
    forall p | p in Pairs(all)
      ensures key(p) in groups' && groups'[key(p)] == Group(all, p)
    {
      GroupAppends(logs, l, p);
    }
    forall k | k in groups'
      ensures exists p :: p in Pairs(all) && k == key(p)
    {
      if k == key(mine) {
        assert mine in Pairs(all);
      } else {
        var p :| p in Pairs(logs) && k == key(p);
        assert p in Pairs(all);
      }
    }
  }

  lemma GroupingByKey(groups: map<string, seq<Log>>, logs: seq<Log>, i: nat)
    requires i < |logs| && Grouped(groups, logs[..i], Key)
    ensures Grouped(Appended(groups, Key(PairOf(logs[i])), logs[i]), logs[..i + 1], Key)
  {
    KeysTellPairsApart();
    assert logs[..i + 1] == logs[..i] + [logs[i]];
    GroupingGoesOn(groups, logs[..i], logs[i], Key);
  }

  lemma GroupingEnds(groups: map<string, seq<Log>>, logs: seq<Log>)
    ensures Grouped(map[], logs[..0], Key)
    ensures Grouped(groups, logs[..|logs|], Key) ==> Grouped(groups, logs, Key)
  {
    assert logs[..|logs|] == logs;
  }

  /** The first loop. */
  method GroupLogs(logs: seq<Log>) returns (groups: map<string, seq<Log>>)
    ensures Grouped(groups, logs, Key)
  {
    groups := map[];
    GroupingEnds(groups, logs);
    for i := 0 to |logs|
      invariant Grouped(groups, logs[..i], Key)
    {
      var key := logs[i].service + ":" + Name(logs[i].severity);
      GroupingByKey(groups, logs, i);
      groups := groups[key := (if key in groups then groups[key] else []) + [logs[i]]];
    }
    GroupingEnds(groups, logs);
  }

  /** The patterns of all error pairs whose key is no longer to do. */
  ghost predicate Reported(
      logs: seq<Log>, key: Pair -> string, todo: set<string>, patterns: seq<LogPattern>, pairs: seq<Pair>)
  {
    && |patterns| == |pairs| && Distinct(pairs)
    && (forall p :: p in pairs <==> p in Pairs(logs) && IsErrorPair(p) && key(p) !in todo)
    && (forall i | 0 <= i < |patterns| :: patterns[i] == PatternOf(logs, pairs[i]))
    && Total(patterns) == ErrorsIn(logs, set p | p in pairs)
  }

  lemma {:induction false} ErrorsInNone(logs: seq<Log>)
    ensures ErrorsIn(logs, {}) == 0
  {
    if logs != [] { ErrorsInNone(logs[..|logs| - 1]); }
  }

  lemma NothingReported(logs: seq<Log>, key: Pair -> string, groups: map<string, seq<Log>>)
    requires Grouped(groups, logs, key)
    ensures Reported(logs, key, groups.Keys, [], [])
  {
    ErrorsInNone(logs);
    assert (set p: Pair | p in []) == {};
  }

  lemma ReportSkips(
      logs: seq<Log>, key: Pair -> string, todo: set<string>, patterns: seq<LogPattern>, pairs: seq<Pair>, p: Pair)
    requires Reported(logs, key, todo, patterns, pairs) && Injective(key) && !IsErrorPair(p)
    ensures Reported(logs, key, todo - {key(p)}, patterns, pairs)
  {
  }

  lemma ReportGoesOn(
      logs: seq<Log>, key: Pair -> string, todo: set<string>, patterns: seq<LogPattern>, pairs: seq<Pair>, p: Pair)
    requires Reported(logs, key, todo, patterns, pairs) && Injective(key)
    requires key(p) in todo && p in Pairs(logs) && IsErrorPair(p)
    ensures Reported(logs, key, todo - {key(p)}, patterns + [PatternOf(logs, p)], pairs + [p])
  {
    var patterns', pairs' := patterns + [PatternOf(logs, p)], pairs + [p];
    assert patterns'[..|patterns|] == patterns;
    assert (set q | q in pairs') == (set q | q in pairs) + {p};
    ErrorsSplit(logs, (set q | q in pairs), p);
    forall q
      ensures q in pairs' <==> q in Pairs(logs) && IsErrorPair(q) && key(q) !in todo - {key(p)}
    {
    }
  }

  lemma AllReported(logs: seq<Log>, key: Pair -> string, patterns: seq<LogPattern>, pairs: seq<Pair>)
    requires Reported(logs, key, {}, patterns, pairs)
    ensures Total(patterns) == Errors(logs)
  {
    forall l | l in logs && IsError(l)
      ensures PairOf(l) in pairs
    {
      PairsOccur(logs, PairOf(l));
      var i :| 0 <= i < |logs| && logs[i] == l;
      assert PairOf(logs[i]) == PairOf(l);
    }
    ErrorsOfAll(logs, set p | p in pairs);
  }

  /** One group: count, first trace, and whether it makes a pattern. */
  method Inspect(group: seq<Log>) returns (errCount: nat, trace: Option<string>)
    ensures errCount == Errors(group) && trace == FirstTrace(group)
  {
    errCount, trace := 0, None;
    var hasTraceID := false;
    for i := 0 to |group|
      invariant errCount == Errors(group[..i])
      invariant !hasTraceID ==> FirstTrace(group[i..]) == FirstTrace(group)
      invariant hasTraceID ==> FirstTrace(group).Some?
    {
      assert group[..i + 1][..i] == group[..i] && group[i..][1..] == group[i + 1..];
      if group[i].severity.Error? || group[i].severity.Fatal? { errCount := errCount + 1; }
      if !hasTraceID && group[i].trace.Some? { hasTraceID := true; }
    }
    assert group[..|group|] == group;
    if hasTraceID {
      var i := 0;
      while i < |group| && group[i].trace.None?
        invariant i <= |group| && FirstTrace(group[i..]) == FirstTrace(group)
      {
        assert group[i..][1..] == group[i + 1..];
        i := i + 1;
      }
      trace := group[i].trace;
    }
  }

  lemma PatternFits(logs: seq<Log>, p: Pair, group: seq<Log>)
    requires p in Pairs(logs) && group == Group(logs, p)
    ensures group != [] && group[0].service == p.service
    ensures Errors(group) != 0 <==> IsErrorPair(p)
    ensures IsErrorPair(p) ==>
      PatternOf(logs, p)
      == LogPattern(Errors(group), if Errors(group) > 5 then Fatal else Error, group[0].service, FirstTrace(group))
  {
    GroupIsOfPair(logs, p);
    GroupsAreOfPairs(logs, p);
    ErrorsOfUniform(group, IsErrorPair(p));
    assert group[0] in group;
  }

  /** Whatever the order of the groups: one pattern for each (service, severity) pair among
    * the ERROR and FATAL logs, each with all logs of its pair, FATAL when there are more
    * than five; and the counts add up to the ERROR and FATAL logs. */
  method DetectLogPatterns(logs: seq<Log>) returns (patterns: seq<LogPattern>, ghost pairs: seq<Pair>)
    ensures |patterns| == |pairs| && Distinct(pairs)
    ensures forall p :: p in pairs <==> p in Pairs(logs) && IsErrorPair(p)
    ensures forall i | 0 <= i < |patterns| :: patterns[i] == PatternOf(logs, pairs[i])
    ensures Total(patterns) == Errors(logs)
    ensures Described(logs, patterns, pairs)
  {
    var groups := GroupLogs(logs);
    ghost var key: Pair -> string := Key;
    KeysTellPairsApart();
    NothingReported(logs, key, groups);
    patterns, pairs := [], [];
    var todo := groups.Keys;
    while todo != {}
      invariant todo <= groups.Keys && Reported(logs, key, todo, patterns, pairs)
      decreases |todo|
    {
      var k :| k in todo;
      ghost var p :| p in Pairs(logs) && k == key(p);
      var group := groups[k];
      PatternFits(logs, p, group);
      var errCount, trace := Inspect(group);
      if errCount != 0 {
        var sev := if errCount > 5 then Fatal else Error;
        ReportGoesOn(logs, key, todo, patterns, pairs, p);
        patterns, pairs := patterns + [LogPattern(errCount, sev, group[0].service, trace)], pairs + [p];
      } else {
        ReportSkips(logs, key, todo, patterns, pairs, p);
      }
      todo := todo - {k};
    }
    AllReported(logs, key, patterns, pairs);
    AllDescribed(logs, patterns, pairs);
  }

  // ---------- the order of the map ----------

  function Patterns(logs: seq<Log>, pairs: seq<Pair>): seq<LogPattern> {
    seq(|pairs|, i requires 0 <= i < |pairs| => PatternOf(logs, pairs[i]))
  }

  lemma EmptyOrInhabited(pairs: seq<Pair>)
    ensures pairs == [] || exists p :: p in pairs
  {
    if pairs != [] { assert pairs[0] in pairs; }
  }

  lemma SameWithout(ps: seq<Pair>, qs: seq<Pair>, j: nat)
    requires Distinct(ps) && Distinct(qs) && (forall p :: p in ps <==> p in qs)
    requires ps != [] && j < |qs| && qs[j] == ps[|ps| - 1]
    ensures var rest := qs[..j] + qs[j + 1..];
      Distinct(rest) && forall q :: q in ps[..|ps| - 1] <==> q in rest
  {
    var n, p, rest := |ps| - 1, ps[|ps| - 1], qs[..j] + qs[j + 1..];
    forall q
      ensures q in ps[..n] <==> q in rest
    {
      assert q in ps[..n] <==> q in ps && q != p;
      assert q in rest <==> q in qs && q != p;
    }
  }

  lemma PatternsWithout(logs: seq<Log>, qs: seq<Pair>, j: nat)
    requires j < |qs|
    ensures multiset(Patterns(logs, qs)) ==
      multiset(Patterns(logs, qs[..j] + qs[j + 1..])) + multiset{PatternOf(logs, qs[j])}
  {
    var rest := qs[..j] + qs[j + 1..];
    assert Patterns(logs, rest) == Patterns(logs, qs[..j]) + Patterns(logs, qs[j + 1..]);
    assert Patterns(logs, qs) == Patterns(logs, qs[..j]) + [PatternOf(logs, qs[j])] + Patterns(logs, qs[j + 1..]);
  }

  /** Two visits of the same pairs in different orders yield the same patterns. */
  lemma {:induction false} OrderIsImmaterial(logs: seq<Log>, ps: seq<Pair>, qs: seq<Pair>)
    requires Distinct(ps) && Distinct(qs) && forall p :: p in ps <==> p in qs
    ensures multiset(Patterns(logs, ps)) == multiset(Patterns(logs, qs))
  {
    if ps == [] {
      EmptyOrInhabited(qs);
    } else {
      var n, p := |ps| - 1, ps[|ps| - 1];
      assert p in qs;
      var j :| 0 <= j < |qs| && qs[j] == p;
      var rest := qs[..j] + qs[j + 1..];
      SameWithout(ps, qs, j);
      OrderIsImmaterial(logs, ps[..n], rest);
      PatternsWithout(logs, qs, j);
      PatternsWithout(logs, ps, n);
      assert ps[..n] + ps[n + 1..] == ps[..n];
    }
  }
}
