/** The nodes of the message network: which group reads which topic and writes which, and
  * how a runner turns one message into publishes.
  */
module Network {
  import opened Domain

  datatype Topic =
    | CommandsLog | CommandsMetric | CommandsTrace
    | ObservationsLog | ObservationsMetric | ObservationsTrace
    | CommandsRca | ObservationsRca | ObservationsFix

  datatype Group = LogAgent | MetricAgent | TraceAgent | RcaAgent | FixAgent | Orchestrator

  /** Where a topic stands in the pipeline. */
  function Stage(t: Topic): (r: nat)
    ensures r <= 4
  {
    match t
    case CommandsLog => 0
    case CommandsMetric => 0
    case CommandsTrace => 0
    case ObservationsLog => 1
    case ObservationsMetric => 1
    case ObservationsTrace => 1
    case CommandsRca => 2
    case ObservationsRca => 3
    case ObservationsFix => 4
  }

  predicate Reads(g: Group, t: Topic) {
    match g
    case LogAgent => t.CommandsLog?
    case MetricAgent => t.CommandsMetric?
    case TraceAgent => t.CommandsTrace?
    case RcaAgent => t.CommandsRca?
    case FixAgent => t.ObservationsRca?
    case Orchestrator =>
      t.ObservationsLog? || t.ObservationsMetric? || t.ObservationsTrace? || t.ObservationsRca? || t.ObservationsFix?
  }

  function OutputTopic(g: Group): Topic
    requires !g.Orchestrator?
  {
    match g
    case LogAgent => ObservationsLog
    case MetricAgent => ObservationsMetric
    case TraceAgent => ObservationsTrace
    case RcaAgent => ObservationsRca
    case FixAgent => ObservationsFix
  }

  /** What the agents call themselves, and what the topics are called on the broker. */
  function AgentName(g: Group): string
    requires !g.Orchestrator?
  {
    match g
    case LogAgent => "agent-log"
    case MetricAgent => "agent-metric"
    case TraceAgent => "agent-trace"
    case RcaAgent => "agent-rca"
    case FixAgent => "agent-fix"
  }

  /** Each agent reads one topic and writes one: its own commands, or for the fix agent what
    * the RCA agent writes, and its own observations. */
  lemma EachHasItsTopics(t: Topic)
    ensures Reads(LogAgent, t) <==> t == CommandsLog
    ensures Reads(MetricAgent, t) <==> t == CommandsMetric
    ensures Reads(TraceAgent, t) <==> t == CommandsTrace
    ensures Reads(RcaAgent, t) <==> t == CommandsRca
    ensures Reads(FixAgent, t) <==> t == OutputTopic(RcaAgent)
    ensures OutputTopic(LogAgent) == ObservationsLog && OutputTopic(MetricAgent) == ObservationsMetric
    ensures OutputTopic(TraceAgent) == ObservationsTrace && OutputTopic(RcaAgent) == ObservationsRca
    ensures OutputTopic(FixAgent) == ObservationsFix
  {
  }

  /** The orchestrator hears every agent; besides it only the fix agent hears the RCA agent. */
  lemma WhoHearsWhom(g: Group, h: Group)
    requires !g.Orchestrator?
    ensures Reads(h, OutputTopic(g)) <==> h == Orchestrator || (h == FixAgent && g == RcaAgent)
  {
  }

  lemma AgentsPublishForward(g: Group, t: Topic)
    requires !g.Orchestrator? && Reads(g, t)
    ensures Stage(t) < Stage(OutputTopic(g))
  {
  }

  // ---------- one message through a runner ----------

  datatype Command = Command(session: string, command: string, kind: string)
  datatype Upstream = Upstream(session: string, source: string)

  /** A payload is read as a command first and as an observation second. */
  datatype Payload = Payload(command: Option<Command>, observation: Option<Upstream>)

  datatype Reply = HandleFails | Outputs(values: seq<string>)

  /** One Publish: whether the broker kept the message, and whether it said so. */
  datatype Publish = Stored | StoredUnreported | Dropped

  /** Attempts of one output; quitting is the context ending during a backoff. */
  datatype Luck = Luck(attempts: nat -> Publish, quits: nat -> bool)

  datatype Message = Message(topic: Topic, key: string, value: string)

  const ATTEMPTS := 3

  /** Attempt k is made: none before it succeeded, and no backoff up to it was cut short. */
  ghost predicate Made(luck: Luck, k: nat) {
    && (forall j: nat | j < k :: luck.attempts(j) != Stored)
    && (forall j: nat | 0 < j <= k :: !luck.quits(j))
  }

  /** The attempts from k on that leave a copy. */
  ghost function StoringFrom(luck: Luck, k: nat): set<nat> {
    set j: nat | k <= j < 3 && Made(luck, j) && luck.attempts(j) != Dropped
  }

  /** As many copies as attempts of the three that are made and stored. */
  lemma {:induction false} CopiesAreStored(luck: Luck, k: nat)
    requires k > 0 ==> Made(luck, k - 1) && luck.attempts(k - 1) != Stored
    ensures Copies(luck, k) == |StoringFrom(luck, k)|
    decreases 3 - k
  {
    if k >= 3 || (k > 0 && luck.quits(k)) {
      assert forall j: nat | k <= j < 3 :: !Made(luck, j);
      assert StoringFrom(luck, k) == {};
    } else {
      StoringGrows(luck, k);
      if luck.attempts(k) != Stored { CopiesAreStored(luck, k + 1); }
    }
  }

  lemma StoringGrows(luck: Luck, k: nat)
    requires k < 3 && Made(luck, k)
    ensures luck.attempts(k) == Stored ==> |StoringFrom(luck, k)| == 1
    ensures luck.attempts(k) != Stored ==>
      |StoringFrom(luck, k)| == |StoringFrom(luck, k + 1)| + if luck.attempts(k) == Dropped then 0 else 1
  {
    if luck.attempts(k) == Stored {
      assert forall j: nat | k < j < 3 :: !Made(luck, j);
      assert StoringFrom(luck, k) == {k};
    } else {
      assert StoringFrom(luck, k) == StoringFrom(luck, k + 1) + if luck.attempts(k) == Dropped then {} else {k};
    }
  }

  /** How many copies of one output reach the topic, from attempt k on. */
  function Copies(luck: Luck, k: nat): (n: nat)
    ensures n <= if k <= ATTEMPTS then ATTEMPTS - k else 0
    decreases ATTEMPTS - k
  {
    if k >= ATTEMPTS || (k > 0 && luck.quits(k)) then 0
    else
      match luck.attempts(k)
      case Stored => 1
      case StoredUnreported => 1 + Copies(luck, k + 1)
      case Dropped => Copies(luck, k + 1)
  }

  function Repeat(m: Message, n: nat): seq<Message> { seq(n, _ => m) }

  /** Everything the outputs leave on the topic, in order. */
  function Published(topic: Topic, session: string, values: seq<string>, lucks: nat -> Luck): seq<Message> {
    if values == [] then []
    else
      var last := |values| - 1;
      Published(topic, session, values[..last], lucks)
      + Repeat(Message(topic, session, values[last]), Copies(lucks(last), 0))
  }

  function Times(x: nat, n: nat): (s: seq<nat>)
    ensures |s| == n && forall j | 0 <= j < n :: s[j] == x
  {
    if n == 0 then [] else Times(x, n - 1) + [x]
  }

  function Occurrences(s: seq<nat>, i: nat): nat {
    if s == [] then 0 else Occurrences(s[..|s| - 1], i) + if s[|s| - 1] == i then 1 else 0
  }

  /** The first n outputs, each as often as counted, in order. */
  function Sources(n: nat, counts: nat -> nat): seq<nat> {
    if n == 0 then [] else Sources(n - 1, counts) + Times(n - 1, counts(n - 1))
  }

  function CopiesOf(lucks: nat -> Luck): nat -> nat { (i: nat) => Copies(lucks(i), 0) }

  /** Sources(...)[j] is the output behind the j-th message published: messages come in the
    * order of their outputs, all on the output topic under the session's key. */
  lemma {:induction false} PublishedShape(topic: Topic, session: string, values: seq<string>, lucks: nat -> Luck)
    ensures var out, from := Published(topic, session, values, lucks), Sources(|values|, CopiesOf(lucks));
      && |from| == |out|
      && (forall j | 0 <= j < |out| :: from[j] < |values| && out[j] == Message(topic, session, values[from[j]]))
      && (forall j, k | 0 <= j < k < |from| :: from[j] <= from[k])
  {
    if values != [] { PublishedShape(topic, session, values[..|values| - 1], lucks); }
  }

  lemma {:induction false} TimesAdds(s: seq<nat>, x: nat, n: nat, i: nat)
    ensures Occurrences(s + Times(x, n), i) == Occurrences(s, i) + if i == x then n else 0
  {
    if n == 0 {
      assert s + Times(x, 0) == s;
    } else {
      TimesAdds(s, x, n - 1, i);
      assert (s + Times(x, n))[..|s| + n - 1] == s + Times(x, n - 1);
    }
  }

  lemma {:induction false} SourcesCount(n: nat, counts: nat -> nat, i: nat)
    ensures Occurrences(Sources(n, counts), i) == if i < n then counts(i) else 0
  {
    if n > 0 {
      SourcesCount(n - 1, counts, i);
      TimesAdds(Sources(n - 1, counts), n - 1, counts(n - 1), i);
    }
  }

  /** Output i leaves as many copies as attempts were stored, which is at most three. */
  lemma CopiesPerOutput(values: seq<string>, lucks: nat -> Luck, i: nat)
    requires i < |values|
    ensures Occurrences(Sources(|values|, CopiesOf(lucks)), i) == Copies(lucks(i), 0) <= ATTEMPTS
  {
    SourcesCount(|values|, CopiesOf(lucks), i);
  }

  /** The session a payload makes the agent work for; None for everything it skips. */
  function Work(p: Payload, name: string): Option<string> {
    if p.command.Some? && p.command.value.session != "" && p.command.value.command != "" then
      if p.command.value.kind != "" && p.command.value.kind != name then None else Some(p.command.value.session)
    else if p.observation.None? then None
    else if p.observation.value.source == name then None
    else if p.observation.value.session == "" then None
    else Some(p.observation.value.session)
  }

  /** What a runner leaves on its output topic for one message. */
  function Delivered(g: Group, name: string, p: Payload, reply: Reply, lucks: nat -> Luck): seq<Message>
    requires !g.Orchestrator?
  {
    if Work(p, name).Some? && reply.Outputs? then
      Published(OutputTopic(g), Work(p, name).value, reply.values, lucks)
    else []
  }

  class Runner {
    const group: Group
    const name: string
    var published: seq<Message>
    var marked: seq<nat>

    constructor (group: Group, name: string)
      requires !group.Orchestrator?
      ensures this.group == group && this.name == name && published == [] && marked == []
    {
      this.group, this.name, published, marked := group, name, [], [];
    }

    method PublishWithRetry(m: Message, luck: Luck) returns (ok: bool)
      modifies this`published
      ensures published == old(published) + Repeat(m, Copies(luck, 0))
      ensures Copies(luck, 0) == |StoringFrom(luck, 0)|
      ensures ok <==> exists k: nat :: k < 3 && Made(luck, k) && luck.attempts(k) == Stored
    {
      CopiesAreStored(luck, 0);
      ok := false;
      var attempt := 0;
      ghost var sent := 0;
      while attempt < ATTEMPTS
        invariant attempt <= ATTEMPTS && forall j | 0 <= j < attempt :: luck.attempts(j) != Stored
        invariant forall j | 0 < j < attempt :: !luck.quits(j)
        invariant sent + Copies(luck, attempt) == Copies(luck, 0)
        invariant published == old(published) + Repeat(m, sent)
      {
        if attempt > 0 && luck.quits(attempt) { return; }
        var reply := luck.attempts(attempt);
        if !reply.Dropped? {
          assert Repeat(m, sent + 1) == Repeat(m, sent) + [m];
          published := published + [m];
          sent := sent + 1;
        }
        if reply.Stored? {
          assert Made(luck, attempt);
          return true;
        }
        attempt := attempt + 1;
      }
    }

    /** The publish loop. */
    method PublishAll(session: string, values: seq<string>, lucks: nat -> Luck)
      requires !group.Orchestrator?
      modifies this`published
      ensures published == old(published) + Published(OutputTopic(group), session, values, lucks)
    {
      for i := 0 to |values|
        invariant published == old(published) + Published(OutputTopic(group), session, values[..i], lucks)
      {
        assert values[..i + 1][..i] == values[..i];
        var _ := PublishWithRetry(Message(OutputTopic(group), session, values[i]), lucks(i));
      }
      assert values[..|values|] == values;
    }

    /** Whatever the payload and whatever fails, the message is marked exactly once, and
      * what is published is what its outputs leave behind. */
    method ProcessMessage(offset: nat, payload: Payload, reply: Reply, lucks: nat -> Luck)
      requires !group.Orchestrator?
      modifies this
      ensures marked == old(marked) + [offset]
      ensures published == old(published) + Delivered(group, name, payload, reply, lucks)
      ensures var c, o := payload.command, payload.observation;
        var more := published[|old(published)|..];
        old(published) <= published &&
        if reply.HandleFails? then more == []
        else if c.Some? && c.value.session != "" && c.value.command != "" then
          if c.value.kind == "" || c.value.kind == name then
            more == Published(OutputTopic(group), c.value.session, reply.values, lucks)
          else more == []
        else if o.Some? && o.value.source != name && o.value.session != "" then
          more == Published(OutputTopic(group), o.value.session, reply.values, lucks)
        else more == []
    {
      var session: string;
      if payload.command.Some? && payload.command.value.session != "" && payload.command.value.command != "" {
        var cmd := payload.command.value;
        if cmd.kind != "" && cmd.kind != name { marked := marked + [offset]; return; }
        session := cmd.session;
      } else {
        if payload.observation.None? { marked := marked + [offset]; return; }
        var obs := payload.observation.value;
        if obs.source == name { marked := marked + [offset]; return; }
        if obs.session == "" { marked := marked + [offset]; return; }
        session := obs.session;
      }
      if reply.HandleFails? { marked := marked + [offset]; return; }
      PublishAll(session, reply.values, lucks);
      marked := marked + [offset];
    }
  }

  // ---------- dispatch ----------

  /** A command on its way to an agent. */
  datatype Dispatch = Dispatch(topic: Topic, key: string, command: Command)

  function CommandTopic(g: Group): Topic
    requires g in {LogAgent, MetricAgent, TraceAgent, RcaAgent}
  {
    match g
    case LogAgent => CommandsLog
    case MetricAgent => CommandsMetric
    case TraceAgent => CommandsTrace
    case RcaAgent => CommandsRca
  }

  /** The command for agent g, which is on its topic, about the session, and made out to it. */
  ghost predicate MeantFor(d: Dispatch, g: Group, session: string, command: string) {
    && !g.Orchestrator? && Reads(g, d.topic) && d.key == session
    && d.command.session == session && d.command.command == command && d.command.kind == AgentName(g)
  }

  /** Who is to get what: each agent of gs whose message the broker keeps gets one command. */
  ghost predicate Told(got: seq<Dispatch>, gs: seq<Group>, session: string, command: string, luck: nat -> Publish)
  {
    if gs == [] then got == []
    else
      var last := |gs| - 1;
      if luck(last) == Dropped then Told(got, gs[..last], session, command, luck)
      else got != [] && MeantFor(got[|got| - 1], gs[last], session, command)
           && Told(got[..|got| - 1], gs[..last], session, command, luck)
  }

  class Dispatcher {
    var sent: seq<Dispatch>

    constructor ()
      ensures sent == []
    {
      sent := [];
    }

    method Publish(d: Dispatch, luck: Publish)
      modifies this
      ensures sent == if luck == Dropped then old(sent) else old(sent) + [d]
    {
      if luck != Dropped { sent := sent + [d]; }
    }

    /** One collect command for each base agent, whatever becomes of the others. */
    method DispatchCollect(session: string, luck: nat -> Publish)
      modifies this
      ensures old(sent) <= sent
      ensures Told(sent[|old(sent)|..], [LogAgent, MetricAgent, TraceAgent], session, "collect", luck)
    {
      var agents := [LogAgent, MetricAgent, TraceAgent];
      for i := 0 to |agents|
        invariant old(sent) <= sent && Told(sent[|old(sent)|..], agents[..i], session, "collect", luck)
      {
        var a := agents[i];
        ghost var got := sent[|old(sent)|..];
        var d := Dispatch(CommandTopic(a), session, Command(session, "collect", AgentName(a)));
        assert agents[..i + 1][..i] == agents[..i] && (got + [d])[..|got|] == got;
        Publish(d, luck(i));
        assert sent[|old(sent)|..] == if luck(i) == Dropped then got else got + [d];
      }
      assert agents[..|agents|] == agents;
    }

    /** One analyze command for the RCA agent. */
    method DispatchAnalyze(session: string, luck: Publish) returns (ok: bool)
      modifies this
      ensures old(sent) <= sent && ok == (luck == Stored)
      ensures Told(sent[|old(sent)|..], [RcaAgent], session, "analyze", _ => luck)
    {
      var d := Dispatch(CommandsRca, session, Command(session, "analyze", "agent-rca"));
      Publish(d, luck);
      assert sent[|old(sent)|..] == if luck == Dropped then [] else [d];
      ok := luck == Stored;
    }
  }

  /** A command reaches exactly the agent it is made out to, and that agent works it: whatever
    * its handler answers is published under the session. */
  lemma CommandsAreWorked(
      d: Dispatch, g: Group, h: Group, session: string, command: string, values: seq<string>, lucks: nat -> Luck)
    requires MeantFor(d, g, session, command) && session != "" && command != ""
    ensures Reads(h, d.topic) && h != Orchestrator <==> h == g
    ensures Delivered(g, AgentName(g), Payload(Some(d.command), None), Outputs(values), lucks) ==
      Published(OutputTopic(g), session, values, lucks)
  {
  }
}
