/** The agents and the orchestrator as one system: messages waiting for their groups next
  * to the orchestrator's step system, whose dispatches are the only commands; and why,
  * from any finite set of messages, it drains.
  */
module Pipeline {
  import opened Domain
  import opened Network
  import P = Protocol
  import E = Effects
  import L = Locking

  /** How sessions are named in messages. */
  datatype Ids = Ids(parse: string -> Option<SessionId>, name: SessionId -> string)

  /** One message waiting for one group. */
  datatype Item = Item(topic: Topic, group: Group, session: string)

  datatype Joint = Joint(pending: multiset<Item>, world: P.World)

  /** A message on a topic waits for every group that reads the topic. */
  function Fan(t: Topic, session: string): multiset<Item> {
    match t
    case CommandsLog => multiset{Item(t, LogAgent, session)}
    case CommandsMetric => multiset{Item(t, MetricAgent, session)}
    case CommandsTrace => multiset{Item(t, TraceAgent, session)}
    case CommandsRca => multiset{Item(t, RcaAgent, session)}
    case ObservationsRca => multiset{Item(t, FixAgent, session), Item(t, Orchestrator, session)}
    case ObservationsLog => multiset{Item(t, Orchestrator, session)}
    case ObservationsMetric => multiset{Item(t, Orchestrator, session)}
    case ObservationsTrace => multiset{Item(t, Orchestrator, session)}
    case ObservationsFix => multiset{Item(t, Orchestrator, session)}
  }

  lemma FanIsReaders(t: Topic, session: string, g: Group)
    ensures Fan(t, session)[Item(t, g, session)] == if Reads(g, t) then 1 else 0
    ensures forall x | x in Fan(t, session) :: x.topic == t && Reads(x.group, t)
  {
  }

  function FanAll(out: seq<Message>): multiset<Item> {
    if out == [] then multiset{}
    else FanAll(out[..|out| - 1]) + Fan(out[|out| - 1].topic, out[|out| - 1].key)
  }

  // ---------- steps ----------

  /** An agent takes a message: what its runner publishes for it is pending next. */
  ghost predicate AgentTakes(j: Joint, j': Joint, x: Item) {
    && x in j.pending && !x.group.Orchestrator? && Reads(x.group, x.topic) && j'.world == j.world
    && exists name, payload, reply, lucks ::
         && (Work(payload, name).Some? ==> Work(payload, name).value == x.session)
         && j'.pending == j.pending - multiset{x} + FanAll(Delivered(x.group, name, payload, reply, lucks))
  }

  /** The orchestrator takes a message: it is dropped, or a handler of the step system starts. */
  ghost predicate OrchestratorTakes(ids: Ids, j: Joint, j': Joint, x: Item) {
    && x in j.pending && x.group.Orchestrator? && Reads(x.group, x.topic)
    && j'.pending == j.pending - multiset{x}
    && (j'.world == j.world
        || exists a, kind ::
             && ids.parse(x.session).Some?
             && var st := P.Call(a, P.Observing(ids.parse(x.session).value, kind));
                P.Enabled(j.world, st) && j'.world == P.Apply(j.world, st))
  }

  /** The command messages a step of the orchestrator may publish. */
  ghost predicate Publishes(ids: Ids, w: P.World, st: P.Step, out: seq<Message>)
    requires P.Enabled(w, st)
  {
    if !st.Dispatch? then out == []
    else
      var pc := w.actors[st.a];
      && (forall m | m in out :: m.key == ids.name(pc.sid))
      && if pc.CollectCall? then
           && |out| <= 3
           && forall m | m in out :: m.topic.CommandsLog? || m.topic.CommandsMetric? || m.topic.CommandsTrace?
         else
           |out| <= 1 && forall m | m in out :: m.topic.CommandsRca?
  }

  ghost predicate OrchestratorSteps(ids: Ids, j: Joint, j': Joint, st: P.Step) {
    && P.Enabled(j.world, st) && j'.world == P.Apply(j.world, st)
    && exists out :: Publishes(ids, j.world, st, out) && j'.pending == j.pending + FanAll(out)
  }

  ghost predicate Takes(ids: Ids, j: Joint, j': Joint) {
    exists x :: AgentTakes(j, j', x) || OrchestratorTakes(ids, j, j', x)
  }

  ghost predicate JointStep(ids: Ids, j: Joint, j': Joint) {
    Takes(ids, j, j') || exists st :: OrchestratorSteps(ids, j, j', st)
  }

  /** A restarted group is given messages of its topics again. */
  ghost predicate Redelivers(j: Joint, j': Joint) {
    && j'.world == j.world
    && exists again: multiset<Item> ::
         again != multiset{} && (forall x | x in again :: Reads(x.group, x.topic)) && j'.pending == j.pending + again
  }

  // ---------- counting ----------

  /** How many items wait on topics of a stage. */
  ghost function At(m: multiset<Item>, stage: nat): nat {
    if m == multiset{} then 0
    else
      var x :| x in m;
      At(m - multiset{x}, stage) + if Stage(x.topic) == stage then 1 else 0
  }

  lemma {:induction false} AtWithout(m: multiset<Item>, x: Item, stage: nat)
    requires x in m
    ensures At(m, stage) == At(m - multiset{x}, stage) + if Stage(x.topic) == stage then 1 else 0
    decreases |m|
  {
    var y :| y in m && At(m, stage) == At(m - multiset{y}, stage) + if Stage(y.topic) == stage then 1 else 0;
    if y != x {
      AtWithout(m - multiset{y}, x, stage);
      AtWithout(m - multiset{x}, y, stage);
      assert m - multiset{y} - multiset{x} == m - multiset{x} - multiset{y};
    }
  }

  lemma {:induction false} AtSum(a: multiset<Item>, b: multiset<Item>, stage: nat)
    ensures At(a + b, stage) == At(a, stage) + At(b, stage)
    decreases |b|
  {
    if b == multiset{} {
      assert a + b == a;
    } else {
      var y :| y in b;
      AtWithout(b, y, stage);
      AtWithout(a + b, y, stage);
      assert a + b - multiset{y} == a + (b - multiset{y});
      AtSum(a, b - multiset{y}, stage);
    }
  }

  lemma {:induction false} NoneAt(m: multiset<Item>, stage: nat)
    requires forall x | x in m :: Stage(x.topic) != stage
    ensures At(m, stage) == 0
    decreases |m|
  {
    if m != multiset{} {
      var x :| x in m;
      AtWithout(m, x, stage);
      NoneAt(m - multiset{x}, stage);
    }
  }

  lemma {:induction false} FanAllTopics(out: seq<Message>)
    ensures forall x | x in FanAll(out) :: Reads(x.group, x.topic) && exists m :: m in out && m.topic == x.topic
  {
    if out != [] {
      var last := |out| - 1;
      FanAllTopics(out[..last]);
      FanIsReaders(out[last].topic, out[last].key, Orchestrator);
      forall x | x in FanAll(out)
        ensures Reads(x.group, x.topic) && exists m :: m in out && m.topic == x.topic
      {
        if x in FanAll(out[..last]) {
          var m :| m in out[..last] && m.topic == x.topic;
          assert m in out;
        } else {
          assert out[last] in out;
        }
      }
    }
  }

  // ---------- what an agent's step costs ----------

  /** Everything a runner delivers is on its output topic. */
  lemma DeliveredTopic(g: Group, name: string, p: Payload, reply: Reply, lucks: nat -> Luck)
    requires !g.Orchestrator?
    ensures forall m | m in Delivered(g, name, p, reply, lucks) :: m.topic == OutputTopic(g)
  {
    if Work(p, name).Some? && reply.Outputs? {
      PublishedShape(OutputTopic(g), Work(p, name).value, reply.values, lucks);
    }
  }

  /** Taking an item leaves nothing new at its stage or before it. */
  lemma AgentDescends(j: Joint, j': Joint, x: Item)
    requires AgentTakes(j, j', x)
    ensures forall q | 0 <= q <= Stage(x.topic) ::
      At(j'.pending, q) == At(j.pending, q) - if q == Stage(x.topic) then 1 else 0
  {
    var name, payload, reply, lucks :|
      j'.pending == j.pending - multiset{x} + FanAll(Delivered(x.group, name, payload, reply, lucks));
    var out := Delivered(x.group, name, payload, reply, lucks);
    DeliveredTopic(x.group, name, payload, reply, lucks);
    FanAllTopics(out);
    AgentsPublishForward(x.group, x.topic);
    forall q | 0 <= q <= Stage(x.topic)
      ensures At(j'.pending, q) == At(j.pending, q) - if q == Stage(x.topic) then 1 else 0
    {
      AtWithout(j.pending, x, q);
      AtSum(j.pending - multiset{x}, FanAll(out), q);
      NoneAt(FanAll(out), q);
    }
  }

  lemma OrchestratorDescends(ids: Ids, j: Joint, j': Joint, x: Item)
    requires OrchestratorTakes(ids, j, j', x)
    ensures forall q | 0 <= q <= 4 :: At(j'.pending, q) == At(j.pending, q) - if q == Stage(x.topic) then 1 else 0
  {
    forall q | 0 <= q <= 4
      ensures At(j'.pending, q) == At(j.pending, q) - if q == Stage(x.topic) then 1 else 0
    {
      AtWithout(j.pending, x, q);
    }
  }

  // ---------- what a dispatch costs ----------

  /** The sessions of a set for which the effect has not been run. */
  ghost function Unspent(w: P.World, among: set<SessionId>, fx: P.Effect): set<SessionId> {
    set s | s in among && E.NotInvoked(w.log, s, fx)
  }

  /** The dispatches still possible. */
  ghost function Left(w: P.World, among: set<SessionId>): nat {
    |Unspent(w, among, P.CollectFx)| + |Unspent(w, among, P.AnalyzeFx)|
  }

  lemma NeverMore(w: P.World, w': P.World, among: set<SessionId>)
    requires w.log <= w'.log
    ensures Left(w', among) <= Left(w, among)
  {
    assert forall m | m in w.log :: m in w'.log;
    Subsets(Unspent(w', among, P.CollectFx), Unspent(w, among, P.CollectFx));
    Subsets(Unspent(w', among, P.AnalyzeFx), Unspent(w, among, P.AnalyzeFx));
  }

  function DispatchFx(pc: P.Pc): P.Effect { if pc.CollectCall? then P.CollectFx else P.AnalyzeFx }

  /** What the orchestrator's invariant says about calls; every world of its runs is sound. */
  ghost predicate Sound(w: P.World) { L.LockInv(w) && L.PathInv(w) && E.EffectInv(w) }

  lemma SoundKept(w: P.World, st: P.Step)
    requires Sound(w) && P.Enabled(w, st)
    ensures Sound(P.Apply(w, st))
  {
    L.LocksKept(w, st);
    L.PathsKept(w, st);
    E.EffectsKept(w, st);
  }

  /** The actor about to dispatch is entitled to, so nobody has dispatched it yet. */
  lemma DispatchIsFirst(w: P.World, a: P.ActorId)
    requires E.EffectInv(w) && P.Enabled(w, P.Dispatch(a))
    ensures var pc := w.actors[a];
      pc.sid in w.hist && E.NotInvoked(w.log, pc.sid, DispatchFx(pc))
  {
    var pc := w.actors[a];
    assert E.Entitled(w, a, pc);
    assert E.Cause(pc.sid, DispatchFx(pc), a) in w.log && pc.sid in w.hist;
  }

  lemma InvokedSpends(w: P.World, w': P.World, s: SessionId, fx: P.Effect, a: P.ActorId, among: set<SessionId>)
    requires w'.log == w.log + [P.Invoked(s, fx, a)] && s in among && E.NotInvoked(w.log, s, fx)
    ensures Unspent(w', among, fx) < Unspent(w, among, fx)
  {
    assert P.Invoked(s, fx, a) in w'.log;
    assert forall m | m in w.log :: m in w'.log;
    assert s in Unspent(w, among, fx) && s !in Unspent(w', among, fx);
  }

  /** A dispatch uses up one of them, since the step system makes it at most once. */
  lemma DispatchSpends(w: P.World, a: P.ActorId, among: set<SessionId>)
    requires E.EffectInv(w) && w.hist.Keys <= among && P.Enabled(w, P.Dispatch(a))
    ensures Left(P.Apply(w, P.Dispatch(a)), among) < Left(w, among)
  {
    var pc, w' := w.actors[a], P.Apply(w, P.Dispatch(a));
    DispatchIsFirst(w, a);
    InvokedSpends(w, w', pc.sid, DispatchFx(pc), a, among);
    assert forall m | m in w.log :: m in w'.log;
    Subsets(Unspent(w', among, P.CollectFx), Unspent(w, among, P.CollectFx));
    Subsets(Unspent(w', among, P.AnalyzeFx), Unspent(w, among, P.AnalyzeFx));
  }

  // ---------- the descent ----------

  /** The dispatches left, then the items per stage. */
  datatype Height = Height(left: nat, s0: nat, s1: nat, s2: nat, s3: nat, s4: nat)

  ghost function HeightOf(j: Joint, among: set<SessionId>): Height {
    var m := j.pending;
    Height(Left(j.world, among), At(m, 0), At(m, 1), At(m, 2), At(m, 3), At(m, 4))
  }

  predicate Lower(g: Height, h: Height) {
    || g.left < h.left
    || (g.left == h.left &&
        (|| g.s0 < h.s0
         || (g.s0 == h.s0 && g.s1 < h.s1)
         || (g.s0 == h.s0 && g.s1 == h.s1 && g.s2 < h.s2)
         || (g.s0 == h.s0 && g.s1 == h.s1 && g.s2 == h.s2 && g.s3 < h.s3)
         || (g.s0 == h.s0 && g.s1 == h.s1 && g.s2 == h.s2 && g.s3 == h.s3 && g.s4 < h.s4)))
  }

  lemma StagesDescend(j: Joint, j': Joint, among: set<SessionId>, stage: nat)
    requires stage <= 4 && Left(j'.world, among) <= Left(j.world, among)
    requires forall q | 0 <= q <= stage ::
      At(j'.pending, q) == At(j.pending, q) - if q == stage then 1 else 0
    ensures Lower(HeightOf(j', among), HeightOf(j, among))
  {
    assert At(j'.pending, stage) < At(j.pending, stage);
    assert stage > 0 ==> At(j'.pending, 0) == At(j.pending, 0);
    assert stage > 1 ==> At(j'.pending, 1) == At(j.pending, 1);
    assert stage > 2 ==> At(j'.pending, 2) == At(j.pending, 2);
    assert stage > 3 ==> At(j'.pending, 3) == At(j.pending, 3);
  }

  lemma TakingDescends(ids: Ids, j: Joint, j': Joint, among: set<SessionId>)
    requires Takes(ids, j, j')
    ensures Lower(HeightOf(j', among), HeightOf(j, among))
  {
    var x :| AgentTakes(j, j', x) || OrchestratorTakes(ids, j, j', x);
    if AgentTakes(j, j', x) {
      AgentDescends(j, j', x);
    } else {
      OrchestratorDescends(ids, j, j', x);
      if j'.world != j.world {
        var a, kind :| var st := P.Call(a, P.Observing(ids.parse(x.session).value, kind));
          P.Enabled(j.world, st) && j'.world == P.Apply(j.world, st);
        P.LogGrows(j.world, P.Call(a, P.Observing(ids.parse(x.session).value, kind)));
        NeverMore(j.world, j'.world, among);
      }
    }
    StagesDescend(j, j', among, Stage(x.topic));
  }

  /** A step of the orchestrator leaves the messages alone or uses up a dispatch. */
  lemma SteppingDescends(ids: Ids, j: Joint, j': Joint, st: P.Step, among: set<SessionId>)
    requires OrchestratorSteps(ids, j, j', st) && Sound(j.world) && j.world.session.Keys <= among
    ensures Lower(HeightOf(j', among), HeightOf(j, among))
      || (j'.pending == j.pending && Left(j'.world, among) == Left(j.world, among))
  {
    P.LogGrows(j.world, st);
    NeverMore(j.world, j'.world, among);
    if st.Dispatch? {
      DispatchSpends(j.world, st.a, among);
    } else {
      assert j.pending + FanAll([]) == j.pending;
    }
  }

  // ---------- runs ----------

  ghost predicate GoesOn(ids: Ids, run: nat -> Joint, k: nat) {
    JointStep(ids, run(k), run(k + 1)) || Redelivers(run(k), run(k + 1))
  }

  ghost predicate QuietFrom(run: nat -> Joint, i: nat) { forall k: nat | k >= i :: !Redelivers(run(k), run(k + 1)) }

  ghost predicate Within(run: nat -> Joint, among: set<SessionId>, k: nat) { run(k).world.session.Keys <= among }

  /** An endless run of the whole; among is every session there will ever be. */
  ghost predicate JointRun(ids: Ids, run: nat -> Joint, among: set<SessionId>) {
    && Sound(run(0).world)
    && (forall k: nat :: GoesOn(ids, run, k))
    && (forall k: nat :: Within(run, among, k))
  }

  lemma {:induction false} WorldsStaySound(ids: Ids, run: nat -> Joint, k: nat)
    requires Sound(run(0).world) && forall l: nat :: GoesOn(ids, run, l)
    ensures Sound(run(k).world)
  {
    if k > 0 {
      WorldsStaySound(ids, run, k - 1);
      assert GoesOn(ids, run, k - 1);
      JointIsWorldStep(ids, run(k - 1), run(k - 1 + 1));
      SoundStep(run(k - 1).world, run(k - 1 + 1).world);
    }
  }

  /** The orchestrator stands still or takes a step. */
  ghost predicate WorldStep(w: P.World, w': P.World) {
    w' == w || exists st :: P.Enabled(w, st) && w' == P.Apply(w, st)
  }

  lemma JointIsWorldStep(ids: Ids, j: Joint, j': Joint)
    requires JointStep(ids, j, j') || Redelivers(j, j')
    ensures WorldStep(j.world, j'.world)
  {
    if Takes(ids, j, j') {
      var x :| AgentTakes(j, j', x) || OrchestratorTakes(ids, j, j', x);
    }
  }

  lemma SoundStep(w: P.World, w': P.World)
    requires Sound(w) && WorldStep(w, w')
    ensures Sound(w')
  {
    if w' != w {
      var st :| P.Enabled(w, st) && w' == P.Apply(w, st);
      SoundKept(w, st);
    }
  }

  /** Nothing is taken or published at moment k. */
  ghost predicate Rests(ids: Ids, run: nat -> Joint, k: nat) {
    !Takes(ids, run(k), run(k + 1)) && run(k + 1).pending == run(k).pending
  }

  /** Each step but a redelivery lowers the height, or is a step of the orchestrator that
    * leaves messages and height as they are. */
  lemma EachStepDescendsOrRests(ids: Ids, run: nat -> Joint, among: set<SessionId>, k: nat)
    requires JointRun(ids, run, among) && !Redelivers(run(k), run(k + 1))
    ensures || Lower(HeightOf(run(k + 1), among), HeightOf(run(k), among))
            || (Rests(ids, run, k) && HeightOf(run(k + 1), among) == HeightOf(run(k), among))
  {
    var j, j' := run(k), run(k + 1);
    WorldsStaySound(ids, run, k);
    assert GoesOn(ids, run, k) && Within(run, among, k);
    if Takes(ids, j, j') {
      TakingDescends(ids, j, j', among);
    } else {
      var st :| OrchestratorSteps(ids, j, j', st);
      SteppingDescends(ids, j, j', st, among);
    }
  }

  /** Step k lowers the height or rests. */
  predicate Falls(height: nat -> Height, rests: nat -> bool, k: nat) {
    Lower(height(k + 1), height(k)) || (rests(k) && height(k + 1) == height(k))
  }

  /** What never rises from moment i on comes to rest. */
  lemma {:induction false} ComesToRest(height: nat -> Height, rests: nat -> bool, i: nat) returns (j: nat)
    requires forall k: nat | k >= i :: Falls(height, rests, k)
    ensures j >= i && forall k: nat | k >= j :: rests(k)
    decreases height(i).left, height(i).s0, height(i).s1, height(i).s2, height(i).s3, height(i).s4
  {
    if n: nat :| n >= i && !rests(n) {
      var m := FirstFall(height, rests, i, n);
      j := ComesToRest(height, rests, m + 1);
    } else {
      j := i;
    }
  }

  /** Up to the first step that lowers it the height stays the same. */
  lemma {:induction false} FirstFall(height: nat -> Height, rests: nat -> bool, i: nat, n: nat) returns (m: nat)
    requires forall k: nat | k >= i :: Falls(height, rests, k)
    requires n >= i && !rests(n)
    ensures m >= i && Lower(height(m + 1), height(i))
    decreases n - i
  {
    assert Falls(height, rests, i);
    if !rests(i) || height(i + 1) != height(i) {
      m := i;
    } else {
      m := FirstFall(height, rests, i + 1, n);
    }
  }

  ghost predicate RestsFrom(ids: Ids, run: nat -> Joint, j: nat) { forall k: nat | k >= j :: Rests(ids, run, k) }

  /** From any finite set of messages only finitely many are ever taken or published, from
    * some moment on the messages do not change, if and only if redeliveries end. */
  lemma MessagesComeToRest(ids: Ids, run: nat -> Joint, among: set<SessionId>)
    requires JointRun(ids, run, among)
    ensures (exists j: nat :: RestsFrom(ids, run, j)) <==> (exists i: nat :: QuietFrom(run, i))
  {
    if i: nat :| QuietFrom(run, i) { var j := RestsOnceQuiet(ids, run, among, i); }
    if j: nat :| RestsFrom(ids, run, j) {
      forall k: nat | k >= j
        ensures !Redelivers(run(k), run(k + 1))
      {
        assert Rests(ids, run, k);
        RestIsNoRedelivery(ids, run, k);
      }
      assert QuietFrom(run, j);
    }
  }

  lemma RestIsNoRedelivery(ids: Ids, run: nat -> Joint, k: nat)
    requires Rests(ids, run, k)
    ensures !Redelivers(run(k), run(k + 1))
  {
    forall again: multiset<Item> | again != multiset{}
      ensures run(k).pending + again != run(k).pending
    {
      AddingShows(run(k).pending, again);
    }
  }

  lemma AddingShows(m: multiset<Item>, again: multiset<Item>)
    requires again != multiset{}
    ensures m + again != m
  {
    assert |m + again| == |m| + |again| > |m|;
  }

  lemma RestsOnceQuiet(ids: Ids, run: nat -> Joint, among: set<SessionId>, i: nat) returns (j: nat)
    requires JointRun(ids, run, among) && QuietFrom(run, i)
    ensures RestsFrom(ids, run, j)
  {
    var height: nat -> Height := (k: nat) => HeightOf(run(k), among);
    var rests: nat -> bool := (k: nat) => Rests(ids, run, k);
    forall k: nat | k >= i
      ensures Falls(height, rests, k)
    {
      EachStepDescendsOrRests(ids, run, among, k);
    }
    j := ComesToRest(height, rests, i);
    forall k: nat | k >= j
      ensures Rests(ids, run, k)
    {
      assert rests(k);
    }
  }

  ghost predicate Drained(run: nat -> Joint, j: nat) { forall k: nat | k >= j :: run(k).pending == multiset{} }

  /** ... so if redeliveries end and some message is taken again and again while any is waiting,
    * the network is empty from some moment on. */
  lemma NetworkDrains(ids: Ids, run: nat -> Joint, among: set<SessionId>)
    requires JointRun(ids, run, among) && exists i: nat :: QuietFrom(run, i)
    requires forall k: nat :: run(k).pending != multiset{} ==> exists l: nat :: l >= k && Takes(ids, run(l), run(l + 1))
    ensures exists j: nat :: Drained(run, j)
  {
    MessagesComeToRest(ids, run, among);
    var j: nat :| RestsFrom(ids, run, j);
    forall k: nat | k >= j
      ensures run(k).pending == multiset{}
    {
      forall l: nat | l >= k
        ensures !Takes(ids, run(l), run(l + 1))
      {
        assert Rests(ids, run, l);
      }
    }
    assert Drained(run, j);
  }

  // ---------- nothing waits in vain ----------

  /** Items only ever wait for groups that read their topic. */
  ghost predicate Routed(j: Joint) { forall x | x in j.pending :: Reads(x.group, x.topic) }

  lemma RoutedKept(ids: Ids, j: Joint, j': Joint)
    requires Routed(j) && (JointStep(ids, j, j') || Redelivers(j, j'))
    ensures Routed(j')
  {
    if Takes(ids, j, j') {
      var x :| AgentTakes(j, j', x) || OrchestratorTakes(ids, j, j', x);
      if AgentTakes(j, j', x) {
        var name, payload, reply, lucks :|
          j'.pending == j.pending - multiset{x} + FanAll(Delivered(x.group, name, payload, reply, lucks));
        FanAllTopics(Delivered(x.group, name, payload, reply, lucks));
      }
    } else if JointStep(ids, j, j') {
      var st :| OrchestratorSteps(ids, j, j', st);
      var out :| Publishes(ids, j.world, st, out) && j'.pending == j.pending + FanAll(out);
      FanAllTopics(out);
    }
  }

  lemma {:induction false} StaysRouted(ids: Ids, run: nat -> Joint, k: nat)
    requires Routed(run(0)) && forall l: nat :: GoesOn(ids, run, l)
    ensures Routed(run(k))
  {
    if k > 0 {
      StaysRouted(ids, run, k - 1);
      assert GoesOn(ids, run, k - 1);
      RoutedKept(ids, run(k - 1), run(k - 1 + 1));
    }
  }

  /** At every moment of a run that began routed, a message can be taken exactly when one is
    * waiting. */
  lemma TakeableIffPending(ids: Ids, run: nat -> Joint, k: nat)
    requires Routed(run(0)) && forall l: nat :: GoesOn(ids, run, l)
    ensures run(k).pending != multiset{} <==> exists j' :: Takes(ids, run(k), j')
  {
    StaysRouted(ids, run, k);
    var j := run(k);
    if j.pending != multiset{} {
      var x :| x in j.pending;
      var j' := Joint(j.pending - multiset{x}, j.world);
      if x.group.Orchestrator? {
        assert OrchestratorTakes(ids, j, j', x);
      } else {
        var skipped := Payload(None, None);
        assert Delivered(x.group, "", skipped, HandleFails, _ => Luck(_ => Dropped, _ => false)) == [];
        assert j'.pending == j.pending - multiset{x} + FanAll([]);
        assert AgentTakes(j, j', x);
      }
      assert Takes(ids, j, j');
    }
  }

  /** What a runner publishes for a message of a session is one step of the network, on its
    * output topic and under the session's key. */
  lemma RunnerMakesAStep(
      ids: Ids, j: Joint, x: Item, name: string, payload: Payload, reply: Reply, lucks: nat -> Luck)
    requires x in j.pending && !x.group.Orchestrator? && Reads(x.group, x.topic)
    requires Work(payload, name).Some? ==> Work(payload, name).value == x.session
    ensures var out := Delivered(x.group, name, payload, reply, lucks);
      && JointStep(ids, j, Joint(j.pending - multiset{x} + FanAll(out), j.world))
      && (forall m | m in out :: m.topic == OutputTopic(x.group) && m.key == x.session)
  {
    var out := Delivered(x.group, name, payload, reply, lucks);
    var j' := Joint(j.pending - multiset{x} + FanAll(out), j.world);
    assert AgentTakes(j, j', x);
    assert Takes(ids, j, j');
    if Work(payload, name).Some? && reply.Outputs? {
      PublishedShape(OutputTopic(x.group), x.session, reply.values, lucks);
    }
  }
}
