/** An input for each place where what one would expect of the client does not hold. */
module Witnesses {
  import opened Commands
  import opened Options
  import opened Redis
  import opened Topology
  import opened Grouping
  import opened NodeJob
  import opened LoadScripts
  import opened BatchMeaning
  import opened Endpoints
  import opened BatchExecution
  import opened RedisQueue
  import BatchGuarantees
  import ScriptCaches
  import Dispatch
  import EvalAsync
  import Glob
  import PubSub

  /** A server on which every command and script answers null, and every script is its own hash. */
  function Idle(): Semantics {
    Semantics(s => s, (_, d) => (Ok(Null), d), (_, _, _, d) => (Ok(Null), d), msg => Text(msg))
  }

  const EMPTY := Node(map[], map[])
  const PRIMARY := Server("primary", 1)
  const REPLICA := Server("replica", 2)

  // ---------- Batches ----------

  /** An EVALSHA before the EVAL of the same script: as queued it finds nothing, as rewritten and sent it runs. */
  lemma ForwardReference()
    ensures var cs := [EvalSha("s", [], []), Eval("s", [], [])];
            var ready := Node(map[], map["s" := "s"]);
            && Preloaded(Idle(), cs, EMPTY, ready)
            && RunAll(Idle(), Lowered(cs), EMPTY).0 == [Err(NOSCRIPT), Ok(Null)]
            && RunAll(Idle(), Lowered(RewrittenAll(Idle(), cs)), ready).0 == [Ok(Null), Ok(Null)]
  {
    var cs := [EvalSha("s", [], []), Eval("s", [], [])];
    assert cs[1..] == [Eval("s", [], [])] && cs[1..][1..] == [];
    CarriedOfTwo(cs[0], "s");
    var lowered, rewritten := Lowered(cs), Lowered(RewrittenAll(Idle(), cs));
    assert lowered == cs && rewritten == [EvalSha("s", [], []), EvalSha("s", [], [])];
    assert lowered[1..] == [Eval("s", [], [])] && rewritten[1..] == [EvalSha("s", [], [])];
    assert lowered[1..][1..] == [] && rewritten[1..][1..] == [];
  }

  lemma CarriedOfTwo(c: RedisCommand, script: string)
    requires !c.Eval?
    ensures Carried(Idle(), [c, Eval(script, [], [])]) == map[script := script]
  {
    var last := [Eval(script, [], [])];
    assert last[1..] == [] && Carried(Idle(), []) == map[];
    assert Carried(Idle(), last) == map[script := script];
    assert [c, Eval(script, [], [])][1..] == last;
  }

  function OneNode(atomic: bool, fate: ExecFate): Setting {
    Setting(Idle(), BatchOptions(atomic, false, 0, false, 0, 0), false, false, map[], _ => REPLICA, _ => fate,
            _ => Ok(Null), _ => {})
  }

  /** An atomic batch of one command whose transaction is aborted: success, and no response. */
  method AbortedBatch() returns (result: Option<BatchResult>)
    ensures result.Some? && result.value.responses == []
  {
    var x := OneNode(true, AbortsNil);
    var sm := new ScriptCaches.ServiceManager(x.sem.sha1);
    var dep := Deployment(Hosts([PRIMARY]), _ => 0);
    var q := [Pending(Get("k"), 0, 0)];
    var w := map[PRIMARY := EMPTY, REPLICA := EMPTY];
    var sends, w';
    hide Executed, Owed, Reference, Pick;
    result, sends, w' := ExecuteInMemory(x, sm, dep, q, w);
    NoResponse(x, Servers(x, dep, q), q, w, w', sends, result.value);
  }

  lemma NoResponse(
    x: Setting, es: seq<Server>, q: seq<Pending>, w: World, w': World, sends: seq<(nat, Answer)>, result: BatchResult)
    requires |es| == |q| == 1 && Covers(w, es) && Executed(x, es, q, w, w', sends, result)
    requires x.opts.atomic && x.fates(es[0]) == AbortsNil
    ensures result.responses == []
  {
    BatchGuarantees.OneResponseEachIff(x, es, q, w, w', sends, result);
    assert es[0] in es;
  }

  function AnswersOne(): Semantics {
    Idle().(body := (_, _, _, d) => (Ok(Integer(1)), d))
  }

  const LONE := Deployment(Hosts([PRIMARY]), _ => 0)
  const LONE_EVAL := [Pending(Eval("s", [], []), 0, 0)]
  const NOTHING_LOADED := map[PRIMARY := EMPTY, REPLICA := EMPTY]

  function Believing(belief: Belief): Setting {
    OneNode(false, Commits).(sem := AnswersOne(), useScriptCache := true, belief := belief)
  }

  lemma LoneEvalRuns(belief: Belief)
    requires "s" in Known(belief, PRIMARY)
    ensures var x, dep, q, w := Believing(belief), LONE, LONE_EVAL, NOTHING_LOADED;
            && CollisionFree(x.sem) && Reachable(x, dep, q, w) && AllWellFormed(x.sem, w)
            && Routable(dep, q) && OwnReplicas(x, Targets(dep, q)) && BatchLoadable(x, Targets(dep, q), q)
            && Servers(x, dep, q) == [PRIMARY]
  {
    var x := Believing(belief);
    assert LONE_EVAL[1..] == [];
    assert Targets(LONE, LONE_EVAL) == [PRIMARY];
    assert Ends(x, [PRIMARY], LONE_EVAL) == [PRIMARY];
  }

  /**
    A script recorded as loaded on a node that has lost it, as after a restart between its loading and its recording:
    the batch succeeds, and the caller is told null where its EVAL as queued answers 1.
  */
  method LostScript() returns (result: Option<BatchResult>, sends: seq<(nat, Answer)>)
    ensures result.Some? && (0, Answer(Null)) in sends
    ensures RunOne(AnswersOne(), LONE_EVAL[0].cmd, EMPTY).0 == Ok(Integer(1))
  {
    var sm := new ScriptCaches.ServiceManager(AnswersOne().sha1);
    sm.CacheScripts(PRIMARY, ["s"]);
    var x, q, w := Believing(sm.scriptShaCache), LONE_EVAL, NOTHING_LOADED;
    assert "s" in ["s"] && sm.sha1("s") == "s";
    LoneEvalRuns(x.belief);
    hide Executed, Owed, Reference, Reachable, CollisionFree, AllWellFormed, Routable, OwnReplicas, BatchLoadable,
         Servers, Targets, Kept, ScriptCaches.Mirrors;
    var w';
    result, sends, w' := ExecuteInMemory(x, sm, LONE, q, w);
    BatchGuarantees.LostScriptAnswersNull(x, Servers(x, LONE, q), q, w, w', sends, result.value, 0);
  }

  /** The two reads that replicas are sent as writes. */
  lemma ReplicaIsSentWrites()
    ensures var x := OneNode(false, Commits);
            var ts, q := [PRIMARY, PRIMARY], [Pending(EvalShaRo("s", [], []), 0, 0), Pending(SortRo("k"), 1, 1)];
            var wire := Wire(x.sem, x.useScriptCache, CommandsOf(q));
            && Ends(x, ts, q) == [REPLICA, REPLICA] && wire[0].IsReadOnly() && wire[1].IsReadOnly()
            && Lowered(wire) == [EvalSha("s", [], []), Sort("k")]
            && !Lowered(wire)[0].IsReadOnly() && !Lowered(wire)[1].IsReadOnly()
  {
    var ts, q := [PRIMARY, PRIMARY], [Pending(EvalShaRo("s", [], []), 0, 0), Pending(SortRo("k"), 1, 1)];
    PickAll(ts, q, {PRIMARY});
  }

  /** A refused first command: what the node would accept is refused from then on, and EXEC is never sent. */
  method StuckForGood() returns (batch: RedisBasedBatch, second: Option<string>)
    ensures fresh(batch) && batch.refuses(Del([])).None? && second.Some?
    ensures batch.executed && batch.link.tx.Some?
  {
    batch := new RedisBasedBatch(Idle(), BatchOptions(true, false, 0, false, 0, 0),
                                 (c: RedisCommand) => if c.Get? then Some("ERR") else None, EMPTY);
    var first := batch.Async0(Pending(Get("k"), 0, 0));
    second := batch.Async0(Pending(Del([]), 1, 1));
    var result, sends := batch.ExecuteAsync(Commits, Ok(Null));
  }

  // ---------- Scripts ----------

  /** A loaded script that answers with the text NOSCRIPT runs twice. */
  method ScriptRunsTwice() returns (client: EvalAsync.Client)
    ensures fresh(client) && |client.runs| > 1
  {
    var sem := Idle().(body := (_, _, _, d) => (Err(EvalAsync.MISSING), d));
    var remote := EvalAsync.Remote(sem, true, EvalAsync.UNKNOWN, None, sem.body);
    client := new EvalAsync.Client(remote, Node(map[], map["s" := "s"]), true);
    assert EvalAsync.At(EvalAsync.UNKNOWN, 0, EvalAsync.UNKNOWN);
    assert EvalAsync.At(EvalAsync.MISSING, 0, EvalAsync.MISSING);
    var r := client.EvalAsync(true, false, "s", [], []);
  }

  // ---------- Publish/subscribe ----------

  /** A refused subscription, then a successful one: the listener waits for a pattern the server was never asked for. */
  method DeafListener() returns (service: PubSub.PublishSubscribeService, ok: bool)
    ensures fresh(service) && ok && !service.Mirrored()
    ensures "p" in service.tables.patterns && service.tables.patterns["p"] != [] && "p" !in service.server.patterns
  {
    var l := PubSub.Listener(0, "p");
    service := new PubSub.PublishSubscribeService(false, {});
    ok := service.Psubscribe("p", [l], true, false, {});
    ok := service.Psubscribe("p", [l], true, true, {});
  }

  function AtPrimary(): Dispatch.Homes {
    _ => PRIMARY
  }

  /** One listener each on two patterns of a deployment that is no cluster. */
  method TwoTopics(a: string, b: string) returns (service: PubSub.PublishSubscribeService)
    requires a != b
    ensures fresh(service) && service.Valid() && service.Mirrored() && PubSub.Named(service.tables)
    ensures !service.cluster && service.server.patterns == {a, b}
    ensures HasOne(service.tables, a) && HasOne(service.tables, b)
  {
    service := new PubSub.PublishSubscribeService(false, {});
    hide PubSub.IsKeyspace, PubSub.Mirrors, PubSub.Filed, PubSub.Named;
    var ok := service.Psubscribe(a, [PubSub.Listener(0, a)], true, true, {});
    ok := service.Psubscribe(b, [PubSub.Listener(1, b)], true, true, {});
    assert {} + {a} + {b} == {a, b};
  }

  /** `p` has one listener, in the table it belongs to. */
  predicate HasOne(tables: PubSub.Tables, p: string) {
    if PubSub.IsKeyspace(p) then p in tables.keyspace && |tables.keyspace[p]| == 1
    else p in tables.patterns && |tables.patterns[p]| == 1
  }

  lemma TwoMessages(
    server: PubSub.Subscriptions, home: Dispatch.Homes, at: set<Server>, channel: string, a: string, b: string)
    requires a != b && server.patterns == {a, b} && Glob.Matches(a, channel) && Glob.Matches(b, channel)
    ensures |Dispatch.MessagesOn(server, false, home, at, channel)| == 2
  {
    hide Glob.Matches;
    assert Dispatch.MessagesOn(server, false, home, at, channel)
        == {Dispatch.Message(None, a, channel), Dispatch.Message(None, b, channel)};
  }

  /** Two patterns that match every channel: both listeners hear every publication twice. */
  method HeardTwice(channel: string, message: string) returns (calls: seq<Dispatch.Call>)
    requires !Dispatch.IsNotification(channel)
    ensures |Dispatch.Under(calls, "*")| == 2 && |Dispatch.Under(calls, "**")| == 2
  {
    KindsDiffer();
    var service := TwoTopics("*", "**");
    Glob.StarMatchesAll(channel);
    Glob.TwoStarsMatchAll(channel);
    TwoMessages(service.server, AtPrimary(), {}, channel, "*", "**");
    hide PubSub.IsKeyspace, Glob.Matches, Dispatch.Under, Dispatch.MessagesOn;
    calls := Dispatch.Publish(service.tables, service.server, false, {}, AtPrimary(), channel, message);
  }

  lemma StarAfter(head: string, rest: string)
    requires '*' !in head && '?' !in head
    ensures Glob.Matches(head + "*", head + rest)
  {
    Glob.LiteralMatchesItself(head, 0, head, 0);
    Glob.StarMatchesAll(rest);
    Glob.MatchSplits(head, "*", head + rest);
    assert (head + rest)[..|head|] == head && (head + rest)[|head|..] == rest && head[0..] == head;
  }

  const SPACE := "__keyspace@" + "*"
  const EVENT := "__keyevent@" + "*"

  lemma KindsDiffer()
    ensures SPACE != EVENT && PubSub.IsKeyspace(SPACE) && PubSub.IsKeyspace(EVENT)
    ensures "*" != SPACE && !PubSub.IsKeyspace("*") && !PubSub.IsKeyspace("**")
  {
    assert SPACE[5] == 's' && EVENT[5] == 'e';
    assert SPACE[..10] == "__keyspace" && EVENT[..10] == "__keyevent";
  }

  lemma OwnFormsMatch(db: string, operation: string, key: string)
    ensures Glob.Matches(SPACE, Dispatch.KeyspaceChannel(db, key))
    ensures Glob.Matches(EVENT, Dispatch.KeyeventChannel(db, operation))
    ensures !Glob.Matches(SPACE, Dispatch.KeyeventChannel(db, operation))
    ensures !Glob.Matches(EVENT, Dispatch.KeyspaceChannel(db, key))
  {
    StarAfter("__keyspace@", db + "__:" + key);
    StarAfter("__keyevent@", db + "__:" + operation);
    assert "__keyspace@" + (db + "__:" + key) == Dispatch.KeyspaceChannel(db, key);
    assert "__keyevent@" + (db + "__:" + operation) == Dispatch.KeyeventChannel(db, operation);
    hide Glob.Matches;
    KindsDiffer();
    Dispatch.OwnFormOnly(SPACE, db, operation, key);
    Dispatch.OwnFormOnly(EVENT, db, operation, key);
  }

  lemma EventMessagesAre(
    server: PubSub.Subscriptions, home: Dispatch.Homes, n: Server, forms: set<string>, sent: set<Dispatch.Message>)
    requires forall message :: message in sent <==>
               && message.via == None && message.pattern in server.patterns && message.channel in forms
               && Glob.Matches(message.pattern, message.channel)
    ensures Dispatch.EventMessages(server, false, home, n, forms) == sent
  {
    hide Glob.Matches;
    var all := Dispatch.EventMessages(server, false, home, n, forms);
    forall message ensures message in all <==> message in sent {
      if message in sent {
        assert message == Dispatch.Message(None, message.pattern, message.channel);
        assert message in Dispatch.MessagesOn(server, false, home, {n}, message.channel);
      }
    }
  }

  /** One pattern of each kind, which no channel matches both of: both listeners hear every event twice. */
  method EventHeardTwice(db: string, operation: string, key: string) returns (calls: seq<Dispatch.Call>)
    ensures |Dispatch.Under(calls, SPACE)| == 2 && |Dispatch.Under(calls, EVENT)| == 2
  {
    KindsDiffer();
    OwnFormsMatch(db, operation, key);
    hide PubSub.IsKeyspace, Glob.Matches, Dispatch.Under, Dispatch.EventMessages, Dispatch.KeyspaceChannel,
         Dispatch.KeyeventChannel;
    var service := TwoTopics(SPACE, EVENT);
    var space, event := Dispatch.KeyspaceChannel(db, key), Dispatch.KeyeventChannel(db, operation);
    ghost var sent := {Dispatch.Message(None, SPACE, space), Dispatch.Message(None, EVENT, event)};
    EventMessagesAre(service.server, AtPrimary(), PRIMARY, {space, event}, sent);
    calls := Dispatch.PublishEvent(service.tables, service.server, false, PRIMARY, AtPrimary(), db, operation, key,
                                   {space, event});
  }

  /**
    A keyspace pattern beside the ordinary pattern `*`, events published in their keyspace form only: the keyspace
    listener hears every event twice, once for each pattern's message, and the ordinary listener never.
  */
  method OrdinaryPatternDoubles(db: string, operation: string, key: string) returns (calls: seq<Dispatch.Call>)
    ensures |Dispatch.Under(calls, SPACE)| == 2 && |Dispatch.Under(calls, "*")| == 0
  {
    KindsDiffer();
    OwnFormsMatch(db, operation, key);
    Glob.StarMatchesAll(Dispatch.KeyspaceChannel(db, key));
    hide PubSub.IsKeyspace, Glob.Matches, Dispatch.Under, Dispatch.EventMessages, Dispatch.KeyspaceChannel,
         Dispatch.KeyeventChannel;
    var service := TwoTopics("*", SPACE);
    var space := Dispatch.KeyspaceChannel(db, key);
    ghost var sent := {Dispatch.Message(None, "*", space), Dispatch.Message(None, SPACE, space)};
    EventMessagesAre(service.server, AtPrimary(), PRIMARY, {space}, sent);
    calls := Dispatch.PublishEvent(service.tables, service.server, false, PRIMARY, AtPrimary(), db, operation, key,
                                   {space});
  }
}
