/** Executing a queued batch: scatter by node, load scripts, run the node jobs, gather the replies. */
module BatchExecution {
  import opened Commands
  import opened Options
  import opened Redis
  import opened Topology
  import opened Grouping
  import opened NodeJob
  import opened LoadScripts
  import opened BatchMeaning
  import opened Endpoints
  import ScriptCaches

  datatype BatchResult = BatchResult(responses: seq<Value>, syncedSlaves: int)

  /** The client's belief about every node is right. */
  ghost predicate Trusted(sem: Semantics, cache: Belief, w: World) {
    && AllWellFormed(sem, w)
    && forall s :: s in w ==> Known(cache, s) <= w[s].scripts.Keys
  }

  /** Since the start from `w0`, no node has lost a script and the client has come to believe nothing that is not so. */
  ghost predicate Kept(x: Setting, w0: World, cache: Belief, w: World) {
    && AllWellFormed(x.sem, w) && w.Keys == w0.Keys
    && (forall s :: s in w ==> w0[s].scripts.Keys <= w[s].scripts.Keys)
    && (forall s :: s in w ==> Known(cache, s) <= Known(x.belief, s) + w[s].scripts.Keys)
  }

  /** So a belief that was right stays right. */
  lemma KeptStaysTrusted(x: Setting, w0: World, cache: Belief, w: World)
    requires Trusted(x.sem, x.belief, w0) && Kept(x, w0, cache, w)
    ensures Trusted(x.sem, cache, w)
  {
    forall s | s in w ensures Known(cache, s) <= w[s].scripts.Keys {
      assert Known(x.belief, s) <= w0[s].scripts.Keys <= w[s].scripts.Keys;
    }
  }

  lemma NothingKept(x: Setting, w: World)
    requires AllWellFormed(x.sem, w)
    ensures Kept(x, w, x.belief, w)
  {}

  // ---------- Running keeps scripts ----------

  lemma {:induction false} RunAllKeepsScripts(sem: Semantics, cs: seq<RedisCommand>, n: Node)
    requires n.WellFormed(sem)
    ensures var n' := RunAll(sem, cs, n).1; n'.WellFormed(sem) && n.scripts.Keys <= n'.scripts.Keys
  {
    if cs != [] {
      HeldAfter(sem, cs[0], n);
      RunAllKeepsScripts(sem, cs[1..], RunOne(sem, cs[0], n).1);
    }
  }

  // ---------- Picking ----------

  lemma {:induction false} PickDistinct(ts: seq<Server>, ps: seq<(nat, Value)>, on: set<Server>)
    requires |ts| == |ps| && DistinctIndexes(ps)
    ensures DistinctIndexes(Pick(ts, ps, on))
  {
    if ts != [] {
      PickDistinct(ts[1..], ps[1..], on);
      forall r | r in Pick(ts[1..], ps[1..], on) ensures r.0 != ps[0].0 {
        assert r in ps[1..];
      }
    }
  }

  /** Nothing is missing from a pick exactly when every position's node is among the picked ones. */
  lemma {:induction false} PickLengthIff<T>(ts: seq<Server>, xs: seq<T>, on: set<Server>)
    requires |ts| == |xs|
    ensures |Pick(ts, xs, on)| <= |xs|
    ensures |Pick(ts, xs, on)| == |xs| <==> forall t :: t in ts ==> t in on
  {
    if ts != [] {
      PickLengthIff(ts[1..], xs[1..], on);
      assert ts[0] in ts && forall t :: t in ts[1..] ==> t in ts;
    }
  }

  // ---------- Loading scripts on every node ----------

  ghost predicate Covered(ts: seq<Server>, q: seq<Pending>, groups: map<Server, Group>, w: World)
    requires |ts| == |q|
  {
    && (forall s :: s in groups <==> s in ts)
    && (forall s :: s in groups ==> s in w && groups[s].commands == Pick(ts, q, {s}))
  }

  function WithScripts(x: Setting, s: Server, cs: seq<RedisCommand>, n: Node): Node {
    if x.useScriptCache then Supplied(x.sem, cs, Known(x.belief, s), n) else n
  }

  lemma NodeReady(x: Setting, ts: seq<Server>, q: seq<Pending>, w: World, s: Server)
    requires |ts| == |q| && s in w
    ensures Ready(x.sem, x.useScriptCache, x.belief, ts, CommandsOf(q), w)[s]
            == WithScripts(x, s, CommandsOf(Pick(ts, q, {s})), w[s])
  {
    PickCommands(ts, q, {s});
  }

  lemma OthersReady(x: Setting, ts: seq<Server>, q: seq<Pending>, w: World, s: Server)
    requires |ts| == |q| && s in w && (s !in ts || !x.useScriptCache)
    ensures Ready(x.sem, x.useScriptCache, x.belief, ts, CommandsOf(q), w)[s] == w[s]
  {
    if x.useScriptCache {
      PickNone(ts, CommandsOf(q), {s});
      assert w[s].scripts + (map[] - Known(x.belief, s)) == w[s].scripts;
    }
  }

  lemma StaysKept(x: Setting, w0: World, cache: Belief, w: World, cache': Belief, s: Server, node: Node)
    requires Kept(x, w0, cache, w) && s in w && node.WellFormed(x.sem) && w[s].scripts.Keys <= node.scripts.Keys
    requires Known(cache', s) <= Known(cache, s) + node.scripts.Keys
    requires forall t :: t != s ==> Known(cache', t) == Known(cache, t)
    ensures Kept(x, w0, cache', w[s := node])
  {
    hide Known, Node.WellFormed;
  }

  /** The nodes in `wires` are ready, the others untouched, and `wires` holds their commands as sent. */
  ghost predicate LoadedSoFar(
    x: Setting, ts: seq<Server>, q: seq<Pending>, w: World, w': World, wires: map<Server, seq<RedisCommand>>)
    requires |ts| == |q|
  {
    && w'.Keys == w.Keys
    && (forall s :: s in w ==>
          w'[s] == if s in wires then Ready(x.sem, x.useScriptCache, x.belief, ts, CommandsOf(q), w)[s] else w[s])
    && (forall s :: s in wires ==> wires[s] == Wire(x.sem, x.useScriptCache, CommandsOf(Pick(ts, q, {s}))))
  }

  lemma OneMoreLoaded(
    x: Setting, ts: seq<Server>, q: seq<Pending>, w: World, w': World, wires: map<Server, seq<RedisCommand>>,
    s: Server, node: Node)
    requires |ts| == |q| && LoadedSoFar(x, ts, q, w, w', wires) && s in w
    requires node == Ready(x.sem, x.useScriptCache, x.belief, ts, CommandsOf(q), w)[s]
    ensures LoadedSoFar(x, ts, q, w, w'[s := node],
                        wires[s := Wire(x.sem, x.useScriptCache, CommandsOf(Pick(ts, q, {s})))])
  {
    hide Ready, Wire, CommandsOf, Pick;
  }

  lemma AllLoaded(
    x: Setting, ts: seq<Server>, q: seq<Pending>, w: World, w': World, wires: map<Server, seq<RedisCommand>>)
    requires |ts| == |q| && LoadedSoFar(x, ts, q, w, w', wires)
    requires forall t :: t in ts ==> t in wires
    ensures w' == Ready(x.sem, x.useScriptCache, x.belief, ts, CommandsOf(q), w)
  {
    hide Wire, CommandsOf, Pick;
    forall s | s in w && s !in wires { OthersReady(x, ts, q, w, s); }
  }

  ghost predicate SameData(w: World, w': World) {
    w'.Keys == w.Keys && forall s :: s in w ==> w'[s].data == w[s].data
  }

  lemma LoadedKeepsData(
    x: Setting, ts: seq<Server>, q: seq<Pending>, w: World, w': World, wires: map<Server, seq<RedisCommand>>)
    requires |ts| == |q| && LoadedSoFar(x, ts, q, w, w', wires)
    ensures SameData(w, w')
  {
    hide Wire, CommandsOf, Pick;
  }

  /** No script that has to be loaded on `server` is refused there. */
  ghost predicate GroupLoadable(x: Setting, known: set<string>, cs: seq<RedisCommand>, server: Server) {
    x.useScriptCache ==> Loadable(x.sem, cs, known, x.refused(server))
  }

  /** The scripts a node is known to hold once it is readied for `cs`. */
  function LoadedFor(x: Setting, cs: seq<RedisCommand>): set<string> {
    if x.useScriptCache then Carried(x.sem, cs).Keys else {}
  }

  method LoadGroup(
    x: Setting, sm: ScriptCaches.ServiceManager, server: Server, node: Node, cs: seq<RedisCommand>)
    returns (ok: bool, node': Node, cs': seq<RedisCommand>)
    requires sm.Valid() && sm.sha1 == x.sem.sha1 && CollisionFree(x.sem) && node.WellFormed(x.sem)
    requires Known(sm.scriptShaCache, server) == Known(x.belief, server)
    modifies sm
    ensures sm.Valid() && node'.WellFormed(x.sem) && node.scripts.Keys <= node'.scripts.Keys && node'.data == node.data
    ensures Known(sm.scriptShaCache, server) <= Known(old(sm.scriptShaCache), server) + node'.scripts.Keys
    ensures forall s :: s != server ==> Known(sm.scriptShaCache, s) == Known(old(sm.scriptShaCache), s)
    ensures ok ==> cs' == Wire(x.sem, x.useScriptCache, cs) && node' == WithScripts(x, server, cs, node)
    ensures ok ==> Known(sm.scriptShaCache, server) == Known(x.belief, server) + LoadedFor(x, cs)
    ensures ok <==> GroupLoadable(x, Known(x.belief, server), cs, server)
  {
    ok, node', cs' := true, node, cs;
    if x.useScriptCache {
      ghost var toLoad, loaded;
      ok, node', cs', toLoad, loaded := LoadOnNode(x.sem, sm, server, node, cs, x.refused(server));
    }
  }

  /** Scripts are loaded everywhere but on `todo`, where nothing is known that was not before; the belief is right. */
  ghost predicate Loading(
    x: Setting, cache: Belief, ts: seq<Server>, q: seq<Pending>, w: World, todo: set<Server>,
    w': World, wires: map<Server, seq<RedisCommand>>)
    requires |ts| == |q|
  {
    && (forall s :: s in todo ==> s in ts)
    && (forall s :: Known(cache, s) == Known(x.belief, s)
                    + if s in wires then LoadedFor(x, CommandsOf(Pick(ts, q, {s}))) else {})
    && (forall s :: s in wires <==> s in ts && s !in todo)
    && (forall s :: s in wires ==> GroupLoadable(x, Known(x.belief, s), CommandsOf(Pick(ts, q, {s})), s))
    && Kept(x, w, cache, w') && LoadedSoFar(x, ts, q, w, w', wires)
  }

  lemma LoadingStarts(x: Setting, ts: seq<Server>, q: seq<Pending>, w: World, todo: set<Server>)
    requires |ts| == |q| && AllWellFormed(x.sem, w) && forall s :: s in todo <==> s in ts
    ensures Loading(x, x.belief, ts, q, w, todo, w, map[])
  {
    NothingKept(x, w);
    hide Known, Kept, Pick, GroupLoadable, LoadedFor, Ready, Wire;
  }

  lemma LoadingAt(
    x: Setting, cache: Belief, ts: seq<Server>, q: seq<Pending>, w: World, todo: set<Server>,
    w': World, wires: map<Server, seq<RedisCommand>>, s: Server)
    requires |ts| == |q| && Loading(x, cache, ts, q, w, todo, w', wires) && s in todo && s in w
    ensures s in ts && s in w' && w'[s] == w[s] && w[s].WellFormed(x.sem)
    ensures Kept(x, w, cache, w')
    ensures Known(cache, s) == Known(x.belief, s)
  {
    hide Known, Node.WellFormed, Ready, GroupLoadable;
  }

  lemma LoadingKeepsData(
    x: Setting, cache: Belief, ts: seq<Server>, q: seq<Pending>, w: World, todo: set<Server>,
    w': World, wires: map<Server, seq<RedisCommand>>, s: Server, node: Node)
    requires |ts| == |q| && Loading(x, cache, ts, q, w, todo, w', wires) && s in w && node.data == w[s].data
    ensures SameData(w, w'[s := node])
  {
    LoadedKeepsData(x, ts, q, w, w', wires);
  }

  lemma LoadingContinues(
    x: Setting, cache: Belief, ts: seq<Server>, q: seq<Pending>, w: World, todo: set<Server>, w': World,
    wires: map<Server, seq<RedisCommand>>, cache': Belief, s: Server)
    requires |ts| == |q| && Loading(x, cache, ts, q, w, todo, w', wires) && s in todo && s in w
    requires forall t :: t != s ==> Known(cache', t) == Known(cache, t)
    requires GroupLoadable(x, Known(x.belief, s), CommandsOf(Pick(ts, q, {s})), s)
    requires Known(cache', s) == Known(x.belief, s) + LoadedFor(x, CommandsOf(Pick(ts, q, {s})))
    requires var node := WithScripts(x, s, CommandsOf(Pick(ts, q, {s})), w[s]);
             Kept(x, w, cache', w'[s := node])
    ensures var node := WithScripts(x, s, CommandsOf(Pick(ts, q, {s})), w[s]);
            Loading(x, cache', ts, q, w, todo - {s}, w'[s := node],
                    wires[s := Wire(x.sem, x.useScriptCache, CommandsOf(Pick(ts, q, {s})))])
  {
    hide Ready, Wire, WithScripts, CommandsOf, Pick, Kept, GroupLoadable, Known;
    NodeReady(x, ts, q, w, s);
    var node := WithScripts(x, s, CommandsOf(Pick(ts, q, {s})), w[s]);
    OneMoreLoaded(x, ts, q, w, w', wires, s, node);
    hide LoadedSoFar;
  }

  lemma LoadingEnds(
    x: Setting, cache: Belief, ts: seq<Server>, q: seq<Pending>, w: World, w': World,
    wires: map<Server, seq<RedisCommand>>)
    requires |ts| == |q| && Loading(x, cache, ts, q, w, {}, w', wires)
    ensures forall s :: s in wires <==> s in ts
    ensures forall s :: s in ts ==> GroupLoadable(x, Known(x.belief, s), CommandsOf(Pick(ts, q, {s})), s)
    ensures Kept(x, w, cache, w') && LoadedSoFar(x, ts, q, w, w', wires)
  {
    hide Known, Kept, Pick, GroupLoadable, LoadedFor, LoadedSoFar;
  }

  /** The client takes each node to hold what it took it to hold, and the scripts of the EVALs queued for it. */
  ghost predicate Remembered(x: Setting, ts: seq<Server>, q: seq<Pending>, cache: Belief)
    requires |ts| == |q|
  {
    forall s, h :: h in Known(cache, s) <==>
      || h in Known(x.belief, s)
      || (x.useScriptCache
          && exists i :: 0 <= i < |q| && ts[i] == s && q[i].cmd.Eval? && x.sem.sha1(q[i].cmd.script) == h)
  }

  lemma QueuedFor(x: Setting, ts: seq<Server>, q: seq<Pending>, s: Server, h: string)
    requires |ts| == |q|
    ensures h in Carried(x.sem, CommandsOf(Pick(ts, q, {s}))) <==>
              exists i :: 0 <= i < |q| && ts[i] == s && q[i].cmd.Eval? && x.sem.sha1(q[i].cmd.script) == h
  {
    var ps := Pick(ts, q, {s});
    CarriedKeys(x.sem, CommandsOf(ps), h);
    forall i | 0 <= i < |q| && ts[i] == s ensures exists k :: 0 <= k < |ps| && ps[k] == q[i] {
      InOwnGroup(ts, q, i);
    }
    forall k | 0 <= k < |ps| ensures exists i :: 0 <= i < |ts| && ts[i] == s && q[i] == ps[k] {
      PickedFrom(ts, q, s, ps[k]);
    }
    hide Carried, Pick;
  }

  lemma AllRemembered(
    x: Setting, cache: Belief, ts: seq<Server>, q: seq<Pending>, w: World, w': World,
    wires: map<Server, seq<RedisCommand>>)
    requires |ts| == |q| && Loading(x, cache, ts, q, w, {}, w', wires)
    ensures Remembered(x, ts, q, cache)
  {
    forall s, h { QueuedFor(x, ts, q, s, h); }
    forall s, h | s !in ts ensures h !in Carried(x.sem, CommandsOf(Pick(ts, q, {s}))) {
      PickNone(ts, q, {s});
    }
    hide Carried, Pick, CommandsOf, Kept, LoadedSoFar, Known, GroupLoadable;
  }

  /** `load_scripts` over all groups, in whatever order they come; it succeeds exactly if every group can be loaded. */
  method LoadEverywhere(
    x: Setting, sm: ScriptCaches.ServiceManager, ghost ts: seq<Server>, ghost q: seq<Pending>,
    groups: map<Server, Group>, w: World)
    returns (ok: bool, w': World, wires: map<Server, seq<RedisCommand>>)
    requires sm.Valid() && sm.sha1 == x.sem.sha1 && CollisionFree(x.sem)
    requires |ts| == |q| && Covered(ts, q, groups, w) && x.belief == sm.scriptShaCache && AllWellFormed(x.sem, w)
    modifies sm
    ensures sm.Valid() && Kept(x, w, sm.scriptShaCache, w') && SameData(w, w')
    ensures ok ==> w' == Ready(x.sem, x.useScriptCache, x.belief, ts, CommandsOf(q), w)
    ensures ok ==> Remembered(x, ts, q, sm.scriptShaCache)
    ensures ok ==> wires.Keys == groups.Keys && LoadedSoFar(x, ts, q, w, w', wires)
    ensures ok <==> forall s :: s in ts ==>
              GroupLoadable(x, Known(x.belief, s), CommandsOf(Pick(ts, q, {s})), s)
  {
    hide Ready, Wire, CommandsOf, Pick, CollisionFree, WithScripts, Known, Kept, GroupLoadable, SameData,
         LoadedFor, Remembered, Loading, LoadedSoFar;
    ok, w', wires := true, w, map[];
    var todo := groups.Keys;
    LoadingStarts(x, ts, q, w, todo);
    while todo != {}
      invariant todo <= groups.Keys && sm.Valid()
      invariant Loading(x, sm.scriptShaCache, ts, q, w, todo, w', wires)
    {
      ghost var cache := sm.scriptShaCache;
      var s :| s in todo;
      LoadingAt(x, cache, ts, q, w, todo, w', wires, s);
      var node, cs;
      ok, node, cs := LoadGroup(x, sm, s, w'[s], CommandsOf(groups[s].commands));
      StaysKept(x, w, cache, w', sm.scriptShaCache, s, node);
      if !ok {
        LoadingKeepsData(x, cache, ts, q, w, todo, w', wires, s, node);
        w' := w'[s := node];
        return;
      }
      LoadingContinues(x, cache, ts, q, w, todo, w', wires, sm.scriptShaCache, s);
      todo, w', wires := todo - {s}, w'[s := node], wires[s := cs];
    }
    LoadingEnds(x, sm.scriptShaCache, ts, q, w, w', wires);
    AllLoaded(x, ts, q, w, w', wires);
    AllRemembered(x, sm.scriptShaCache, ts, q, w, w', wires);
    LoadedKeepsData(x, ts, q, w, w', wires);
  }

  // ---------- Running the node jobs ----------

  /** The share of node `s` in the whole: its callers' answers, its indexed values, and its final state. */
  ghost function JobOf(x: Setting, ts: seq<Server>, q: seq<Pending>, replies: seq<Reply>, s: Server): JobResult
    requires |ts| == |q| == |replies|
  {
    if Fails(x.opts, x.fates(s)) then JobFailed
    else JobDone(SyncedSlaves(x.opts, x.waits(s)),
                 if Reports(x.opts, x.fates(s)) then Pick(ts, Pairs(x.sem, x.opts, q, replies), {s}) else [])
  }

  ghost function NodeEnd(x: Setting, ready: World, last: World, s: Server): Node
    requires s in ready && s in last
  {
    if x.opts.atomic && x.fates(s) != Commits then ready[s] else last[s]
  }

  ghost function Answered(x: Setting, on: set<Server>): set<Server> {
    set s | s in on && !Fails(x.opts, x.fates(s))
  }

  lemma JobOnNode(x: Setting, ts: seq<Server>, q: seq<Pending>, wire: seq<RedisCommand>, ready: World, s: Server)
    requires |ts| == |q| == |wire| && Covers(ready, ts) && s in ready
    ensures var (replies, last) := SeqRun(x.sem, ts, wire, ready);
            var ps, cs := Pick(ts, q, {s}), Pick(ts, wire, {s});
            var rs := RunAll(x.sem, Lowered(cs), ready[s]).0;
            && |cs| == |ps| == |rs|
            && NodeAfter(x.sem, x.opts, Lowered(cs), ready[s], x.fates(s)) == NodeEnd(x, ready, last, s)
            && Combine(Sends(x.sem, x.opts, x.fates(s)), ps, rs)
               == Pick(ts, Owed(x.sem, x.opts, x.fates, ts, q, replies), {s})
            && Combine(Indexed(x.sem, x.opts), ps, rs) == Pick(ts, Pairs(x.sem, x.opts, q, replies), {s})
  {
    var (replies, last) := SeqRun(x.sem, ts, wire, ready);
    SeqRunOnNode(x.sem, ts, wire, ready, s);
    PickSameLength(ts, q, wire, {s});
    OwedByNode(x.sem, x.opts, x.fates, ts, q, replies, s);
    PickCombine(Indexed(x.sem, x.opts), ts, q, replies, {s});
  }

  /** The nodes with a finished job are where the job leaves them, and `jobs` are the jobs' results. */
  ghost predicate NodesRan(
    x: Setting, ts: seq<Server>, q: seq<Pending>, replies: seq<Reply>, ready: World, last: World,
    w: World, jobs: map<Server, JobResult>)
    requires |ts| == |q| == |replies| && ready.Keys == last.Keys
  {
    && w.Keys == ready.Keys
    && (forall s :: s in ready ==> w[s] == if s in jobs then NodeEnd(x, ready, last, s) else ready[s])
    && (forall s :: s in jobs ==> jobs[s] == JobOf(x, ts, q, replies, s))
  }

  /** The callers on the nodes `on` whose jobs did not fail have their answers, once each. */
  ghost predicate Sent(
    x: Setting, ts: seq<Server>, q: seq<Pending>, replies: seq<Reply>, on: set<Server>, sends: seq<(nat, Answer)>)
    requires |ts| == |q| == |replies|
  {
    multiset(sends) == multiset(Pick(ts, Owed(x.sem, x.opts, x.fates, ts, q, replies), Answered(x, on)))
  }

  lemma NothingSent(x: Setting, ts: seq<Server>, q: seq<Pending>, replies: seq<Reply>)
    requires |ts| == |q| == |replies|
    ensures Sent(x, ts, q, replies, {}, [])
  {
    PickNone(ts, Owed(x.sem, x.opts, x.fates, ts, q, replies), {});
    assert Answered(x, {}) == {};
  }

  lemma OneMoreSent(
    x: Setting, ts: seq<Server>, q: seq<Pending>, replies: seq<Reply>, on: set<Server>, sends: seq<(nat, Answer)>,
    s: Server, more: seq<(nat, Answer)>)
    requires |ts| == |q| == |replies| && s !in on && Sent(x, ts, q, replies, on, sends)
    requires more == if Fails(x.opts, x.fates(s)) then []
                     else Pick(ts, Owed(x.sem, x.opts, x.fates, ts, q, replies), {s})
    ensures Sent(x, ts, q, replies, on + {s}, sends + more)
  {
    hide Pick, Owed;
    var owed := Owed(x.sem, x.opts, x.fates, ts, q, replies);
    if Fails(x.opts, x.fates(s)) {
      assert Answered(x, on + {s}) == Answered(x, on);
      assert sends + more == sends;
    } else {
      assert Answered(x, on + {s}) == Answered(x, on) + {s};
      PickAnother(ts, owed, Answered(x, on), s);
    }
  }

  lemma OneMoreRan(
    x: Setting, ts: seq<Server>, q: seq<Pending>, replies: seq<Reply>, ready: World, last: World,
    w: World, jobs: map<Server, JobResult>, s: Server)
    requires |ts| == |q| == |replies| && ready.Keys == last.Keys && s in ready
    requires NodesRan(x, ts, q, replies, ready, last, w, jobs)
    ensures NodesRan(x, ts, q, replies, ready, last, w[s := NodeEnd(x, ready, last, s)],
                     jobs[s := JobOf(x, ts, q, replies, s)])
  {
    hide NodeEnd, JobOf;
  }

  method RunGroup(
    x: Setting, ghost ts: seq<Server>, ghost q: seq<Pending>, ghost wire: seq<RedisCommand>, ghost ready: World,
    s: Server, ps: seq<Pending>, cs: seq<RedisCommand>, node: Node)
    returns (job: JobResult, more: seq<(nat, Answer)>, node': Node)
    requires |ts| == |q| == |wire| && Covers(ready, ts) && s in ready && node == ready[s]
    requires ps == Pick(ts, q, {s}) && cs == Pick(ts, wire, {s})
    ensures var (replies, last) := SeqRun(x.sem, ts, wire, ready);
            && job == JobOf(x, ts, q, replies, s) && node' == NodeEnd(x, ready, last, s)
            && more == if Fails(x.opts, x.fates(s)) then []
                       else Pick(ts, Owed(x.sem, x.opts, x.fates, ts, q, replies), {s})
  {
    hide Pick, SeqRun, RunAll, Owed, Combine, NodeAfter, NodeEnd;
    JobOnNode(x, ts, q, wire, ready, s);
    job, more, node' := RunJob(x.sem, x.opts, ps, cs, node, x.fates(s), x.waits(s));
  }

  /** The jobs of all nodes but those in `todo` have run. */
  ghost predicate Progress(
    x: Setting, ts: seq<Server>, q: seq<Pending>, wire: seq<RedisCommand>, ready: World, todo: set<Server>,
    w: World, jobs: map<Server, JobResult>, sends: seq<(nat, Answer)>)
    requires |ts| == |q| == |wire| && Covers(ready, ts)
  {
    var (replies, last) := SeqRun(x.sem, ts, wire, ready);
    && (forall s :: s in todo ==> s in ts)
    && (forall s :: s in jobs <==> s in ts && s !in todo)
    && NodesRan(x, ts, q, replies, ready, last, w, jobs) && Sent(x, ts, q, replies, jobs.Keys, sends)
  }

  lemma ProgressStarts(
    x: Setting, ts: seq<Server>, q: seq<Pending>, wire: seq<RedisCommand>, ready: World, todo: set<Server>)
    requires |ts| == |q| == |wire| && Covers(ready, ts) && forall s :: s in todo <==> s in ts
    ensures Progress(x, ts, q, wire, ready, todo, ready, map[], [])
  {
    NothingSent(x, ts, q, SeqRun(x.sem, ts, wire, ready).0);
    var none: map<Server, JobResult> := map[];
    assert none.Keys == {};
    hide Sent, SeqRun;
  }

  lemma ProgressContinues(
    x: Setting, ts: seq<Server>, q: seq<Pending>, wire: seq<RedisCommand>, ready: World, todo: set<Server>,
    w: World, jobs: map<Server, JobResult>, sends: seq<(nat, Answer)>, s: Server, more: seq<(nat, Answer)>)
    requires |ts| == |q| == |wire| && Covers(ready, ts) && s in todo
    requires Progress(x, ts, q, wire, ready, todo, w, jobs, sends)
    requires var (replies, last) := SeqRun(x.sem, ts, wire, ready);
             s in ready && more == if Fails(x.opts, x.fates(s)) then []
                     else Pick(ts, Owed(x.sem, x.opts, x.fates, ts, q, replies), {s})
    ensures var (replies, last) := SeqRun(x.sem, ts, wire, ready);
            s in ready && Progress(x, ts, q, wire, ready, todo - {s}, w[s := NodeEnd(x, ready, last, s)],
                     jobs[s := JobOf(x, ts, q, replies, s)], sends + more)
  {
    var (replies, last) := SeqRun(x.sem, ts, wire, ready);
    OneMoreRan(x, ts, q, replies, ready, last, w, jobs, s);
    OneMoreSent(x, ts, q, replies, jobs.Keys, sends, s, more);
    assert jobs[s := JobOf(x, ts, q, replies, s)].Keys == jobs.Keys + {s};
    hide Sent, NodesRan, Pick, SeqRun, Owed, NodeEnd, JobOf;
  }

  lemma ProgressAt(
    x: Setting, ts: seq<Server>, q: seq<Pending>, wire: seq<RedisCommand>, ready: World, todo: set<Server>,
    w: World, jobs: map<Server, JobResult>, sends: seq<(nat, Answer)>, s: Server)
    requires |ts| == |q| == |wire| && Covers(ready, ts) && s in todo
    requires Progress(x, ts, q, wire, ready, todo, w, jobs, sends)
    ensures s in ts && s in ready && s in w && w[s] == ready[s]
  {}

  /** The nodes `cut` have run their shares too, but nobody has been told. */
  ghost predicate CutOff(
    x: Setting, ts: seq<Server>, wire: seq<RedisCommand>, ready: World, finished: World, w: World, cut: set<Server>)
    requires |ts| == |wire| && Covers(ready, ts) && finished.Keys == ready.Keys
  {
    var last := SeqRun(x.sem, ts, wire, ready).1;
    && w.Keys == ready.Keys && (forall s :: s in cut ==> s in ts)
    && forall s :: s in ready ==> w[s] == if s in cut then NodeEnd(x, ready, last, s) else finished[s]
  }

  lemma NoneCutOff(
    x: Setting, ts: seq<Server>, q: seq<Pending>, wire: seq<RedisCommand>, ready: World, todo: set<Server>,
    w: World, jobs: map<Server, JobResult>, sends: seq<(nat, Answer)>)
    requires |ts| == |q| == |wire| && Covers(ready, ts)
    requires Progress(x, ts, q, wire, ready, todo, w, jobs, sends)
    ensures w.Keys == ready.Keys && CutOff(x, ts, wire, ready, w, w, {})
    ensures forall s :: s in todo ==> s in ts && s in ready && w[s] == ready[s]
  {
    hide SeqRun, Sent;
  }

  lemma OneMoreCutOff(
    x: Setting, ts: seq<Server>, wire: seq<RedisCommand>, ready: World, finished: World, w: World, cut: set<Server>,
    s: Server)
    requires |ts| == |wire| && Covers(ready, ts) && finished.Keys == ready.Keys && s in ts
    requires CutOff(x, ts, wire, ready, finished, w, cut)
    ensures var last := SeqRun(x.sem, ts, wire, ready).1;
            s in ready && CutOff(x, ts, wire, ready, finished, w[s := NodeEnd(x, ready, last, s)], cut + {s})
  {
    hide SeqRun, NodeEnd;
  }

  /**
    Once a job has failed the others are cut off: any of them may still run on its node, but its callers are not told.
  */
  method CutOffRest(
    x: Setting, ghost ts: seq<Server>, ghost q: seq<Pending>, ghost wire: seq<RedisCommand>, groups: map<Server, Group>,
    wires: map<Server, seq<RedisCommand>>, ready: World, finished: World, unrun: set<Server>)
    returns (w: World, ghost cut: set<Server>)
    requires |ts| == |q| == |wire| && Covered(ts, q, groups, ready) && Covers(ready, ts)
    requires wires.Keys == groups.Keys && forall s :: s in groups ==> wires[s] == Pick(ts, wire, {s})
    requires finished.Keys == ready.Keys && CutOff(x, ts, wire, ready, finished, finished, {})
    requires forall s :: s in unrun ==> s in ts
    ensures cut <= unrun && CutOff(x, ts, wire, ready, finished, w, cut)
  {
    w, cut := finished, {};
    var todo := unrun;
    hide CutOff, Pick, SeqRun, Owed, NodeEnd, JobOf;
    while todo != {}
      invariant todo <= unrun && cut <= unrun
      invariant CutOff(x, ts, wire, ready, finished, w, cut)
      decreases todo
    {
      var s :| s in todo;
      todo := todo - {s};
      var reached: bool := *;
      if reached {
        var job, more, node := RunGroup(x, ts, q, wire, ready, s, groups[s].commands, wires[s], ready[s]);
        OneMoreCutOff(x, ts, wire, ready, finished, w, cut, s);
        w, cut := w[s := node], cut + {s};
      }
    }
  }

  /** Runs the jobs in any order; once one has failed some of the rest may still run, and the others are cut off. */
  method RunJobs(
    x: Setting, ghost ts: seq<Server>, ghost q: seq<Pending>, ghost wire: seq<RedisCommand>, groups: map<Server, Group>,
    wires: map<Server, seq<RedisCommand>>, ready: World)
    returns (
      w: World, jobs: map<Server, JobResult>, sends: seq<(nat, Answer)>, unrun: set<Server>, ghost finished: World,
      ghost cut: set<Server>)
    requires |ts| == |q| == |wire| && Covered(ts, q, groups, ready) && Covers(ready, ts)
    requires wires.Keys == groups.Keys && forall s :: s in groups ==> wires[s] == Pick(ts, wire, {s})
    ensures Progress(x, ts, q, wire, ready, unrun, finished, jobs, sends) && finished.Keys == ready.Keys
    ensures cut <= unrun && CutOff(x, ts, wire, ready, finished, w, cut)
    ensures unrun == {} || exists s :: s in jobs && jobs[s].JobFailed?
  {
    w, jobs, sends := ready, map[], [];
    var todo, aborted := groups.Keys, false;
    ProgressStarts(x, ts, q, wire, ready, todo);
    hide Progress, Pick, SeqRun, Owed, NodeEnd, JobOf;
    while todo != {} && !aborted
      invariant Progress(x, ts, q, wire, ready, todo, w, jobs, sends)
      invariant aborted ==> exists s :: s in jobs && jobs[s].JobFailed?
      decreases todo
    {
      var s :| s in todo;
      ProgressAt(x, ts, q, wire, ready, todo, w, jobs, sends, s);
      var job, more, node := RunGroup(x, ts, q, wire, ready, s, groups[s].commands, wires[s], w[s]);
      ProgressContinues(x, ts, q, wire, ready, todo, w, jobs, sends, s, more);
      todo, w, jobs, sends := todo - {s}, w[s := node], jobs[s := job], sends + more;
      if job.JobFailed? {
        assert s in jobs;
        aborted := *;
      }
    }
    unrun, finished := todo, w;
    NoneCutOff(x, ts, q, wire, ready, unrun, finished, jobs, sends);
    w, cut := CutOffRest(x, ts, q, wire, groups, wires, ready, w, unrun);
  }

  // ---------- Gathering ----------

  /** The replicas reached, over all nodes `on`, whatever the order of addition. */
  ghost function SyncedOn(x: Setting, on: set<Server>): int {
    if on == {} then 0 else SyncedSlaves(x.opts, x.waits(AnyOf(on))) + SyncedOn(x, on - {AnyOf(on)})
  }

  ghost function AnyOf(on: set<Server>): (s: Server)
    requires on != {}
    ensures s in on
  {
    var s :| s in on; s
  }

  lemma {:induction false} SyncedAnother(x: Setting, on: set<Server>, s: Server)
    requires s !in on
    ensures SyncedOn(x, on + {s}) == SyncedOn(x, on) + SyncedSlaves(x.opts, x.waits(s))
    decreases on
  {
    hide SyncedSlaves;
    hide AnyOf;
    var t := AnyOf(on + {s});
    if t == s {
      assert on + {s} - {t} == on;
    } else {
      assert on + {s} - {t} == on - {t} + {s};
      SyncedAnother(x, on - {t}, s);
      SyncedAnother(x, on - {t}, t);
      assert on - {t} + {t} == on;
    }
  }

  ghost function Reporting(x: Setting, on: set<Server>): set<Server> {
    set s | s in on && Reports(x.opts, x.fates(s))
  }

  /** What the jobs on `on` contribute to the batch result. */
  ghost predicate Joined(
    x: Setting, ts: seq<Server>, q: seq<Pending>, replies: seq<Reply>, on: set<Server>, indexed: seq<(nat, Value)>,
    synced: int)
    requires |ts| == |q| == |replies|
  {
    && multiset(indexed) == multiset(Pick(ts, Pairs(x.sem, x.opts, q, replies), Reporting(x, on)))
    && synced == SyncedOn(x, on)
  }

  lemma OneMoreJoined(
    x: Setting, ts: seq<Server>, q: seq<Pending>, replies: seq<Reply>, on: set<Server>, indexed: seq<(nat, Value)>,
    synced: int, s: Server, job: JobResult)
    requires |ts| == |q| == |replies| && Joined(x, ts, q, replies, on, indexed, synced) && s !in on
    requires job == JobOf(x, ts, q, replies, s) && job.JobDone?
    ensures Joined(x, ts, q, replies, on + {s}, indexed + job.indexed, synced + job.synced)
  {
    hide Pick, SyncedOn;
    SyncedAnother(x, on, s);
    var pairs := Pairs(x.sem, x.opts, q, replies);
    if Reports(x.opts, x.fates(s)) {
      assert Reporting(x, on + {s}) == Reporting(x, on) + {s};
      PickAnother(ts, pairs, Reporting(x, on), s);
    } else {
      assert Reporting(x, on + {s}) == Reporting(x, on);
      assert indexed + job.indexed == indexed;
    }
  }

  lemma NothingJoined(x: Setting, ts: seq<Server>, q: seq<Pending>, replies: seq<Reply>)
    requires |ts| == |q| == |replies|
    ensures Joined(x, ts, q, replies, {}, [], 0)
  {
    PickNone(ts, Pairs(x.sem, x.opts, q, replies), {});
    assert Reporting(x, {}) == {};
  }

  /** Joins the finished jobs in any order; the first failure ends the batch. */
  method JoinJobs(x: Setting, ghost ts: seq<Server>, ghost q: seq<Pending>, ghost replies: seq<Reply>,
      jobs: map<Server, JobResult>)
    returns (ok: bool, indexed: seq<(nat, Value)>, synced: int)
    requires |ts| == |q| == |replies| && forall s :: s in jobs ==> jobs[s] == JobOf(x, ts, q, replies, s)
    ensures ok <==> forall s :: s in jobs ==> jobs[s].JobDone?
    ensures ok ==> Joined(x, ts, q, replies, jobs.Keys, indexed, synced)
  {
    ok, indexed, synced := true, [], 0;
    var todo := jobs.Keys;
    ghost var done: set<Server> := {};
    NothingJoined(x, ts, q, replies);
    hide Joined, JobOf;
    while todo != {}
      invariant todo !! done && todo + done == jobs.Keys
      invariant forall s :: s in done ==> jobs[s].JobDone?
      invariant Joined(x, ts, q, replies, done, indexed, synced)
      decreases todo
    {
      var s :| s in todo;
      if jobs[s].JobFailed? {
        return false, indexed, synced;
      }
      OneMoreJoined(x, ts, q, replies, done, indexed, synced, s, jobs[s]);
      indexed, synced := indexed + jobs[s].indexed, synced + jobs[s].synced;
      todo, done := todo - {s}, done + {s};
    }
    assert done == jobs.Keys;
  }

  function Values(ps: seq<(nat, Value)>): (r: seq<Value>)
    ensures |r| == |ps| && forall i :: 0 <= i < |r| ==> r[i] == ps[i].1
  {
    seq(|ps|, i requires 0 <= i < |ps| => ps[i].1)
  }

  // ---------- The whole ----------

  ghost predicate DistinctPending(q: seq<Pending>) {
    forall i, j :: 0 <= i < j < |q| ==> q[i].index != q[j].index
  }

  /** The nodes the batch is sent to exist. */
  ghost predicate Reachable(x: Setting, dep: Deployment, q: seq<Pending>, w: World) {
    forall i :: 0 <= i < |q| && dep.EntryOf(q[i].cmd).Some? ==>
      dep.EntryOf(q[i].cmd).value.primary in w && x.replica(dep.EntryOf(q[i].cmd).value.primary) in w
  }

  /** Every script some node has to load for the batch is one it can load. */
  ghost predicate BatchLoadable(x: Setting, ts: seq<Server>, q: seq<Pending>)
    requires |ts| == |q|
  {
    x.useScriptCache ==>
      forall i :: 0 <= i < |q| && q[i].cmd.Eval? && x.sem.sha1(q[i].cmd.script) !in Known(x.belief, ts[i]) ==>
        q[i].cmd.script !in x.refused(ts[i])
  }

  lemma BatchLoadableIff(x: Setting, ts: seq<Server>, q: seq<Pending>)
    requires |ts| == |q|
    ensures BatchLoadable(x, ts, q) <==>
              forall s :: s in ts ==> GroupLoadable(x, Known(x.belief, s), CommandsOf(Pick(ts, q, {s})), s)
  {
    forall s | s in ts && BatchLoadable(x, ts, q)
      ensures GroupLoadable(x, Known(x.belief, s), CommandsOf(Pick(ts, q, {s})), s)
    {
      var ps := Pick(ts, q, {s});
      forall k | 0 <= k < |ps| ensures exists i :: 0 <= i < |ts| && ts[i] == s && q[i] == ps[k] {
        PickedFrom(ts, q, s, ps[k]);
      }
    }
    if forall s :: s in ts ==> GroupLoadable(x, Known(x.belief, s), CommandsOf(Pick(ts, q, {s})), s) {
      forall i | 0 <= i < |q| && x.useScriptCache && q[i].cmd.Eval?
                 && x.sem.sha1(q[i].cmd.script) !in Known(x.belief, ts[i])
        ensures q[i].cmd.script !in x.refused(ts[i])
      {
        InOwnGroup(ts, q, i);
        var ps := Pick(ts, q, {ts[i]});
        var k :| 0 <= k < |ps| && ps[k] == q[i];
        assert ts[i] in ts && CommandsOf(ps)[k] == q[i].cmd;
      }
    }
  }

  function Elems(ts: seq<Server>): set<Server> {
    set t | t in ts
  }

  /** The commands as sent, run one after the other in queue order on the nodes with their scripts loaded. */
  ghost function Reference(x: Setting, ts: seq<Server>, q: seq<Pending>, w: World): (r: (seq<Reply>, World))
    requires |ts| == |q| && Covers(w, ts)
    ensures |r.0| == |q| && r.1.Keys == w.Keys
  {
    var cs := CommandsOf(q);
    SeqRun(x.sem, ts, Wire(x.sem, x.useScriptCache, cs), Ready(x.sem, x.useScriptCache, x.belief, ts, cs, w))
  }

  /**
    A successful batch: every caller has the answer to its own command, exactly once; the responses are the values of
    the reporting nodes' commands in index order; every node ends as in the reference run, or as it was if its
    transaction did not commit.
  */
  ghost predicate Executed(
    x: Setting, ts: seq<Server>, q: seq<Pending>, w: World, w': World, sends: seq<(nat, Answer)>, result: BatchResult)
    requires |ts| == |q| && Covers(w, ts)
  {
    var (replies, last) := Reference(x, ts, q, w);
    var ready := Ready(x.sem, x.useScriptCache, x.belief, ts, CommandsOf(q), w);
    && multiset(sends) == multiset(Owed(x.sem, x.opts, x.fates, ts, q, replies))
    && result.syncedSlaves == SyncedOn(x, Elems(ts))
    && (DistinctPending(q) ==>
          result.responses
          == Values(Ordered(Pick(ts, Pairs(x.sem, x.opts, q, replies), Reporting(x, Elems(ts))))))
    && w'.Keys == w.Keys
    && (forall s :: s in w ==> w'[s] == if s in ts then NodeEnd(x, ready, last, s) else w[s])
  }

  /**
    The nodes `ran` have run the whole of their shares, and no other node anything: their data are those of the
    reference run unless their transaction did not commit. The callers of the nodes `told` among them, and no others,
    are answered.
  */
  ghost predicate RanOn(
    x: Setting, ts: seq<Server>, q: seq<Pending>, w: World, w': World, sends: seq<(nat, Answer)>, ran: set<Server>,
    told: set<Server>)
    requires |ts| == |q| && Covers(w, ts)
  {
    var (replies, last) := Reference(x, ts, q, w);
    && told <= ran <= Elems(ts) && w'.Keys == w.Keys
    && multiset(sends) == multiset(Pick(ts, Owed(x.sem, x.opts, x.fates, ts, q, replies), Answered(x, told)))
    && forall s :: s in w ==>
         w'[s].data == if s in ran && (x.opts.atomic ==> x.fates(s) == Commits) then last[s].data else w[s].data
  }

  /**
    However an execution ends, each node has run all of its share or nothing, and only callers of nodes that ran are
    told.
  */
  ghost predicate WholeShares(
    x: Setting, ts: seq<Server>, q: seq<Pending>, w: World, w': World, sends: seq<(nat, Answer)>)
    requires |ts| == |q| && Covers(w, ts)
  {
    exists ran, told :: RanOn(x, ts, q, w, w', sends, ran, told)
  }

  lemma UntouchedIsWhole(x: Setting, ts: seq<Server>, q: seq<Pending>, w: World, w': World)
    requires |ts| == |q| && Covers(w, ts) && SameData(w, w')
    ensures WholeShares(x, ts, q, w, w', [])
  {
    NothingSent(x, ts, q, Reference(x, ts, q, w).0);
    hide Reference, Pick, Owed, Answered;
    assert RanOn(x, ts, q, w, w', [], {}, {});
  }

  lemma SuccessSends(
    x: Setting, es: seq<Server>, q: seq<Pending>, w: World, w': World, sends: seq<(nat, Answer)>, result: BatchResult)
    requires |es| == |q| && Covers(w, es) && Executed(x, es, q, w, w', sends, result)
    ensures multiset(sends) == multiset(Owed(x.sem, x.opts, x.fates, es, q, Reference(x, es, q, w).0))
  {}

  lemma {:induction false} PickSome<T>(ts: seq<Server>, xs: seq<T>, on: set<Server>)
    requires |ts| == |xs|
    ensures multiset(Pick(ts, xs, on)) <= multiset(xs)
  {
    if ts != [] {
      PickSome(ts[1..], xs[1..], on);
      assert xs == [xs[0]] + xs[1..];
    }
  }

  /** Ran or not, a node holds at least the scripts it held before. */
  lemma RunStaysKept(
    x: Setting, w0: World, cache: Belief, ts: seq<Server>, wire: seq<RedisCommand>, ready: World, w: World)
    requires |ts| == |wire| && Covers(ready, ts) && Kept(x, w0, cache, ready) && w.Keys == ready.Keys
    requires forall s :: s in ready ==> w[s] == ready[s] || w[s] == SeqRun(x.sem, ts, wire, ready).1[s]
    ensures Kept(x, w0, cache, w)
  {
    forall s | s in w ensures w[s].WellFormed(x.sem) && ready[s].scripts.Keys <= w[s].scripts.Keys {
      SeqRunOnNode(x.sem, ts, wire, ready, s);
      RunAllKeepsScripts(x.sem, Lowered(Pick(ts, wire, {s})), ready[s]);
    }
    hide SeqRun, Known, Node.WellFormed;
  }

  lemma ResponsesInOrder(
    x: Setting, ts: seq<Server>, q: seq<Pending>, replies: seq<Reply>, on: set<Server>, indexed: seq<(nat, Value)>,
    synced: int)
    requires |ts| == |q| == |replies| && Joined(x, ts, q, replies, on, indexed, synced) && DistinctPending(q)
    ensures Ordered(indexed) == Ordered(Pick(ts, Pairs(x.sem, x.opts, q, replies), Reporting(x, on)))
  {
    var pairs := Pairs(x.sem, x.opts, q, replies);
    assert DistinctIndexes(pairs);
    PickDistinct(ts, pairs, Reporting(x, on));
    JoinOrderIrrelevant(Pick(ts, pairs, Reporting(x, on)), indexed);
  }

  lemma EveryoneAnswered(
    x: Setting, ts: seq<Server>, q: seq<Pending>, replies: seq<Reply>, sends: seq<(nat, Answer)>)
    requires |ts| == |q| == |replies| && Sent(x, ts, q, replies, Elems(ts), sends)
    requires forall s :: s in ts ==> !Fails(x.opts, x.fates(s))
    ensures multiset(sends) == multiset(Owed(x.sem, x.opts, x.fates, ts, q, replies))
  {
    PickAll(ts, Owed(x.sem, x.opts, x.fates, ts, q, replies), Answered(x, Elems(ts)));
  }

  lemma NoneFailed(
    x: Setting, ts: seq<Server>, q: seq<Pending>, replies: seq<Reply>, jobs: map<Server, JobResult>)
    requires |ts| == |q| == |replies|
    requires forall s :: s in jobs ==> jobs[s].JobDone? && jobs[s] == JobOf(x, ts, q, replies, s)
    ensures forall s :: s in jobs ==> !Fails(x.opts, x.fates(s))
  {}

  lemma JoinedSynced(
    x: Setting, ts: seq<Server>, q: seq<Pending>, replies: seq<Reply>, on: set<Server>, indexed: seq<(nat, Value)>,
    synced: int)
    requires |ts| == |q| == |replies| && Joined(x, ts, q, replies, on, indexed, synced)
    ensures synced == SyncedOn(x, on)
  {}

  lemma BatchDone(
    x: Setting, ts: seq<Server>, q: seq<Pending>, wire: seq<RedisCommand>, w: World, ready: World, w': World,
    jobs: map<Server, JobResult>, sends: seq<(nat, Answer)>, indexed: seq<(nat, Value)>, synced: int)
    requires |ts| == |q| && Covers(w, ts)
    requires wire == Wire(x.sem, x.useScriptCache, CommandsOf(q))
    requires ready == Ready(x.sem, x.useScriptCache, x.belief, ts, CommandsOf(q), w)
    requires Progress(x, ts, q, wire, ready, {}, w', jobs, sends) && forall s :: s in jobs ==> jobs[s].JobDone?
    requires Joined(x, ts, q, Reference(x, ts, q, w).0, jobs.Keys, indexed, synced)
    ensures Executed(x, ts, q, w, w', sends, BatchResult(Values(Ordered(indexed)), synced))
  {
    hide Ready, SeqRun, Pick, Owed, Pairs, Wire, CommandsOf, Joined, Sent, SyncedOn, Ordered, Values, NodeEnd, JobOf,
         Fails, DistinctPending;
    var replies := Reference(x, ts, q, w).0;
    assert jobs.Keys == Elems(ts);
    NoneFailed(x, ts, q, replies, jobs);
    EveryoneAnswered(x, ts, q, replies, sends);
    if DistinctPending(q) {
      ResponsesInOrder(x, ts, q, replies, jobs.Keys, indexed, synced);
    }
    forall s | s in w && s !in ts ensures ready[s] == w[s] {
      OthersReady(x, ts, q, w, s);
    }
    JoinedSynced(x, ts, q, replies, jobs.Keys, indexed, synced);
  }

  lemma WiresPicked(
    x: Setting, ts: seq<Server>, q: seq<Pending>, w: World, w': World, wires: map<Server, seq<RedisCommand>>, s: Server)
    requires |ts| == |q| && LoadedSoFar(x, ts, q, w, w', wires) && s in wires
    ensures wires[s] == Pick(ts, Wire(x.sem, x.useScriptCache, CommandsOf(q)), {s})
  {
    PickCommands(ts, q, {s});
    PickRewritten(x.sem, ts, CommandsOf(q), {s});
  }

  /** Whatever failed, nobody is answered twice, and the belief about every node stays right. */
  lemma ProgressIsSafe(
    x: Setting, w0: World, cache: Belief, ts: seq<Server>, q: seq<Pending>, wire: seq<RedisCommand>,
    ready: World,
    unrun: set<Server>, finished: World, jobs: map<Server, JobResult>, sends: seq<(nat, Answer)>, w: World,
    cut: set<Server>)
    requires |ts| == |q| == |wire| && Covers(ready, ts) && Kept(x, w0, cache, ready)
    requires Progress(x, ts, q, wire, ready, unrun, finished, jobs, sends) && finished.Keys == ready.Keys
    requires CutOff(x, ts, wire, ready, finished, w, cut)
    ensures Kept(x, w0, cache, w)
    ensures multiset(sends) <= multiset(Owed(x.sem, x.opts, x.fates, ts, q, SeqRun(x.sem, ts, wire, ready).0))
    ensures forall s :: s in jobs ==> jobs[s] == JobOf(x, ts, q, SeqRun(x.sem, ts, wire, ready).0, s)
  {
    var replies := SeqRun(x.sem, ts, wire, ready).0;
    ReadyOrDone(x, ts, q, wire, ready, unrun, finished, jobs, sends, w, cut);
    hide SeqRun, Pick, Owed, Kept, NodeEnd, JobOf, CutOff;
    PickSome(ts, Owed(x.sem, x.opts, x.fates, ts, q, replies), Answered(x, jobs.Keys));
    RunStaysKept(x, w0, cache, ts, wire, ready, w);
  }

  lemma ReadyOrDone(
    x: Setting, ts: seq<Server>, q: seq<Pending>, wire: seq<RedisCommand>, ready: World, unrun: set<Server>,
    finished: World, jobs: map<Server, JobResult>, sends: seq<(nat, Answer)>, w: World, cut: set<Server>)
    requires |ts| == |q| == |wire| && Covers(ready, ts)
    requires Progress(x, ts, q, wire, ready, unrun, finished, jobs, sends) && finished.Keys == ready.Keys
    requires CutOff(x, ts, wire, ready, finished, w, cut)
    ensures w.Keys == ready.Keys
    ensures forall s :: s in ready ==> w[s] == ready[s] || w[s] == SeqRun(x.sem, ts, wire, ready).1[s]
  {
    hide SeqRun, Sent, JobOf;
  }

  /** If jobs were left out one had failed, so all finished jobs succeeded only if every node's did. */
  lemma AllDoneIff(
    x: Setting, ts: seq<Server>, q: seq<Pending>, wire: seq<RedisCommand>, ready: World,
    unrun: set<Server>, w: World, jobs: map<Server, JobResult>, sends: seq<(nat, Answer)>)
    requires |ts| == |q| == |wire| && Covers(ready, ts)
    requires Progress(x, ts, q, wire, ready, unrun, w, jobs, sends)
    requires unrun == {} || exists s :: s in jobs && jobs[s].JobFailed?
    ensures (forall s :: s in jobs ==> jobs[s].JobDone?) <==> forall s :: s in ts ==> !Fails(x.opts, x.fates(s))
    ensures (forall s :: s in jobs ==> jobs[s].JobDone?) ==> unrun == {}
  {
    hide SeqRun, Sent, Pick, Pairs, NodeEnd;
    var replies := SeqRun(x.sem, ts, wire, ready).0;
    forall s | s in jobs ensures s in ts && (jobs[s].JobFailed? <==> Fails(x.opts, x.fates(s))) {
      assert jobs[s] == JobOf(x, ts, q, replies, s);
    }
  }

  lemma NothingToRun(x: Setting, w: World)
    ensures Executed(x, [], [], w, w, [], BatchResult([], 0)) && WholeShares(x, [], [], w, w, [])
  {
    UntouchedIsWhole(x, [], [], w, w);
    assert Elems([]) == {};
    assert Ready(x.sem, x.useScriptCache, x.belief, [], [], w).Keys == w.Keys;
  }

  lemma EndsCovered(x: Setting, dep: Deployment, q: seq<Pending>, w: World)
    requires Routable(dep, q) && Reachable(x, dep, q, w)
    ensures Covers(w, Targets(dep, q)) && Covers(w, Ends(x, Targets(dep, q), q))
  {
    hide OnReplica, Pick;
  }

  /** The nodes that serve the batch: primaries, and replicas for what only reads. */
  ghost function Servers(x: Setting, dep: Deployment, q: seq<Pending>): (es: seq<Server>)
    requires Routable(dep, q)
    ensures |es| == |q|
  {
    Ends(x, Targets(dep, q), q)
  }

  lemma NothingAsked(x: Setting, dep: Deployment)
    ensures Routable(dep, []) && BatchLoadable(x, Targets(dep, []), []) && Servers(x, dep, []) == []
    ensures Remembered(x, Targets(dep, []), [], x.belief)
    ensures Targets(dep, []) == []
  {}

  lemma GroupsCover(dep: Deployment, ts: seq<Server>, q: seq<Pending>, groups: map<Server, Group>, w: World)
    requires |ts| == |q| && IsGrouping(dep, ts, q, groups) && Covers(w, ts)
    ensures Covered(ts, q, groups, w)
    ensures forall s :: s in groups ==> (groups[s].readOnly <==> AllReadOnly(groups[s].commands))
  {
    hide Pick, AllReadOnly;
  }

  lemma NothingCut(
    x: Setting, ts: seq<Server>, wire: seq<RedisCommand>, ready: World, finished: World, w: World, cut: set<Server>)
    requires |ts| == |wire| && Covers(ready, ts) && finished.Keys == ready.Keys && cut == {}
    requires CutOff(x, ts, wire, ready, finished, w, cut)
    ensures w == finished
  {
    hide SeqRun;
  }

  lemma SharesAreWhole(
    x: Setting, ts: seq<Server>, q: seq<Pending>, wire: seq<RedisCommand>, w: World, ready: World,
    unrun: set<Server>, finished: World, jobs: map<Server, JobResult>, sends: seq<(nat, Answer)>, w': World,
    cut: set<Server>)
    requires |ts| == |q| == |wire| && Covers(w, ts) && Covers(ready, ts) && SameData(w, ready)
    requires wire == Wire(x.sem, x.useScriptCache, CommandsOf(q))
    requires ready == Ready(x.sem, x.useScriptCache, x.belief, ts, CommandsOf(q), w)
    requires Progress(x, ts, q, wire, ready, unrun, finished, jobs, sends) && finished.Keys == ready.Keys
    requires CutOff(x, ts, wire, ready, finished, w', cut)
    ensures WholeShares(x, ts, q, w, w', sends)
  {
    hide Ready, SeqRun, Wire, CommandsOf, Pick, Owed, Answered, JobOf, Supplied, Known;
    assert RanOn(x, ts, q, w, w', sends, jobs.Keys + cut, jobs.Keys);
  }

  /** From the loaded nodes on: choose the pipelines, run the jobs, join them. */
  method RunAndGather(
    x: Setting, ghost cache: Belief, ghost ts: seq<Server>, ghost q: seq<Pending>,
    groups: map<Server, Group>, wires: map<Server, seq<RedisCommand>>, ghost w: World, ready: World)
    returns (result: Option<BatchResult>, sends: seq<(nat, Answer)>, w': World)
    requires |ts| == |q| && OwnReplicas(x, ts) && Covers(w, ts) && Covers(w, Ends(x, ts, q))
    requires Covered(ts, q, groups, w)
    requires forall s :: s in groups ==> (groups[s].readOnly <==> AllReadOnly(groups[s].commands))
    requires ready == Ready(x.sem, x.useScriptCache, x.belief, ts, CommandsOf(q), w) && Kept(x, w, cache, ready)
    requires SameData(w, ready)
    requires wires.Keys == groups.Keys
    requires forall s :: s in wires ==> wires[s] == Pick(ts, Wire(x.sem, x.useScriptCache, CommandsOf(q)), {s})
    ensures Kept(x, w, cache, w') && WholeShares(x, Ends(x, ts, q), q, w, w', sends)
    ensures result.Some? ==> Executed(x, Ends(x, ts, q), q, w, w', sends, result.value)
    ensures var es := Ends(x, ts, q);
            multiset(sends) <= multiset(Owed(x.sem, x.opts, x.fates, es, q, Reference(x, es, q, w).0))
    ensures result.Some? <==> forall e :: e in Ends(x, ts, q) ==> !Fails(x.opts, x.fates(e))
  {
    hide Executed, Joined, Ready, SeqRun, Pairs, Owed, Wire, CommandsOf, Fails, Progress, Kept, JobOf, Ends,
         OwnReplicas, Pick, AllReadOnly, WholeShares, SameData, CutOff;
    ghost var wire, es := Wire(x.sem, x.useScriptCache, CommandsOf(q)), Ends(x, ts, q);
    ReadyForEnds(x, ts, q, w);
    var served, sent := ChoosePipelines(x, ts, q, wire, groups, wires);
    var jobs, unrun;
    ghost var finished, cut;
    w', jobs, sends, unrun, finished, cut := RunJobs(x, es, q, wire, served, sent, ready);
    ProgressIsSafe(x, w, cache, es, q, wire, ready, unrun, finished, jobs, sends, w', cut);
    SharesAreWhole(x, es, q, wire, w, ready, unrun, finished, jobs, sends, w', cut);
    AllDoneIff(x, es, q, wire, ready, unrun, finished, jobs, sends);
    var ok, indexed, synced := JoinJobs(x, es, q, SeqRun(x.sem, es, wire, ready).0, jobs);
    result := None;
    if ok {
      NothingCut(x, es, wire, ready, finished, w', cut);
      BatchDone(x, es, q, wire, w, ready, w', jobs, sends, indexed, synced);
      result := Some(BatchResult(Values(Ordered(indexed)), synced));
    }
  }

  /** `execute_in_memory`: the queue has been taken; `w` are the nodes, `sends` the answers given to waiting callers. */
  method ExecuteInMemory(x: Setting, sm: ScriptCaches.ServiceManager, dep: Deployment, q: seq<Pending>, w: World)
    returns (result: Option<BatchResult>, sends: seq<(nat, Answer)>, w': World)
    requires sm.Valid() && sm.sha1 == x.sem.sha1 && CollisionFree(x.sem)
    requires Reachable(x, dep, q, w) && AllWellFormed(x.sem, w) && x.belief == sm.scriptShaCache
    requires Routable(dep, q) ==> OwnReplicas(x, Targets(dep, q))
    modifies sm
    ensures sm.Valid() && Kept(x, w, sm.scriptShaCache, w')
    ensures result.Some? ==> Routable(dep, q) && Remembered(x, Targets(dep, q), q, sm.scriptShaCache)
    ensures Routable(dep, q) ==> Covers(w, Servers(x, dep, q)) && WholeShares(x, Servers(x, dep, q), q, w, w', sends)
    ensures result.Some? ==> Routable(dep, q) && Executed(x, Servers(x, dep, q), q, w, w', sends, result.value)
    ensures !Routable(dep, q) ==> sends == [] && w' == w
    ensures Routable(dep, q) ==>
              var es := Servers(x, dep, q);
              multiset(sends) <= multiset(Owed(x.sem, x.opts, x.fates, es, q, Reference(x, es, q, w).0))
    ensures result.Some? <==>
              && Routable(dep, q) && BatchLoadable(x, Targets(dep, q), q)
              && forall e :: e in Servers(x, dep, q) ==> !Fails(x.opts, x.fates(e))
  {
    hide Executed, LoadedSoFar, Ready, SeqRun, Owed, CollisionFree, Wire, CommandsOf, Fails, Kept, OwnReplicas, Pick,
         Targets, GroupLoadable, BatchLoadable, Ends, IsGroup, WholeShares, SameData, Remembered;
    result, sends, w' := None, [], w;
    NothingKept(x, w);
    if q == [] {
      NothingToRun(x, w);
      NothingAsked(x, dep);
      return Some(BatchResult([], 0)), [], w;
    }
    var grouped := GroupByNode(dep, q);
    if grouped.None? {
      return;
    }
    ghost var ts := Targets(dep, q);
    EndsCovered(x, dep, q, w);
    BatchLoadableIff(x, ts, q);
    GroupsCover(dep, ts, q, grouped.value, w);
    var ok, ready, wires := LoadEverywhere(x, sm, ts, q, grouped.value, w);
    w' := ready;
    UntouchedIsWhole(x, Ends(x, ts, q), q, w, w');
    if ok {
      forall s | s in wires { WiresPicked(x, ts, q, w, ready, wires, s); }
      result, sends, w' := RunAndGather(x, sm.scriptShaCache, ts, q, grouped.value, wires, w, ready);
    }
  }
}
