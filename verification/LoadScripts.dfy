/** The script rewrite of a batch: EVAL becomes EVALSHA after its script has been loaded on the node. */
module LoadScripts {
  import opened Commands
  import opened Redis
  import opened Topology
  import CacheRuns
  import ScriptCaches

  function Rewritten(sem: Semantics, c: RedisCommand): RedisCommand {
    if c.Eval? then EvalSha(sem.sha1(c.script), c.keys, c.args) else c
  }

  function RewrittenAll(sem: Semantics, cs: seq<RedisCommand>): (r: seq<RedisCommand>)
    ensures |r| == |cs| && forall i :: 0 <= i < |r| ==> r[i] == Rewritten(sem, cs[i])
  {
    seq(|cs|, i requires 0 <= i < |cs| => Rewritten(sem, cs[i]))
  }

  /** The scripts the EVALs of `cs` carry, under their hashes. */
  function Carried(sem: Semantics, cs: seq<RedisCommand>): map<string, string> {
    if cs == [] then map[]
    else
      var rest := Carried(sem, cs[1..]);
      if cs[0].Eval? then rest[sem.sha1(cs[0].script) := cs[0].script] else rest
  }

  /** The rewrite keeps keys, arguments, route and class, and leaves no EVAL. */
  lemma RewriteKeepsCommand(sem: Semantics, c: RedisCommand)
    ensures var r := Rewritten(sem, c);
            && !r.Eval? && r.RoutingKey() == c.RoutingKey() && r.IsReadOnly() == c.IsReadOnly()
            && (c.Eval? ==> r.EvalSha? && r.keys == c.keys && r.args == c.args)
            && (!c.Eval? ==> r == c)
  {}

  /**
    No command names, by hash, a script that the node lacks and only a later EVAL of the same batch carries.
    `held` are the scripts the node holds when the first of `cs` runs.
  */
  predicate NoForwardReference(sem: Semantics, cs: seq<RedisCommand>, held: set<string>) {
    cs == [] ||
    (var c := cs[0].OnPipeline();
     && (c.EvalSha? ==> c.sha in held || c.sha !in Carried(sem, cs[1..]))
     && NoForwardReference(sem, cs[1..], if c.Eval? then held + {sem.sha1(c.script)} else held))
  }

  /** The node `m` is `n` with the scripts of `cs` loaded beforehand. */
  ghost predicate Preloaded(sem: Semantics, cs: seq<RedisCommand>, n: Node, m: Node) {
    n.WellFormed(sem) && m.data == n.data && m.scripts == n.scripts + Carried(sem, cs)
  }

  /** A script body never answers the way a missing script does. */
  ghost predicate BodyNeverNoScript(sem: Semantics) {
    forall script, keys, args, d :: sem.body(script, keys, args, d).0 != Err(NOSCRIPT)
  }

  lemma {:induction false} CarriedWellFormed(sem: Semantics, cs: seq<RedisCommand>)
    ensures forall h :: h in Carried(sem, cs) ==> sem.sha1(Carried(sem, cs)[h]) == h
  {
    if cs != [] {
      CarriedWellFormed(sem, cs[1..]);
    }
  }

  lemma PreloadedWellFormed(sem: Semantics, cs: seq<RedisCommand>, n: Node, m: Node)
    requires Preloaded(sem, cs, n, m)
    ensures m.WellFormed(sem)
  {
    CarriedWellFormed(sem, cs);
  }

  lemma EvalPreserves(sem: Semantics, script: string, rest: seq<RedisCommand>, n: Node, m: Node)
    requires CollisionFree(sem) && n.WellFormed(sem)
    requires var h := sem.sha1(script); m.scripts == n.scripts + Carried(sem, rest)[h := script]
    ensures var h := sem.sha1(script); h in m.scripts && m.scripts[h] == script
    ensures m.scripts == LoadScript(sem, n, script).scripts + Carried(sem, rest)
  {
    CarriedWellFormed(sem, rest);
    var h := sem.sha1(script);
    var carried, loaded := Carried(sem, rest), LoadScript(sem, n, script).scripts;
    if h in carried {
      assert sem.sha1(carried[h]) == sem.sha1(script);
    }
    hide CollisionFree, Carried;
    LaterWins(n.scripts, carried, h, script);
  }

  lemma LaterWins(held: map<string, string>, carried: map<string, string>, h: string, script: string)
    requires h in carried ==> carried[h] == script
    ensures held + carried[h := script] == held[h := script] + carried
  {}

  /** A command that is not an EVAL answers alike on both nodes, as long as it does not run ahead of its script. */
  lemma OtherPreserves(sem: Semantics, c: RedisCommand, rest: seq<RedisCommand>, n: Node, m: Node)
    requires CollisionFree(sem) && Preloaded(sem, rest, n, m) && !c.Eval?
    requires c.EvalSha? ==> c.sha in n.scripts || c.sha !in Carried(sem, rest)
    ensures RunOne(sem, c, n).0 == RunOne(sem, c, m).0
    ensures Preloaded(sem, rest, RunOne(sem, c, n).1, RunOne(sem, c, m).1)
  {
    PreloadedWellFormed(sem, rest, n, m);
    hide Carried;
    if c.EvalSha? && c.sha in n.scripts {
      assert sem.sha1(m.scripts[c.sha]) == sem.sha1(n.scripts[c.sha]);
    }
  }

  /** One command and its rewriting answer alike and leave the nodes as far apart as before. */
  lemma StepPreserves(sem: Semantics, cs: seq<RedisCommand>, n: Node, m: Node)
    requires CollisionFree(sem) && cs != [] && Preloaded(sem, cs, n, m)
    requires var c := cs[0].OnPipeline(); c.EvalSha? ==> c.sha in n.scripts || c.sha !in Carried(sem, cs[1..])
    ensures var (r, n') := RunOne(sem, cs[0].OnPipeline(), n);
            var (r', m') := RunOne(sem, Rewritten(sem, cs[0]).OnPipeline(), m);
            r == r' && Preloaded(sem, cs[1..], n', m')
  {
    if cs[0].Eval? {
      EvalPreserves(sem, cs[0].script, cs[1..], n, m);
      hide Carried, CollisionFree;
    } else {
      hide RunOne, CollisionFree;
      OtherPreserves(sem, cs[0].OnPipeline(), cs[1..], n, m);
    }
  }

  /** Running the rewritten batch on the preloaded node is running the batch on the node as it was. */
  lemma {:induction false} RewritePreserves(sem: Semantics, cs: seq<RedisCommand>, n: Node, m: Node)
    requires CollisionFree(sem) && Preloaded(sem, cs, n, m) && NoForwardReference(sem, cs, n.scripts.Keys)
    ensures RunAll(sem, Lowered(RewrittenAll(sem, cs)), m) == RunAll(sem, Lowered(cs), n)
  {
    if cs == [] {
      assert m.scripts == n.scripts;
    } else {
      StepPreserves(sem, cs, n, m);
      var n' := RunOne(sem, cs[0].OnPipeline(), n).1;
      var m' := RunOne(sem, Rewritten(sem, cs[0]).OnPipeline(), m).1;
      HeldAfter(sem, cs[0].OnPipeline(), n);
      RewritePreserves(sem, cs[1..], n', m');
      LoweredTail(cs);
      LoweredTail(RewrittenAll(sem, cs));
      assert RewrittenAll(sem, cs)[1..] == RewrittenAll(sem, cs[1..]);
    }
  }

  lemma HeldAfter(sem: Semantics, c: RedisCommand, n: Node)
    ensures RunOne(sem, c, n).1.scripts.Keys == n.scripts.Keys + if c.Eval? then {sem.sha1(c.script)} else {}
  {}

  /** The condition is exact: with a forward reference the batch answers NOSCRIPT where the rewritten one runs. */
  lemma {:induction false} RewritePreservesIff(sem: Semantics, cs: seq<RedisCommand>, n: Node, m: Node)
    requires CollisionFree(sem) && BodyNeverNoScript(sem) && Preloaded(sem, cs, n, m)
    ensures RunAll(sem, Lowered(RewrittenAll(sem, cs)), m).0 == RunAll(sem, Lowered(cs), n).0
            <==> NoForwardReference(sem, cs, n.scripts.Keys)
  {
    if cs != [] {
      LoweredTail(cs);
      LoweredTail(RewrittenAll(sem, cs));
      assert RewrittenAll(sem, cs)[1..] == RewrittenAll(sem, cs[1..]);
      var c := cs[0].OnPipeline();
      var (r, n') := RunOne(sem, c, n);
      var (r', m') := RunOne(sem, Rewritten(sem, cs[0]).OnPipeline(), m);
      var whole, whole' := RunAll(sem, Lowered(cs), n).0, RunAll(sem, Lowered(RewrittenAll(sem, cs)), m).0;
      assert whole[0] == r && whole'[0] == r';
      if c.EvalSha? && c.sha !in n.scripts && c.sha in Carried(sem, cs[1..]) {
        assert r == Err(NOSCRIPT) && r' == sem.body(m.scripts[c.sha], c.keys, c.args, m.data).0;
      } else {
        StepPreserves(sem, cs, n, m);
        HeldAfter(sem, c, n);
        RewritePreservesIff(sem, cs[1..], n', m');
        assert whole[1..] == RunAll(sem, Lowered(cs[1..]), n').0;
        assert whole'[1..] == RunAll(sem, Lowered(RewrittenAll(sem, cs[1..])), m').0;
      }
    }
  }

  // ---------- The rewrite under a belief about the node ----------

  /** What the client believes the nodes hold. */
  type Belief = map<Server, set<string>>

  function Known(cache: Belief, server: Server): set<string> {
    if server in cache then cache[server] else {}
  }

  lemma {:induction false} CarriedKeys(sem: Semantics, cs: seq<RedisCommand>, h: string)
    ensures h in Carried(sem, cs) <==> exists i :: 0 <= i < |cs| && cs[i].Eval? && sem.sha1(cs[i].script) == h
  {
    if cs != [] {
      CarriedKeys(sem, cs[1..], h);
      if cs[0].Eval? && sem.sha1(cs[0].script) == h {
      } else if h in Carried(sem, cs) {
        var i :| 0 <= i < |cs[1..]| && cs[1..][i].Eval? && sem.sha1(cs[1..][i].script) == h;
        assert cs[i + 1].Eval?;
      } else {
        forall i | 0 <= i < |cs| && cs[i].Eval? ensures sem.sha1(cs[i].script) != h {
          if i > 0 { assert cs[1..][i - 1] == cs[i]; }
        }
      }
    }
  }

  /** Scripts are filed under their hashes, so two nodes that hold the same hashes hold the same scripts. */
  lemma SameHashesSameScripts(sem: Semantics, a: map<string, string>, b: map<string, string>)
    requires CollisionFree(sem) && a.Keys == b.Keys
    requires forall h :: h in a ==> sem.sha1(a[h]) == h && sem.sha1(b[h]) == h
    ensures a == b
  {
    forall h | h in a ensures a[h] == b[h] {
      assert sem.sha1(a[h]) == sem.sha1(b[h]);
    }
  }

  /** `n` with the scripts of `cs` that are not believed to be there already. */
  function Supplied(sem: Semantics, cs: seq<RedisCommand>, known: set<string>, n: Node): Node {
    n.(scripts := n.scripts + (Carried(sem, cs) - known))
  }

  /** No EVAL's script is believed to be on the node and is not. */
  predicate NoneLost(sem: Semantics, cs: seq<RedisCommand>, known: set<string>, held: set<string>) {
    forall i :: 0 <= i < |cs| && cs[i].Eval? && sem.sha1(cs[i].script) in known ==> sem.sha1(cs[i].script) in held
  }

  lemma SuppliedPreloads(sem: Semantics, cs: seq<RedisCommand>, known: set<string>, n: Node)
    requires CollisionFree(sem) && n.WellFormed(sem) && NoneLost(sem, cs, known, n.scripts.Keys)
    ensures Preloaded(sem, cs, n, Supplied(sem, cs, known, n))
  {
    var carried, m := Carried(sem, cs), Supplied(sem, cs, known, n);
    CarriedWellFormed(sem, cs);
    forall h | h in carried && h in known ensures h in n.scripts {
      CarriedKeys(sem, cs, h);
    }
    SameHashesSameScripts(sem, m.scripts, n.scripts + carried);
  }

  /** An EVAL never answers the way a missing script does. */
  lemma {:induction false} EvalNeverMissing(sem: Semantics, cs: seq<RedisCommand>, n: Node, i: nat)
    requires BodyNeverNoScript(sem) && i < |cs| && cs[i].Eval?
    ensures RunAll(sem, Lowered(cs), n).0[i] != Err(NOSCRIPT)
  {
    LoweredTail(cs);
    if i > 0 {
      EvalNeverMissing(sem, cs[1..], RunOne(sem, cs[0].OnPipeline(), n).1, i - 1);
    }
  }

  /** Without an EVAL a missing script stays missing. */
  lemma {:induction false} MissingStays(sem: Semantics, cs: seq<RedisCommand>, n: Node, i: nat)
    requires (forall c :: c in cs ==> !c.Eval?) && i < |cs| && cs[i].EvalSha? && cs[i].sha !in n.scripts
    ensures RunAll(sem, Lowered(cs), n).0[i] == Err(NOSCRIPT)
  {
    LoweredTail(cs);
    assert cs[0] in cs;
    if i > 0 {
      HeldAfter(sem, cs[0].OnPipeline(), n);
      MissingStays(sem, cs[1..], RunOne(sem, cs[0].OnPipeline(), n).1, i - 1);
    }
  }

  /**
    Run on the node as the belief has supplied it, the rewritten batch answers like the original exactly if there is no
    forward reference and no EVAL's script is believed to be there and is not.
  */
  lemma RewriteSuppliedIff(sem: Semantics, cs: seq<RedisCommand>, known: set<string>, n: Node)
    requires CollisionFree(sem) && BodyNeverNoScript(sem) && n.WellFormed(sem)
    ensures RunAll(sem, Lowered(RewrittenAll(sem, cs)), Supplied(sem, cs, known, n)).0 == RunAll(sem, Lowered(cs), n).0
            <==> NoForwardReference(sem, cs, n.scripts.Keys) && NoneLost(sem, cs, known, n.scripts.Keys)
  {
    hide RunAll, Supplied, Carried, CollisionFree, BodyNeverNoScript, NoForwardReference;
    var m := Supplied(sem, cs, known, n);
    if NoneLost(sem, cs, known, n.scripts.Keys) {
      SuppliedPreloads(sem, cs, known, n);
      RewritePreservesIff(sem, cs, n, m);
    } else {
      var i :| 0 <= i < |cs| && cs[i].Eval? && sem.sha1(cs[i].script) in known - n.scripts.Keys;
      LostDiffers(sem, cs, known, n, i);
    }
  }

  lemma LostDiffers(sem: Semantics, cs: seq<RedisCommand>, known: set<string>, n: Node, i: nat)
    requires BodyNeverNoScript(sem) && i < |cs| && cs[i].Eval? && sem.sha1(cs[i].script) in known - n.scripts.Keys
    ensures RunAll(sem, Lowered(RewrittenAll(sem, cs)), Supplied(sem, cs, known, n)).0[i]
            == Err(NOSCRIPT) != RunAll(sem, Lowered(cs), n).0[i]
  {
    hide RunAll, Carried, BodyNeverNoScript;
    EvalNeverMissing(sem, cs, n, i);
    MissingStays(sem, RewrittenAll(sem, cs), Supplied(sem, cs, known, n), i);
  }

  // ---------- Loading and rewriting one node's commands ----------

  /** `toLoad` lists, once each, the scripts of the EVALs that the client does not know `server` to hold. */
  ghost predicate Missing(sem: Semantics, cs: seq<RedisCommand>, known: set<string>, toLoad: seq<string>) {
    && (forall i :: 0 <= i < |cs| && cs[i].Eval? ==> cs[i].script in toLoad || sem.sha1(cs[i].script) in known)
    && (forall s :: s in toLoad ==> sem.sha1(s) in Carried(sem, cs) && sem.sha1(s) !in known)
    && (forall i, j :: 0 <= i < j < |toLoad| ==> toLoad[i] != toLoad[j])
  }

  lemma {:induction false} CarriedSnoc(sem: Semantics, cs: seq<RedisCommand>, c: RedisCommand, h: string)
    ensures h in Carried(sem, cs + [c]) <==> h in Carried(sem, cs) || (c.Eval? && sem.sha1(c.script) == h)
  {
    if cs == [] {
      assert cs + [c] == [c];
    } else {
      assert (cs + [c])[1..] == cs[1..] + [c];
      CarriedSnoc(sem, cs[1..], c, h);
    }
  }

  lemma MissingSnoc(sem: Semantics, cs: seq<RedisCommand>, known: set<string>, toLoad: seq<string>, c: RedisCommand)
    requires Missing(sem, cs, known, toLoad)
    ensures Missing(sem, cs + [c], known,
                    if c.Eval? && sem.sha1(c.script) !in known && c.script !in toLoad then toLoad + [c.script]
                    else toLoad)
  {
    forall h { CarriedSnoc(sem, cs, c, h); }
    hide Carried;
  }

  method MissingScripts(sem: Semantics, sm: ScriptCaches.ServiceManager, server: Server, cs: seq<RedisCommand>)
    returns (toLoad: seq<string>)
    requires sm.Valid() && sm.sha1 == sem.sha1
    modifies sm
    ensures sm.Valid() && sm.scriptShaCache == old(sm.scriptShaCache)
    ensures Missing(sem, cs, Known(sm.scriptShaCache, server), toLoad)
  {
    toLoad := [];
    for i := 0 to |cs|
      invariant sm.Valid() && sm.scriptShaCache == old(sm.scriptShaCache)
      invariant Missing(sem, cs[..i], Known(sm.scriptShaCache, server), toLoad)
    {
      hide Missing;
      assert cs[..i + 1] == cs[..i] + [cs[i]];
      MissingSnoc(sem, cs[..i], Known(sm.scriptShaCache, server), toLoad, cs[i]);
      if cs[i].Eval? {
        var cached := sm.IsCached(server, cs[i].script);
        if !cached && cs[i].script !in toLoad {
          toLoad := toLoad + [cs[i].script];
        }
      }
    }
    assert cs[..|cs|] == cs;
  }

  /** Every script of `cs` that the client does not know to be loaded can be loaded. */
  predicate Loadable(sem: Semantics, cs: seq<RedisCommand>, known: set<string>, refused: set<string>) {
    forall i :: 0 <= i < |cs| && cs[i].Eval? && sem.sha1(cs[i].script) !in known ==> cs[i].script !in refused
  }

  lemma LoadableIff(
    sem: Semantics, cs: seq<RedisCommand>, known: set<string>, toLoad: seq<string>, refused: set<string>)
    requires CollisionFree(sem) && Missing(sem, cs, known, toLoad)
    ensures Loadable(sem, cs, known, refused) <==> forall s :: s in toLoad ==> s !in refused
  {
    forall s | s in toLoad
      ensures exists i :: 0 <= i < |cs| && cs[i].Eval? && cs[i].script == s && sem.sha1(cs[i].script) !in known
    {
      CarriedKeys(sem, cs, sem.sha1(s));
      var i :| 0 <= i < |cs| && cs[i].Eval? && sem.sha1(cs[i].script) == sem.sha1(s);
      assert cs[i].script == s;
    }
  }

  /** SCRIPT LOAD, one script after the other; `refused` are scripts the node answers with an error. */
  method LoadEach(sem: Semantics, node: Node, toLoad: seq<string>, refused: set<string>)
    returns (loaded: nat, node': Node)
    requires node.WellFormed(sem)
    ensures loaded <= |toLoad| && (forall i :: 0 <= i < loaded ==> toLoad[i] !in refused)
    ensures loaded < |toLoad| ==> toLoad[loaded] in refused
    ensures node'.data == node.data && node'.WellFormed(sem)
    ensures node'.scripts.Keys == node.scripts.Keys + ScriptCaches.Shas(sem.sha1, toLoad[..loaded])
  {
    node' := node;
    for i := 0 to |toLoad|
      invariant forall j :: 0 <= j < i ==> toLoad[j] !in refused
      invariant node'.data == node.data && node'.WellFormed(sem)
      invariant node'.scripts.Keys == node.scripts.Keys + ScriptCaches.Shas(sem.sha1, toLoad[..i])
    {
      assert toLoad[..i + 1] == toLoad[..i] + [toLoad[i]];
      if toLoad[i] in refused {
        return i, node';
      }
      node' := LoadScript(sem, node', toLoad[i]);
    }
    loaded := |toLoad|;
  }

  method RewriteEach(sem: Semantics, sm: ScriptCaches.ServiceManager, cs: seq<RedisCommand>)
    returns (cs': seq<RedisCommand>)
    requires sm.Valid() && sm.sha1 == sem.sha1
    modifies sm
    ensures sm.Valid() && sm.scriptShaCache == old(sm.scriptShaCache)
    ensures cs' == RewrittenAll(sem, cs)
  {
    cs' := [];
    for i := 0 to |cs|
      invariant sm.Valid() && sm.scriptShaCache == old(sm.scriptShaCache)
      invariant |cs'| == i && forall j :: 0 <= j < i ==> cs'[j] == Rewritten(sem, cs[j])
    {
      if cs[i].Eval? {
        var sha := sm.CalcSha(cs[i].script);
        cs' := cs' + [EvalSha(sha, cs[i].keys, cs[i].args)];
      } else {
        cs' := cs' + [cs[i]];
      }
    }
  }

  lemma MissingHashes(sem: Semantics, cs: seq<RedisCommand>, known: set<string>, toLoad: seq<string>)
    requires Missing(sem, cs, known, toLoad)
    ensures ScriptCaches.Shas(sem.sha1, toLoad) == (Carried(sem, cs) - known).Keys
  {
    forall h ensures h in Carried(sem, cs) && h !in known ==> h in ScriptCaches.Shas(sem.sha1, toLoad) {
      CarriedKeys(sem, cs, h);
    }
  }

  /** Whatever was not believed to be there has been loaded. */
  lemma MissingLoaded(
    sem: Semantics, cs: seq<RedisCommand>, known: set<string>, toLoad: seq<string>, node: Node, node': Node)
    requires CollisionFree(sem) && Missing(sem, cs, known, toLoad)
    requires node.WellFormed(sem) && node'.WellFormed(sem) && node'.data == node.data
    requires node'.scripts.Keys == node.scripts.Keys + ScriptCaches.Shas(sem.sha1, toLoad)
    ensures node' == Supplied(sem, cs, known, node)
  {
    CarriedWellFormed(sem, cs);
    MissingHashes(sem, cs, known, toLoad);
    hide Missing, Carried, CollisionFree;
    var target := Supplied(sem, cs, known, node).scripts;
    assert target.Keys == node'.scripts.Keys;
    SameHashesSameScripts(sem, node'.scripts, target);
  }

  /** Command by command: no EVAL is left, and keys, arguments, route and class are what they were. */
  ghost predicate KeepsCommands(cs: seq<RedisCommand>, cs': seq<RedisCommand>) {
    && |cs'| == |cs|
    && forall i :: 0 <= i < |cs| ==>
         && !cs'[i].Eval? && cs'[i].RoutingKey() == cs[i].RoutingKey() && cs'[i].IsReadOnly() == cs[i].IsReadOnly()
         && if cs[i].Eval? then cs'[i].EvalSha? && cs'[i].keys == cs[i].keys && cs'[i].args == cs[i].args
            else cs'[i] == cs[i]
  }

  lemma AllKept(sem: Semantics, cs: seq<RedisCommand>)
    ensures KeepsCommands(cs, RewrittenAll(sem, cs))
  {
    forall i | 0 <= i < |cs| { RewriteKeepsCommand(sem, cs[i]); }
  }

  /** Once what was missing is recorded the client knows all that the EVALs carry, and nothing else has changed. */
  lemma RecordedAfter(sem: Semantics, cs: seq<RedisCommand>, cache: Belief, server: Server, missing: seq<string>)
    requires Missing(sem, cs, Known(cache, server), missing)
    ensures var shas := ScriptCaches.Shas(sem.sha1, missing);
            var cache' := if missing == [] then cache else ScriptCaches.Commit(cache, server, shas);
            && Known(cache', server) == Known(cache, server) + Carried(sem, cs).Keys
            && Known(cache', server) == Known(cache, server) + shas
            && forall s :: s != server ==> Known(cache', s) == Known(cache, s)
  {
    MissingHashes(sem, cs, Known(cache, server), missing);
    hide Missing, Carried;
  }

  /**
    Loads what one node misses and rewrites its commands. It succeeds exactly if every script it has to load can be
    loaded. The client comes to believe nothing about the node that is not so, and on success the node is supplied with
    every script it is not believed to hold; if none was lost it is ready to run the rewritten commands as if they were
    the original ones.
  */
  method LoadOnNode(
    sem: Semantics, sm: ScriptCaches.ServiceManager, server: Server, node: Node, cs: seq<RedisCommand>,
    refused: set<string>)
    returns (ok: bool, node': Node, cs': seq<RedisCommand>, ghost toLoad: seq<string>, ghost loaded: nat)
    requires sm.Valid() && sm.sha1 == sem.sha1 && CollisionFree(sem) && node.WellFormed(sem)
    modifies sm
    ensures sm.Valid() && node'.WellFormed(sem) && node'.data == node.data
    ensures Known(sm.scriptShaCache, server) <= Known(old(sm.scriptShaCache), server) + node'.scripts.Keys
    ensures forall s :: s != server ==> Known(sm.scriptShaCache, s) == Known(old(sm.scriptShaCache), s)
    ensures ok ==>
              var known := Known(old(sm.scriptShaCache), server);
              && cs' == RewrittenAll(sem, cs) && KeepsCommands(cs, cs')
              && node' == Supplied(sem, cs, known, node)
              && (NoneLost(sem, cs, known, node.scripts.Keys) ==> Preloaded(sem, cs, node, node'))
    ensures ok ==>
              Known(sm.scriptShaCache, server) == Known(old(sm.scriptShaCache), server) + Carried(sem, cs).Keys
    ensures ok <==> Loadable(sem, cs, Known(old(sm.scriptShaCache), server), refused)
    ensures Missing(sem, cs, Known(old(sm.scriptShaCache), server), toLoad)
    ensures loaded <= |toLoad| && (ok <==> loaded == |toLoad|)
    ensures node'.scripts.Keys == node.scripts.Keys + ScriptCaches.Shas(sem.sha1, toLoad[..loaded])
    ensures var cache, shas := old(sm.scriptShaCache), ScriptCaches.Shas(sem.sha1, toLoad);
            sm.scriptShaCache == if !ok || toLoad == [] then cache else ScriptCaches.Commit(cache, server, shas)
  {
    var missing := MissingScripts(sem, sm, server, cs);
    ghost var known := Known(sm.scriptShaCache, server);
    LoadableIff(sem, cs, known, missing, refused);
    var n;
    n, node' := LoadEach(sem, node, missing, refused);
    ok, cs', toLoad, loaded := n == |missing|, cs, missing, n;
    assert ok ==> missing[..n] == missing;
    if !ok {
      return;
    }
    RecordedAfter(sem, cs, sm.scriptShaCache, server, missing);
    hide Missing, Known, Carried, Rewritten;
    if missing != [] {
      sm.CacheScripts(server, missing);
    }
    MissingLoaded(sem, cs, known, missing, node, node');
    cs' := RewriteEach(sem, sm, cs);
    AllKept(sem, cs);
    if NoneLost(sem, cs, known, node.scripts.Keys) {
      SuppliedPreloads(sem, cs, known, node);
    }
  }

  // ---------- Loading as a job among others ----------

  function HashList(sem: Semantics, scripts: seq<string>): (r: seq<string>)
    ensures |r| == |scripts| && forall i :: 0 <= i < |r| ==> r[i] == sem.sha1(scripts[i])
  {
    seq(|scripts|, i requires 0 <= i < |scripts| => sem.sha1(scripts[i]))
  }

  lemma HashListElements(sem: Semantics, scripts: seq<string>, n: nat)
    requires n <= |scripts|
    ensures CacheRuns.Elements(HashList(sem, scripts)[..n]) == ScriptCaches.Shas(sem.sha1, scripts[..n])
  {
    var hs, part := HashList(sem, scripts)[..n], scripts[..n];
    forall h | h in ScriptCaches.Shas(sem.sha1, part) ensures h in hs {
      var s :| s in part && sem.sha1(s) == h;
      var i :| 0 <= i < n && part[i] == s;
      assert hs[i] == h;
    }
    forall h | h in hs ensures h in ScriptCaches.Shas(sem.sha1, part) {
      var i :| 0 <= i < n && hs[i] == h;
      assert part[i] in part;
    }
  }

  /**
    `LoadOnNode` causes exactly the events of one job: it begins it, loads script after script, and records or gives up.
    So the cache stays as sound, run by run, as the events allow.
  */
  method LoadAsJob(
    sem: Semantics, sm: ScriptCaches.ServiceManager, server: Server, node: Node, cs: seq<RedisCommand>,
    refused: set<string>, ghost run: CacheRuns.Run, ghost client: nat)
    returns (ok: bool, node': Node, cs': seq<RedisCommand>, ghost toLoad: seq<string>, ghost loaded: nat)
    requires sm.Valid() && sm.sha1 == sem.sha1 && CollisionFree(sem) && node.WellFormed(sem)
    requires client !in CacheRuns.After(run).jobs
    requires CacheRuns.After(run).cache == sm.scriptShaCache && CacheRuns.After(run).Loaded(server) == node.scripts.Keys
    modifies sm
    ensures sm.Valid() && node'.WellFormed(sem)
    ensures ok ==>
              && cs' == RewrittenAll(sem, cs)
              && node' == Supplied(sem, cs, Known(old(sm.scriptShaCache), server), node)
    ensures loaded <= |toLoad| && (ok <==> loaded == |toLoad|)
    ensures var w := CacheRuns.After(run);
            var w' := CacheRuns.After(CacheRuns.JobRun(run, client, server, HashList(sem, toLoad), loaded));
            && w'.cache == sm.scriptShaCache && w'.Loaded(server) == node'.scripts.Keys && w'.jobs == w.jobs
            && forall s :: s != server ==> w'.Loaded(s) == w.Loaded(s)
  {
    ok, node', cs', toLoad, loaded := LoadOnNode(sem, sm, server, node, cs, refused);
    CacheRuns.AfterJob(run, client, server, HashList(sem, toLoad), loaded);
    HashListElements(sem, toLoad, loaded);
    HashListElements(sem, toLoad, |toLoad|);
    assert toLoad[..|toLoad|] == toLoad && HashList(sem, toLoad)[..|toLoad|] == HashList(sem, toLoad);
    hide CacheRuns.JobRun, CacheRuns.Elements, CacheRuns.Apply, ScriptCaches.Shas;
  }
}
