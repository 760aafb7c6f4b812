/** What a batch means: its commands one after the other in queue order, whatever node each of them goes to. */
module BatchMeaning {
  import opened Commands
  import opened Redis
  import opened Topology
  import opened Grouping
  import opened NodeJob
  import opened LoadScripts
  import opened Sequences

  type World = map<Server, Node>

  ghost predicate Covers(w: World, ts: seq<Server>) {
    forall t :: t in ts ==> t in w
  }

  /** The reference: every command runs on its node before the next one of the queue runs on its own. */
  function SeqRun(sem: Semantics, ts: seq<Server>, cs: seq<RedisCommand>, w: World): (r: (seq<Reply>, World))
    requires |ts| == |cs| && Covers(w, ts)
    ensures |r.0| == |cs| && r.1.Keys == w.Keys
  {
    if ts == [] then ([], w)
    else
      var (reply, n) := RunOne(sem, cs[0].OnPipeline(), w[ts[0]]);
      var (rest, last) := SeqRun(sem, ts[1..], cs[1..], w[ts[0] := n]);
      ([reply] + rest, last)
  }

  /** Running one node's commands alone gives that node's share of the whole run. */
  lemma {:induction false} SeqRunOnNode(sem: Semantics, ts: seq<Server>, cs: seq<RedisCommand>, w: World, s: Server)
    requires |ts| == |cs| && Covers(w, ts) && s in w
    ensures var (replies, w') := SeqRun(sem, ts, cs, w);
            RunAll(sem, Lowered(Pick(ts, cs, {s})), w[s]) == (Pick(ts, replies, {s}), w'[s])
  {
    hide RunOne;
    if ts != [] {
      var n := RunOne(sem, cs[0].OnPipeline(), w[ts[0]]).1;
      SeqRunOnNode(sem, ts[1..], cs[1..], w[ts[0] := n], s);
      if ts[0] == s {
        var mine := Pick(ts, cs, {s});
        LoweredTail(mine);
        assert mine[1..] == Pick(ts[1..], cs[1..], {s});
      } else {
        var replies := SeqRun(sem, ts, cs, w).0;
        assert Pick(ts, cs, {s}) == Pick(ts[1..], cs[1..], {s});
        assert Pick(ts, replies, {s}) == Pick(ts[1..], replies[1..], {s});
      }
    }
  }

  /** Two lists that agree node by node agree. */
  lemma {:induction false} PickDetermines<T>(ts: seq<Server>, xs: seq<T>, ys: seq<T>)
    requires |ts| == |xs| == |ys|
    requires forall s :: s in ts ==> Pick(ts, xs, {s}) == Pick(ts, ys, {s})
    ensures xs == ys
  {
    if ts != [] {
      var t, xs', ys' := ts[0], xs[1..], ys[1..];
      assert Pick(ts, xs, {t}) == [xs[0]] + Pick(ts[1..], xs', {t});
      assert Pick(ts, ys, {t}) == [ys[0]] + Pick(ts[1..], ys', {t});
      forall s | s in ts[1..] ensures Pick(ts[1..], xs', {s}) == Pick(ts[1..], ys', {s}) {
        if s == t {
          assert Pick(ts[1..], xs', {t}) == Pick(ts, xs, {t})[1..];
        } else {
          assert Pick(ts, xs, {s}) == Pick(ts[1..], xs', {s});
          assert Pick(ts, ys, {s}) == Pick(ts[1..], ys', {s});
        }
      }
      PickDetermines(ts[1..], xs', ys');
    }
  }

  lemma {:induction false} PickCommands(ts: seq<Server>, q: seq<Pending>, on: set<Server>)
    requires |ts| == |q|
    ensures CommandsOf(Pick(ts, q, on)) == Pick(ts, CommandsOf(q), on)
  {
    hide CommandsOf;
    if ts != [] {
      PickCommands(ts[1..], q[1..], on);
      assert CommandsOf(q)[1..] == CommandsOf(q[1..]);
      var rest := Pick(ts[1..], q[1..], on);
      if ts[0] in on {
        assert CommandsOf([q[0]] + rest) == [q[0].cmd] + CommandsOf(rest);
      } else {
        assert [] + rest == rest;
      }
    }
  }

  // ---------- The script rewrite, over the whole batch ----------

  /** The commands as sent: with the script cache on, EVAL travels as EVALSHA. */
  function Wire(sem: Semantics, useScriptCache: bool, cs: seq<RedisCommand>): (r: seq<RedisCommand>)
    ensures |r| == |cs|
  {
    if useScriptCache then RewrittenAll(sem, cs) else cs
  }

  /** The nodes once they are supplied with the scripts of the batch that `cache` does not claim to be there. */
  function Ready(
    sem: Semantics, useScriptCache: bool, cache: Belief, ts: seq<Server>, cs: seq<RedisCommand>, w: World): (r: World)
    requires |ts| == |cs|
    ensures r.Keys == w.Keys
  {
    map s | s in w :: if useScriptCache then Supplied(sem, Pick(ts, cs, {s}), Known(cache, s), w[s]) else w[s]
  }

  ghost predicate AllWellFormed(sem: Semantics, w: World) {
    forall s :: s in w ==> w[s].WellFormed(sem)
  }

  lemma RewrittenConcat(sem: Semantics, a: seq<RedisCommand>, b: seq<RedisCommand>)
    ensures RewrittenAll(sem, a + b) == RewrittenAll(sem, a) + RewrittenAll(sem, b)
  {
    hide Rewritten;
  }

  lemma {:induction false} PickRewritten(sem: Semantics, ts: seq<Server>, cs: seq<RedisCommand>, on: set<Server>)
    requires |ts| == |cs|
    ensures Pick(ts, RewrittenAll(sem, cs), on) == RewrittenAll(sem, Pick(ts, cs, on))
  {
    hide RewrittenAll, Rewritten;
    if ts != [] {
      PickRewritten(sem, ts[1..], cs[1..], on);
      RewrittenConcat(sem, [cs[0]], cs[1..]);
      assert cs == [cs[0]] + cs[1..];
      assert RewrittenAll(sem, cs)[1..] == RewrittenAll(sem, cs[1..]);
      var rest := Pick(ts[1..], cs[1..], on);
      if ts[0] in on {
        RewrittenConcat(sem, [cs[0]], rest);
        assert RewrittenAll(sem, [cs[0]]) == [RewrittenAll(sem, cs)[0]];
      } else {
        assert Pick(ts, cs, on) == rest;
      }
    }
  }

  /** No node's share of the batch refers by hash to a script only a later EVAL of that share brings in. */
  ghost predicate NoForwardReferences(sem: Semantics, ts: seq<Server>, cs: seq<RedisCommand>, w: World)
    requires |ts| == |cs| && Covers(w, ts)
  {
    forall s :: s in ts ==> NoForwardReference(sem, Pick(ts, cs, {s}), w[s].scripts.Keys)
  }

  /** No node lacks a script of its share that `cache` claims it holds. */
  ghost predicate NothingLost(sem: Semantics, cache: Belief, ts: seq<Server>, cs: seq<RedisCommand>, w: World)
    requires |ts| == |cs| && Covers(w, ts)
  {
    forall s :: s in ts ==> NoneLost(sem, Pick(ts, cs, {s}), Known(cache, s), w[s].scripts.Keys)
  }

  /** What one node answers to its share of the rewritten batch. */
  lemma ShareOfRewritten(
    sem: Semantics, cache: Belief, ts: seq<Server>, cs: seq<RedisCommand>, w: World, s: Server)
    requires |ts| == |cs| && Covers(w, ts) && s in w
    ensures var mine, ready := Pick(ts, cs, {s}), Ready(sem, true, cache, ts, cs, w);
            var (replies, w') := SeqRun(sem, ts, RewrittenAll(sem, cs), ready);
            && ready[s] == Supplied(sem, mine, Known(cache, s), w[s])
            && RunAll(sem, Lowered(RewrittenAll(sem, mine)), ready[s]) == (Pick(ts, replies, {s}), w'[s])
  {
    PickRewritten(sem, ts, cs, {s});
    SeqRunOnNode(sem, ts, RewrittenAll(sem, cs), Ready(sem, true, cache, ts, cs, w), s);
  }

  lemma ShareAnswersAlikeIff(
    sem: Semantics, cache: Belief, ts: seq<Server>, cs: seq<RedisCommand>, w: World, s: Server)
    requires |ts| == |cs| && Covers(w, ts) && AllWellFormed(sem, w) && s in w
    requires CollisionFree(sem) && BodyNeverNoScript(sem)
    ensures var after := SeqRun(sem, ts, RewrittenAll(sem, cs), Ready(sem, true, cache, ts, cs, w)).0;
            var mine := Pick(ts, cs, {s});
            Pick(ts, after, {s}) == Pick(ts, SeqRun(sem, ts, cs, w).0, {s})
            <==> && NoForwardReference(sem, mine, w[s].scripts.Keys)
                 && NoneLost(sem, mine, Known(cache, s), w[s].scripts.Keys)
  {
    ShareOfRewritten(sem, cache, ts, cs, w, s);
    SeqRunOnNode(sem, ts, cs, w, s);
    hide SeqRun, Pick, Ready, RunAll, NoForwardReference, NoneLost, CollisionFree, BodyNeverNoScript, Supplied;
    RewriteSuppliedIff(sem, Pick(ts, cs, {s}), Known(cache, s), w[s]);
  }

  /**
    The rewritten batch answers like the batch as queued exactly if there are no forward references and no node has lost
    a script that the client believes it holds and the batch relies on.
  */
  lemma RewrittenAnswersAlikeIff(sem: Semantics, cache: Belief, ts: seq<Server>, cs: seq<RedisCommand>, w: World)
    requires |ts| == |cs| && Covers(w, ts) && AllWellFormed(sem, w)
    requires CollisionFree(sem) && BodyNeverNoScript(sem)
    ensures SeqRun(sem, ts, RewrittenAll(sem, cs), Ready(sem, true, cache, ts, cs, w)).0 == SeqRun(sem, ts, cs, w).0
            <==> NoForwardReferences(sem, ts, cs, w) && NothingLost(sem, cache, ts, cs, w)
  {
    var before := SeqRun(sem, ts, cs, w).0;
    var after := SeqRun(sem, ts, RewrittenAll(sem, cs), Ready(sem, true, cache, ts, cs, w)).0;
    forall s | s in ts
      ensures Pick(ts, after, {s}) == Pick(ts, before, {s}) <==>
                && NoForwardReference(sem, Pick(ts, cs, {s}), w[s].scripts.Keys)
                && NoneLost(sem, Pick(ts, cs, {s}), Known(cache, s), w[s].scripts.Keys)
    {
      ShareAnswersAlikeIff(sem, cache, ts, cs, w, s);
    }
    if NoForwardReferences(sem, ts, cs, w) && NothingLost(sem, cache, ts, cs, w) {
      PickDetermines(ts, after, before);
    }
  }

  /** With no EVAL left among the commands, one whose script its node lacks is told so, whatever runs before it. */
  lemma {:induction false} LackedStaysMissing(
    sem: Semantics, ts: seq<Server>, cs: seq<RedisCommand>, w: World, i: nat)
    requires |ts| == |cs| && Covers(w, ts) && (forall c :: c in cs ==> !c.Eval?)
    requires i < |cs| && cs[i].EvalSha? && cs[i].sha !in w[ts[i]].scripts
    ensures SeqRun(sem, ts, cs, w).0[i] == Err(NOSCRIPT)
  {
    assert cs[0] in cs;
    if i > 0 {
      HeldAfter(sem, cs[0].OnPipeline(), w[ts[0]]);
      var n := RunOne(sem, cs[0].OnPipeline(), w[ts[0]]).1;
      LackedStaysMissing(sem, ts[1..], cs[1..], w[ts[0] := n], i - 1);
    }
  }

  lemma ShareRunsAlike(
    sem: Semantics, cache: Belief, ts: seq<Server>, cs: seq<RedisCommand>, w: World, s: Server)
    requires |ts| == |cs| && Covers(w, ts) && AllWellFormed(sem, w) && s in w
    requires CollisionFree(sem)
    requires s in ts ==> NoForwardReference(sem, Pick(ts, cs, {s}), w[s].scripts.Keys)
    requires s in ts ==> NoneLost(sem, Pick(ts, cs, {s}), Known(cache, s), w[s].scripts.Keys)
    ensures var (before, w1) := SeqRun(sem, ts, cs, w);
            var (after, w2) := SeqRun(sem, ts, RewrittenAll(sem, cs), Ready(sem, true, cache, ts, cs, w));
            Pick(ts, after, {s}) == Pick(ts, before, {s}) && w1[s] == w2[s]
  {
    ShareOfRewritten(sem, cache, ts, cs, w, s);
    SeqRunOnNode(sem, ts, cs, w, s);
    if s !in ts {
      PickNone(ts, cs, {s});
    }
    SuppliedPreloads(sem, Pick(ts, cs, {s}), Known(cache, s), w[s]);
    hide SeqRun, Pick, CollisionFree, Rewritten, Supplied, NoneLost;
    RewritePreserves(sem, Pick(ts, cs, {s}), w[s], Ready(sem, true, cache, ts, cs, w)[s]);
  }

  /** Then the nodes end alike as well, scripts included. */
  lemma RewrittenRunsAlike(sem: Semantics, cache: Belief, ts: seq<Server>, cs: seq<RedisCommand>, w: World)
    requires |ts| == |cs| && Covers(w, ts) && AllWellFormed(sem, w) && CollisionFree(sem)
    requires NoForwardReferences(sem, ts, cs, w) && NothingLost(sem, cache, ts, cs, w)
    ensures SeqRun(sem, ts, RewrittenAll(sem, cs), Ready(sem, true, cache, ts, cs, w)) == SeqRun(sem, ts, cs, w)
  {
    hide SeqRun, Pick, Ready, RewrittenAll, NoForwardReference, NoneLost, CollisionFree, AllWellFormed;
    var (before, w1) := SeqRun(sem, ts, cs, w);
    var (after, w2) := SeqRun(sem, ts, RewrittenAll(sem, cs), Ready(sem, true, cache, ts, cs, w));
    forall s | s in w ensures Pick(ts, after, {s}) == Pick(ts, before, {s}) && w1[s] == w2[s] {
      ShareRunsAlike(sem, cache, ts, cs, w, s);
    }
    PickDetermines(ts, after, before);
    assert w1 == w2;
  }

  // ---------- What callers and the batch result owe ----------

  /** Each queued command's caller with the answer to that command. */
  function Owed(
    sem: Semantics, opts: BatchOptions, fates: Server -> ExecFate, ts: seq<Server>, q: seq<Pending>,
    replies: seq<Reply>)
    : (r: seq<(nat, Answer)>)
    requires |ts| == |q| == |replies|
    ensures |r| == |q|
    ensures forall i :: 0 <= i < |q| ==> r[i] == (q[i].tx, AnswerTo(sem, opts, fates(ts[i]), replies[i]))
  {
    seq(|q|, i requires 0 <= i < |q| => (q[i].tx, AnswerTo(sem, opts, fates(ts[i]), replies[i])))
  }

  lemma {:induction false} OwedByNode(
    sem: Semantics, opts: BatchOptions, fates: Server -> ExecFate, ts: seq<Server>, q: seq<Pending>,
    replies: seq<Reply>,
    s: Server)
    requires |ts| == |q| == |replies|
    ensures |Pick(ts, q, {s})| == |Pick(ts, replies, {s})|
    ensures Pick(ts, Owed(sem, opts, fates, ts, q, replies), {s})
            == Combine(Sends(sem, opts, fates(s)), Pick(ts, q, {s}), Pick(ts, replies, {s}))
  {
    PickSameLength(ts, q, replies, {s});
    if ts != [] {
      OwedByNode(sem, opts, fates, ts[1..], q[1..], replies[1..], s);
      var owed := Owed(sem, opts, fates, ts, q, replies);
      assert owed[1..] == Owed(sem, opts, fates, ts[1..], q[1..], replies[1..]);
    }
  }

  function Pairs(sem: Semantics, opts: BatchOptions, q: seq<Pending>, replies: seq<Reply>): seq<(nat, Value)>
    requires |q| == |replies|
  {
    Combine(Indexed(sem, opts), q, replies)
  }

  // ---------- Ordering by index ----------

  ghost predicate Ascending(ps: seq<(nat, Value)>) {
    forall i, j :: 0 <= i < j < |ps| ==> ps[i].0 < ps[j].0
  }

  ghost predicate DistinctIndexes(ps: seq<(nat, Value)>) {
    forall i, j :: 0 <= i < j < |ps| ==> ps[i].0 != ps[j].0
  }

  /** The same, told by the elements alone. */
  ghost predicate OncePerIndex(ps: multiset<(nat, Value)>) {
    forall p, r :: p in ps && r in ps && p.0 == r.0 ==> p == r && ps[p] == 1
  }

  lemma DistinctIffOnce(ps: seq<(nat, Value)>)
    ensures DistinctIndexes(ps) <==> OncePerIndex(multiset(ps))
  {
    if DistinctIndexes(ps) {
      forall p, r | p in multiset(ps) && r in multiset(ps) && p.0 == r.0 ensures p == r && multiset(ps)[p] == 1 {
        var i :| 0 <= i < |ps| && ps[i] == p;
        CountedOnce(ps, i);
      }
    } else {
      var i, j :| 0 <= i < j < |ps| && ps[i].0 == ps[j].0;
      assert ps[i] in multiset(ps) && ps[j] in multiset(ps);
      CountedTwice(ps, i, j);
    }
  }

  function Insert(p: (nat, Value), ps: seq<(nat, Value)>): (r: seq<(nat, Value)>)
    ensures multiset(r) == multiset{p} + multiset(ps)
    ensures |r| == |ps| + 1
  {
    if ps == [] || p.0 <= ps[0].0 then [p] + ps
    else
      assert ps == [ps[0]] + ps[1..];
      [ps[0]] + Insert(p, ps[1..])
  }

  /** A stable sort by index. */
  function Ordered(ps: seq<(nat, Value)>): (r: seq<(nat, Value)>)
    ensures multiset(r) == multiset(ps) && |r| == |ps|
  {
    if ps == [] then []
    else
      assert ps == [ps[0]] + ps[1..];
      Insert(ps[0], Ordered(ps[1..]))
  }

  lemma {:induction false} InsertAscending(p: (nat, Value), ps: seq<(nat, Value)>)
    requires Ascending(ps) && forall r :: r in ps ==> r.0 != p.0
    ensures Ascending(Insert(p, ps))
  {
    if ps != [] && p.0 > ps[0].0 {
      InsertAscending(p, ps[1..]);
      var rest := Insert(p, ps[1..]);
      forall j | 0 <= j < |rest| ensures ps[0].0 < rest[j].0 {
        assert rest[j] in multiset(rest);
        if rest[j] != p {
          assert rest[j] in ps[1..];
        }
      }
    } else if ps != [] {
      assert ps[0] in ps;
    }
  }

  lemma {:induction false} OrderedAscending(ps: seq<(nat, Value)>)
    requires DistinctIndexes(ps)
    ensures Ascending(Ordered(ps))
  {
    if ps != [] {
      OrderedAscending(ps[1..]);
      forall r | r in Ordered(ps[1..]) ensures r.0 != ps[0].0 {
        assert r in multiset(Ordered(ps[1..]));
        assert r in ps[1..];
      }
      InsertAscending(ps[0], Ordered(ps[1..]));
    }
  }

  lemma AscendingFirst(a: seq<(nat, Value)>, b: seq<(nat, Value)>)
    requires Ascending(a) && Ascending(b) && a != [] && b != []
    requires a[0] in b && b[0] in a
    ensures a[0] == b[0]
  {
    var k :| 0 <= k < |b| && b[k] == a[0];
    var l :| 0 <= l < |a| && a[l] == b[0];
  }

  lemma TailElements(a: seq<(nat, Value)>)
    requires a != []
    ensures multiset(a[1..]) == multiset(a) - multiset{a[0]}
  {
    assert a == [a[0]] + a[1..];
  }

  lemma HeadAndTail(a: seq<(nat, Value)>, b: seq<(nat, Value)>)
    requires a != [] && b != [] && a[0] == b[0] && a[1..] == b[1..]
    ensures a == b
  {
    assert a == [a[0]] + a[1..] && b == [b[0]] + b[1..];
  }

  lemma SameElementsSameSize(a: seq<(nat, Value)>, b: seq<(nat, Value)>)
    requires multiset(a) == multiset(b)
    ensures |a| == |b|
  {
    assert |multiset(a)| == |a| && |multiset(b)| == |b|;
  }

  /** A list in ascending order is determined by its elements. */
  lemma {:induction false} AscendingUnique(a: seq<(nat, Value)>, b: seq<(nat, Value)>)
    requires Ascending(a) && Ascending(b) && multiset(a) == multiset(b)
    ensures a == b
  {
    SameElementsSameSize(a, b);
    if a != [] {
      assert a[0] in multiset(b) && b[0] in multiset(a);
      AscendingFirst(a, b);
      TailElements(a);
      TailElements(b);
      AscendingUnique(a[1..], b[1..]);
      HeadAndTail(a, b);
    }
  }

  /** However the nodes' shares are joined, sorting them gives the same list. */
  lemma JoinOrderIrrelevant(a: seq<(nat, Value)>, b: seq<(nat, Value)>)
    requires multiset(a) == multiset(b) && DistinctIndexes(a)
    ensures Ordered(a) == Ordered(b)
  {
    DistinctIffOnce(a);
    DistinctIffOnce(b);
    OrderedAscending(a);
    OrderedAscending(b);
    AscendingUnique(Ordered(a), Ordered(b));
  }

  /** How many pairs come before index `x`. */
  function Rank(ps: seq<(nat, Value)>, x: nat): nat {
    if ps == [] then 0 else (if ps[0].0 < x then 1 else 0) + Rank(ps[1..], x)
  }

  lemma {:induction false} InsertRank(p: (nat, Value), ps: seq<(nat, Value)>, x: nat)
    ensures Rank(Insert(p, ps), x) == Rank([p] + ps, x)
  {
    assert ([p] + ps)[1..] == ps;
    if ps != [] && p.0 > ps[0].0 {
      InsertRank(p, ps[1..], x);
      assert ([p] + ps[1..])[1..] == ps[1..];
      assert Insert(p, ps)[1..] == Insert(p, ps[1..]);
    }
  }

  lemma {:induction false} OrderedRank(ps: seq<(nat, Value)>, x: nat)
    ensures Rank(Ordered(ps), x) == Rank(ps, x)
  {
    if ps != [] {
      OrderedRank(ps[1..], x);
      var rest := Ordered(ps[1..]);
      InsertRank(ps[0], rest, x);
      assert ([ps[0]] + rest)[1..] == rest;
    }
  }

  lemma {:induction false} RankWhenAscending(ps: seq<(nat, Value)>, k: nat)
    requires Ascending(ps) && k < |ps|
    ensures Rank(ps, ps[k].0) == k
  {
    if k > 0 {
      RankWhenAscending(ps[1..], k - 1);
    } else {
      RankBelowAll(ps, ps[0].0);
    }
  }

  lemma {:induction false} RankBelowAll(ps: seq<(nat, Value)>, x: nat)
    requires forall i :: 0 <= i < |ps| ==> x <= ps[i].0
    ensures Rank(ps, x) == 0
  {
    if ps != [] {
      RankBelowAll(ps[1..], x);
    }
  }

  /** The i-th command's value stands where its index ranks, whatever node it came from. */
  lemma ResponseAtRank(ps: seq<(nat, Value)>, i: nat)
    requires DistinctIndexes(ps) && i < |ps|
    ensures var k := Rank(ps, ps[i].0); k < |Ordered(ps)| && Ordered(ps)[k] == ps[i]
  {
    var sorted := Ordered(ps);
    OrderedAscending(ps);
    assert ps[i] in multiset(sorted);
    var k :| 0 <= k < |sorted| && sorted[k] == ps[i];
    RankWhenAscending(sorted, k);
    OrderedRank(ps, ps[i].0);
  }

  lemma {:induction false} RankSnoc(ps: seq<(nat, Value)>, p: (nat, Value), x: nat)
    ensures Rank(ps + [p], x) == Rank(ps, x) + if p.0 < x then 1 else 0
  {
    if ps == [] {
      assert [] + [p] == [p];
    } else {
      assert (ps + [p])[1..] == ps[1..] + [p];
      RankSnoc(ps[1..], p, x);
    }
  }

  lemma OneMoreSmaller(ts: seq<Server>, ps: seq<(nat, Value)>, on: set<Server>, x: nat, m: nat)
    requires m < |ts| == |ps|
    ensures |set j | 0 <= j < m + 1 && ts[j] in on && ps[j].0 < x|
            == |set j | 0 <= j < m && ts[j] in on && ps[j].0 < x| + if ts[m] in on && ps[m].0 < x then 1 else 0
  {
    assert (set j | 0 <= j < m + 1 && ts[j] in on && ps[j].0 < x)
        == (set j | 0 <= j < m && ts[j] in on && ps[j].0 < x) + if ts[m] in on && ps[m].0 < x then {m} else {};
  }

  /** Among the pairs of some nodes an index ranks by how many positions of those nodes have a smaller one. */
  lemma {:induction false} RankOfPick(ts: seq<Server>, ps: seq<(nat, Value)>, on: set<Server>, x: nat, n: nat)
    requires n <= |ts| == |ps|
    ensures Rank(Pick(ts[..n], ps[..n], on), x) == |set j | 0 <= j < n && ts[j] in on && ps[j].0 < x|
  {
    var below := set j | 0 <= j < n && ts[j] in on && ps[j].0 < x;
    assert n == 0 ==> below == {};
    if n > 0 {
      var m := n - 1;
      RankOfPick(ts, ps, on, x, m);
      OneMoreSmaller(ts, ps, on, x, m);
      assert ts[..n] == ts[..m] + [ts[m]] && ps[..n] == ps[..m] + [ps[m]];
      PickSnoc(ts[..m], ps[..m], on, ts[m], ps[m]);
      var earlier := Pick(ts[..m], ps[..m], on);
      hide Pick, Rank;
      assert earlier + [] == earlier;
      RankSnoc(earlier, ps[m], x);
    }
  }

  /** Each pair of a sorted list stands where the number of smaller indexes puts it. */
  lemma OrderedAt(ps: seq<(nat, Value)>, i: nat)
    requires DistinctIndexes(ps) && i < |ps|
    ensures var k := |set j | 0 <= j < |ps| && ps[j].0 < ps[i].0|; k < |Ordered(ps)| && Ordered(ps)[k] == ps[i]
  {
    hide Rank, Ordered, DistinctIndexes;
    RankIsCount(ps, ps[i].0);
    ResponseAtRank(ps, i);
  }

  lemma RankIsCount(ps: seq<(nat, Value)>, x: nat)
    ensures Rank(ps, x) == |set j | 0 <= j < |ps| && ps[j].0 < x|
  {
    var ts, on := seq(|ps|, _ => Server("", 0)), {Server("", 0)};
    PickAll(ts, ps, on);
    RankOfPick(ts, ps, on, x, |ps|);
    hide Pick, Rank;
    assert ts[..|ps|] == ts && ps[..|ps|] == ps;
    assert (set j | 0 <= j < |ps| && ts[j] in on && ps[j].0 < x) == (set j | 0 <= j < |ps| && ps[j].0 < x);
  }

  /** Commands queued in index order are answered in queue order. */
  lemma {:induction false} AlreadyOrdered(ps: seq<(nat, Value)>)
    requires Ascending(ps)
    ensures Ordered(ps) == ps
  {
    if ps != [] {
      AlreadyOrdered(ps[1..]);
    }
  }
}
