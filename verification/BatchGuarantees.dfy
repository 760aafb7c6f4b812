/** What a successful batch guarantees its users, and exactly when. */
module BatchGuarantees {
  import opened Commands
  import opened Redis
  import opened Topology
  import opened Grouping
  import opened NodeJob
  import opened LoadScripts
  import opened BatchMeaning
  import opened Endpoints
  import opened BatchExecution

  ghost predicate EveryNodeReports(x: Setting, ts: seq<Server>) {
    forall s :: s in ts ==> !x.opts.skip && (x.opts.atomic ==> x.fates(s) == Commits)
  }

  /** One response per command, exactly when no node's transaction was aborted or refused. */
  lemma OneResponseEachIff(
    x: Setting, ts: seq<Server>, q: seq<Pending>, w: World, w': World, sends: seq<(nat, Answer)>, result: BatchResult)
    requires |ts| == |q| && Covers(w, ts) && Executed(x, ts, q, w, w', sends, result) && DistinctPending(q)
    ensures |result.responses| <= |q|
    ensures |result.responses| == |q| <==> EveryNodeReports(x, ts)
  {
    var pairs := Pairs(x.sem, x.opts, q, Reference(x, ts, q, w).0);
    PickLengthIff(ts, pairs, Reporting(x, Elems(ts)));
  }

  /**
    Every caller is told what became of its own command: with results skipped null; the command's value, if it has one;
    for an error, null outside a transaction and the error's element of EXEC's array inside one; and if the transaction
    did not commit, why.
  */
  lemma CallerIsTold(
    x: Setting, ts: seq<Server>, q: seq<Pending>, w: World, w': World, sends: seq<(nat, Answer)>,
    result: BatchResult, i: nat)
    requires |ts| == |q| && Covers(w, ts) && Executed(x, ts, q, w, w', sends, result) && i < |q|
    ensures var r, fate := Reference(x, ts, q, w).0[i], x.fates(ts[i]);
            && |sends| == |q|
            && (x.opts.skip ==> (q[i].tx, Answer(Null)) in sends)
            && (!x.opts.skip && (x.opts.atomic ==> fate == Commits) && r.Ok? ==> (q[i].tx, Answer(r.value)) in sends)
            && (!x.opts.skip && !x.opts.atomic && r.Err? ==> (q[i].tx, Answer(Null)) in sends)
            && (!x.opts.skip && x.opts.atomic && fate == Commits && r.Err? ==>
                  (q[i].tx, Answer(x.sem.errorElement(r.msg))) in sends)
            && (!x.opts.skip && x.opts.atomic && fate.AbortsNil? ==> (q[i].tx, Failure(ABORTED)) in sends)
            && (!x.opts.skip && x.opts.atomic && fate.Refuses? ==> (q[i].tx, Failure(fate.msg)) in sends)
  {
    OwnAnswerSent(x, ts, q, w, w', sends, result, i);
    SuccessSends(x, ts, q, w, w', sends, result);
    hide Executed, Reference;
    assert |multiset(sends)| == |sends|;
  }

  lemma ReportedAt(
    x: Setting, ts: seq<Server>, q: seq<Pending>, replies: seq<Reply>, i: nat)
    requires |ts| == |q| == |replies| && DistinctPending(q)
    requires i < |q| && !x.opts.skip && (x.opts.atomic ==> x.fates(ts[i]) == Commits)
    ensures var values := Values(Ordered(Pick(ts, Pairs(x.sem, x.opts, q, replies), Reporting(x, Elems(ts)))));
            var k := |set j | 0 <= j < |q| && (x.opts.atomic ==> x.fates(ts[j]) == Commits)
                              && q[j].index < q[i].index|;
            k < |values| && values[k] == Shown(x.sem, x.opts.atomic, replies[i])
  {
    var pairs, on := Pairs(x.sem, x.opts, q, replies), Reporting(x, Elems(ts));
    assert DistinctIndexes(pairs);
    assert pairs[i] == (q[i].index, Shown(x.sem, x.opts.atomic, replies[i])) && ts[i] in on;
    SameSmaller(x, ts, q, replies, i);
    hide Pick, Pairs, Reporting, Ordered, DistinctIndexes, Elems, DistinctPending, Shown;
    RankedAt(ts, pairs, on, i);
  }

  lemma RankedAt(ts: seq<Server>, pairs: seq<(nat, Value)>, on: set<Server>, i: nat)
    requires |ts| == |pairs| && DistinctIndexes(pairs) && i < |ts| && ts[i] in on
    ensures var k := |set j | 0 <= j < |pairs| && ts[j] in on && pairs[j].0 < pairs[i].0|;
            var ordered := Ordered(Pick(ts, pairs, on));
            k < |ordered| && ordered[k] == pairs[i]
  {
    hide Pick, Ordered, DistinctIndexes, Rank;
    var picked := Pick(ts, pairs, on);
    PickDistinct(ts, pairs, on);
    PickedOn(ts, pairs, on, i);
    var p :| 0 <= p < |picked| && picked[p] == pairs[i];
    ResponseAtRank(picked, p);
    RankOfPick(ts, pairs, on, pairs[i].0, |pairs|);
    assert ts[..|pairs|] == ts && pairs[..|pairs|] == pairs;
  }

  lemma SameSmaller(x: Setting, ts: seq<Server>, q: seq<Pending>, replies: seq<Reply>, i: nat)
    requires |ts| == |q| == |replies| && i < |q| && !x.opts.skip
    ensures var pairs, on := Pairs(x.sem, x.opts, q, replies), Reporting(x, Elems(ts));
            (set j | 0 <= j < |q| && ts[j] in on && pairs[j].0 < q[i].index)
            == set j | 0 <= j < |q| && (x.opts.atomic ==> x.fates(ts[j]) == Commits) && q[j].index < q[i].index
  {}

  lemma {:induction false} PickedOn<T>(ts: seq<Server>, xs: seq<T>, on: set<Server>, i: nat)
    requires |ts| == |xs| && i < |ts| && ts[i] in on
    ensures xs[i] in Pick(ts, xs, on)
  {
    if i > 0 {
      PickedOn(ts[1..], xs[1..], on, i - 1);
    }
  }

  /**
    A command whose node reports has its own value in the batch result, at the place given by how many reporting
    commands have a smaller index, and it is the value that the command's caller was sent.
  */
  lemma ResponseIsOwnReply(
    x: Setting, ts: seq<Server>, q: seq<Pending>, w: World, w': World, sends: seq<(nat, Answer)>,
    result: BatchResult, i: nat)
    requires |ts| == |q| && Covers(w, ts) && Executed(x, ts, q, w, w', sends, result) && DistinctPending(q)
    requires i < |q| && !x.opts.skip && (x.opts.atomic ==> x.fates(ts[i]) == Commits)
    ensures var r := Reference(x, ts, q, w).0[i];
            var k := |set j | 0 <= j < |q| && (x.opts.atomic ==> x.fates(ts[j]) == Commits)
                              && q[j].index < q[i].index|;
            && k < |result.responses|
            && result.responses[k] == (if r.Ok? then r.value
                                       else if x.opts.atomic then x.sem.errorElement(r.msg) else Null)
            && (q[i].tx, Answer(result.responses[k])) in sends
  {
    ReportedAt(x, ts, q, Reference(x, ts, q, w).0, i);
    CallerIsTold(x, ts, q, w, w', sends, result, i);
    ResponsesAre(x, ts, q, w, w', sends, result);
    hide Executed, Reference;
  }

  lemma ResponsesAre(
    x: Setting, ts: seq<Server>, q: seq<Pending>, w: World, w': World, sends: seq<(nat, Answer)>, result: BatchResult)
    requires |ts| == |q| && Covers(w, ts) && Executed(x, ts, q, w, w', sends, result) && DistinctPending(q)
    ensures var pairs := Pairs(x.sem, x.opts, q, Reference(x, ts, q, w).0);
            result.responses == Values(Ordered(Pick(ts, pairs, Reporting(x, Elems(ts)))))
  {}

  /** Commands queued in index order get their responses in queue order. */
  lemma ResponsesInQueueOrder(
    x: Setting, ts: seq<Server>, q: seq<Pending>, w: World, w': World, sends: seq<(nat, Answer)>, result: BatchResult)
    requires |ts| == |q| && Covers(w, ts) && Executed(x, ts, q, w, w', sends, result) && EveryNodeReports(x, ts)
    requires forall i, j :: 0 <= i < j < |q| ==> q[i].index < q[j].index
    ensures |result.responses| == |q|
    ensures forall i :: 0 <= i < |q| ==>
              var r := Reference(x, ts, q, w).0[i];
              result.responses[i] == if r.Ok? then r.value
                                     else if x.opts.atomic then x.sem.errorElement(r.msg) else Null
  {
    ResponsesAre(x, ts, q, w, w', sends, result);
    hide Executed, Reference, Covers, Pick, Reporting, EveryNodeReports, Ordered;
    var replies := Reference(x, ts, q, w).0;
    var pairs := Pairs(x.sem, x.opts, q, replies);
    AllReport(x, ts, pairs);
    assert Ascending(pairs);
    AlreadyOrdered(pairs);
    assert forall i :: 0 <= i < |q| ==> pairs[i].1 == Shown(x.sem, x.opts.atomic, replies[i]);
  }

  lemma AllReport(x: Setting, ts: seq<Server>, pairs: seq<(nat, Value)>)
    requires |ts| == |pairs| && EveryNodeReports(x, ts)
    ensures Pick(ts, pairs, Reporting(x, Elems(ts))) == pairs
  {
    PickAll(ts, pairs, Reporting(x, Elems(ts)));
  }

  /** The number that an answer to WAIT or WAITAOF counts for. */
  ghost predicate Counts(opts: BatchOptions, answer: Reply, n: int) {
    if opts.syncSlaves > 0 && (exists m :: answer == Ok(Integer(m))) then
      answer == Ok(Integer(n))
    else if opts.syncSlaves > 0 && (exists first, m, more :: answer == Ok(Array([first, Integer(m)] + more))) then
      exists first, more :: answer == Ok(Array([first, Integer(n)] + more))
    else
      n == 0
  }

  lemma CountsIsSynced(opts: BatchOptions, answer: Reply, n: int)
    requires Counts(opts, answer, n)
    ensures SyncedSlaves(opts, answer) == n
  {
    if answer.Ok? && answer.value.Array? && |answer.value.elems| > 1 && answer.value.elems[1].Integer? {
      var nums := answer.value.elems;
      assert nums == [nums[0], Integer(nums[1].n)] + nums[2..];
    }
  }

  function Sum(ns: seq<int>): int {
    if ns == [] then 0 else ns[0] + Sum(ns[1..])
  }

  /**
    The replica total of a batch counts, for each serving node once, the number in WAIT's answer or the second one in
    WAITAOF's. An answer without such a number, or a batch that does not synchronise, adds nothing.
  */
  lemma SyncedCounts(
    x: Setting, ts: seq<Server>, q: seq<Pending>, w: World, w': World, sends: seq<(nat, Answer)>,
    result: BatchResult, order: seq<Server>, counts: seq<int>)
    requires |ts| == |q| && Covers(w, ts) && Executed(x, ts, q, w, w', sends, result)
    requires |order| == |counts| && Elems(order) == Elems(ts)
    requires forall i, j :: 0 <= i < j < |order| ==> order[i] != order[j]
    requires forall i :: 0 <= i < |order| ==> Counts(x.opts, x.waits(order[i]), counts[i])
    ensures result.syncedSlaves == Sum(counts)
  {
    SumOverNodes(x, order, counts);
    hide Reference, SyncedOn, Counts;
  }

  lemma {:induction false} SumOverNodes(x: Setting, order: seq<Server>, counts: seq<int>)
    requires |order| == |counts|
    requires forall i, j :: 0 <= i < j < |order| ==> order[i] != order[j]
    requires forall i :: 0 <= i < |order| ==> Counts(x.opts, x.waits(order[i]), counts[i])
    ensures SyncedOn(x, Elems(order)) == Sum(counts)
  {
    if order == [] {
      assert Elems(order) == {};
    } else {
      CountsIsSynced(x.opts, x.waits(order[0]), counts[0]);
      SumOverNodes(x, order[1..], counts[1..]);
      assert Elems(order) == Elems(order[1..]) + {order[0]};
      SyncedAnother(x, Elems(order[1..]), order[0]);
    }
  }

  /**
    The reference is the batch as queued, without any script rewriting, exactly when there are no forward references
    and no EVAL's script is one the client wrongly takes its node to have.
  */
  lemma ReferenceIsQueueIff(x: Setting, ts: seq<Server>, q: seq<Pending>, w: World)
    requires |ts| == |q| && Covers(w, ts) && AllWellFormed(x.sem, w)
    requires CollisionFree(x.sem) && BodyNeverNoScript(x.sem)
    ensures Reference(x, ts, q, w).0 == SeqRun(x.sem, ts, CommandsOf(q), w).0
            <==> !x.useScriptCache
                 || (NoForwardReferences(x.sem, ts, CommandsOf(q), w)
                     && NothingLost(x.sem, x.belief, ts, CommandsOf(q), w))
  {
    if x.useScriptCache {
      RewrittenAnswersAlikeIff(x.sem, x.belief, ts, CommandsOf(q), w);
    } else {
      assert Ready(x.sem, false, x.belief, ts, CommandsOf(q), w) == w;
    }
  }

  /**
    The caller of an EVAL whose script its node has lost, which the client does not know, is told that the script is
    missing as its answer: outside a transaction that is null, like the answer of a script that returns nothing.
  */
  lemma LostScriptAnswersNull(
    x: Setting, ts: seq<Server>, q: seq<Pending>, w: World, w': World, sends: seq<(nat, Answer)>,
    result: BatchResult, i: nat)
    requires |ts| == |q| && Covers(w, ts) && Executed(x, ts, q, w, w', sends, result) && x.useScriptCache
    requires i < |q| && q[i].cmd.Eval? && x.sem.sha1(q[i].cmd.script) in Known(x.belief, ts[i]) - w[ts[i]].scripts.Keys
    ensures (q[i].tx, AnswerTo(x.sem, x.opts, x.fates(ts[i]), Err(NOSCRIPT))) in sends
    ensures !x.opts.atomic ==> (q[i].tx, Answer(Null)) in sends
  {
    hide Executed, Reference, Covers;
    LostReply(x, ts, q, w, i);
    OwnAnswerSent(x, ts, q, w, w', sends, result, i);
  }

  /** Every caller is sent the answer that its command's reply makes. */
  lemma OwnAnswerSent(
    x: Setting, ts: seq<Server>, q: seq<Pending>, w: World, w': World, sends: seq<(nat, Answer)>,
    result: BatchResult, i: nat)
    requires |ts| == |q| && Covers(w, ts) && Executed(x, ts, q, w, w', sends, result) && i < |q|
    ensures (q[i].tx, AnswerTo(x.sem, x.opts, x.fates(ts[i]), Reference(x, ts, q, w).0[i])) in sends
  {
    SuccessSends(x, ts, q, w, w', sends, result);
    hide Executed, Reference, AnswerTo;
    var owed := Owed(x.sem, x.opts, x.fates, ts, q, Reference(x, ts, q, w).0);
    assert owed[i] in multiset(owed);
    assert owed[i] in multiset(sends);
  }

  lemma LostReply(x: Setting, ts: seq<Server>, q: seq<Pending>, w: World, i: nat)
    requires |ts| == |q| && Covers(w, ts) && x.useScriptCache
    requires i < |q| && q[i].cmd.Eval? && x.sem.sha1(q[i].cmd.script) in Known(x.belief, ts[i]) - w[ts[i]].scripts.Keys
    ensures Reference(x, ts, q, w).0[i] == Err(NOSCRIPT)
  {
    hide SeqRun, Pick, Carried;
    var cs := CommandsOf(q);
    LackedStaysMissing(x.sem, ts, RewrittenAll(x.sem, cs), Ready(x.sem, true, x.belief, ts, cs, w), i);
  }

  /** A batch that commits everywhere leaves every node as running the queue one command at a time would. */
  lemma NodesEndAsQueued(
    x: Setting, ts: seq<Server>, q: seq<Pending>, w: World, w': World, sends: seq<(nat, Answer)>, result: BatchResult)
    requires |ts| == |q| && Covers(w, ts) && AllWellFormed(x.sem, w) && CollisionFree(x.sem)
    requires Executed(x, ts, q, w, w', sends, result)
    requires x.opts.atomic ==> forall s :: s in ts ==> x.fates(s) == Commits
    requires x.useScriptCache ==>
               NoForwardReferences(x.sem, ts, CommandsOf(q), w) && NothingLost(x.sem, x.belief, ts, CommandsOf(q), w)
    ensures w' == SeqRun(x.sem, ts, CommandsOf(q), w).1
  {
    hide Executed, Reference, SeqRun, CommandsOf, NoForwardReferences, NothingLost, CollisionFree, AllWellFormed,
         Covers;
    ReferenceEndsAsQueued(x, ts, q, w);
    CommittedEnds(x, ts, q, w, w', sends, result);
    var last := SeqRun(x.sem, ts, CommandsOf(q), w).1;
    forall s | s in w && s !in ts ensures last[s] == w[s] {
      SeqRunLeaves(x.sem, ts, CommandsOf(q), w, s);
    }
    assert w' == last;
  }

  lemma ReferenceEndsAsQueued(x: Setting, ts: seq<Server>, q: seq<Pending>, w: World)
    requires |ts| == |q| && Covers(w, ts) && AllWellFormed(x.sem, w) && CollisionFree(x.sem)
    requires x.useScriptCache ==>
               NoForwardReferences(x.sem, ts, CommandsOf(q), w) && NothingLost(x.sem, x.belief, ts, CommandsOf(q), w)
    ensures Reference(x, ts, q, w) == SeqRun(x.sem, ts, CommandsOf(q), w)
  {
    hide SeqRun, CommandsOf, NoForwardReferences, NothingLost, CollisionFree, AllWellFormed;
    if x.useScriptCache {
      RewrittenRunsAlike(x.sem, x.belief, ts, CommandsOf(q), w);
    } else {
      assert Ready(x.sem, false, x.belief, ts, CommandsOf(q), w) == w;
    }
  }

  lemma CommittedEnds(
    x: Setting, ts: seq<Server>, q: seq<Pending>, w: World, w': World, sends: seq<(nat, Answer)>, result: BatchResult)
    requires |ts| == |q| && Covers(w, ts) && Executed(x, ts, q, w, w', sends, result)
    requires x.opts.atomic ==> forall s :: s in ts ==> x.fates(s) == Commits
    ensures w'.Keys == w.Keys
    ensures forall s :: s in w ==> w'[s] == if s in ts then Reference(x, ts, q, w).1[s] else w[s]
  {
    hide SeqRun, Pick, Pairs, Owed, SyncedOn, Ordered, Ready, Wire;
  }

  lemma {:induction false} SeqRunLeaves(
    sem: Semantics, ts: seq<Server>, cs: seq<RedisCommand>, w: World, s: Server)
    requires |ts| == |cs| && Covers(w, ts) && s in w && s !in ts
    ensures SeqRun(sem, ts, cs, w).1[s] == w[s]
  {
    if ts != [] {
      var n := RunOne(sem, cs[0].OnPipeline(), w[ts[0]]).1;
      SeqRunLeaves(sem, ts[1..], cs[1..], w[ts[0] := n], s);
    }
  }

  /** An aborted transaction leaves its node's data alone. */
  lemma AbortedNodeKeepsData(
    x: Setting, ts: seq<Server>, q: seq<Pending>, w: World, w': World, sends: seq<(nat, Answer)>,
    result: BatchResult, s: Server)
    requires |ts| == |q| && Covers(w, ts) && Executed(x, ts, q, w, w', sends, result) && s in w
    requires x.opts.atomic && x.fates(s) != Commits
    ensures w'[s].data == w[s].data
  {
    hide SeqRun, Pick, Pairs, Owed, SyncedOn, Ordered;
  }
}
