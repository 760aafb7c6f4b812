/**
  The life of a batch under any interleaving of its users: callers enqueue, one of them executes or discards. Every
  step below is one atomic action: a fetch-and-add, a compare-and-swap, or what happens under the queue's lock.
*/
module BatchLifecycle {
  import opened Commands
  import opened Options
  import opened Redis
  import opened Topology
  import opened Grouping
  import opened NodeJob
  import opened BatchMeaning
  import opened Endpoints
  import opened BatchExecution
  import BatchGuarantees
  import ScriptCaches
  import opened Sequences

  /** The index counter is a 64-bit word. */
  const WRAP: nat := 0x1_0000_0000_0000_0000

  /** How a waiting caller's channel ends: with the batch's answer, with "batch discarded", or closed. */
  datatype Outcome = Answered(answer: Answer) | Discarded | Closed

  datatype Winner = Nobody | Executor | Discarder

  datatype Step =
    | Issue(cmd: RedisCommand)
    | Push(tx: nat)
    | Cancel(tx: nat)
    | Execute
    | Discard
    | Take
    | DiscardAll
    | Reply(tx: nat, answer: Answer)
    | Close(tx: nat)

  /** Callers are numbered in the order of their fetch-and-add; `pending` are those between it and the lock. */
  datatype State = State(
    executed: bool, nextIndex: nat, queue: seq<Pending>,
    issued: nat, pending: map<nat, Pending>, winner: Winner, taken: bool, inFlight: set<nat>,
    resolved: seq<(nat, Outcome)>)

  datatype Run = Start | Then(before: Run, step: Step)

  function Txs(q: seq<Pending>): (r: seq<nat>)
    ensures |r| == |q| && forall i :: 0 <= i < |r| ==> r[i] == q[i].tx
  {
    seq(|q|, i requires 0 <= i < |q| => q[i].tx)
  }

  function Resolved(rs: seq<(nat, Outcome)>): (r: seq<nat>)
    ensures |r| == |rs| && forall i :: 0 <= i < |r| ==> r[i] == rs[i].0
  {
    seq(|rs|, i requires 0 <= i < |rs| => rs[i].0)
  }

  function AllDiscarded(q: seq<Pending>): (r: seq<(nat, Outcome)>)
    ensures |r| == |q| && forall i :: 0 <= i < |r| ==> r[i] == (q[i].tx, Discarded)
  {
    seq(|q|, i requires 0 <= i < |q| => (q[i].tx, Discarded))
  }

  /** A step that its taker is not in a position to take changes nothing. */
  function Apply(s: State, step: Step): State {
    match step
    case Issue(cmd) =>
      s.(issued := s.issued + 1, nextIndex := (s.nextIndex + 1) % WRAP,
         pending := s.pending[s.issued := Pending(cmd, s.issued, s.nextIndex)])
    case Push(tx) =>
      if tx in s.pending then s.(queue := s.queue + [s.pending[tx]], pending := s.pending - {tx}) else s
    case Cancel(tx) =>
      if tx in s.pending then s.(pending := s.pending - {tx}, resolved := s.resolved + [(tx, Closed)]) else s
    case Execute => if s.executed then s else s.(executed := true, winner := Executor)
    case Discard => if s.executed then s else s.(executed := true, winner := Discarder)
    case Take =>
      if s.winner == Executor && !s.taken then s.(taken := true, queue := [], inFlight := TxSet(s.queue)) else s
    case DiscardAll =>
      if s.winner == Discarder && !s.taken
      then s.(taken := true, queue := [], resolved := s.resolved + AllDiscarded(s.queue)) else s
    case Reply(tx, answer) => Resolve(s, tx, Answered(answer))
    case Close(tx) => Resolve(s, tx, Closed)
  }

  /** An executor can only resolve a sender it holds, and only by giving it up. */
  function Resolve(s: State, tx: nat, outcome: Outcome): State {
    if tx in s.inFlight then s.(inFlight := s.inFlight - {tx}, resolved := s.resolved + [(tx, outcome)]) else s
  }

  function TxSet(q: seq<Pending>): set<nat> {
    set p | p in q :: p.tx
  }

  function After(run: Run): State {
    if run.Start? then State(false, 0, [], 0, map[], Nobody, false, {}, []) else Apply(After(run.before), run.step)
  }

  // ---------- Where a caller's sender is ----------

  function One(b: bool): nat {
    if b then 1 else 0
  }

  /** In how many places the sender of caller `t` is. */
  function Places(s: State, t: nat): nat {
    One(t in s.pending) + multiset(Txs(s.queue))[t] + One(t in s.inFlight) + multiset(Resolved(s.resolved))[t]
  }

  ghost predicate Shaped(s: State) {
    && (forall t :: t in s.pending ==> s.pending[t].tx == t)
    && (!s.taken || s.winner == Discarder ==> s.inFlight == {})
    && (s.taken ==> s.winner != Nobody) && (s.executed <==> s.winner != Nobody)
  }

  ghost predicate Conserved(s: State) {
    forall t: nat :: Places(s, t) == One(t < s.issued)
  }

  lemma TxsSnoc(q: seq<Pending>, p: Pending)
    ensures multiset(Txs(q + [p])) == multiset(Txs(q)) + multiset{p.tx}
  {
    assert Txs(q + [p]) == Txs(q) + [p.tx];
  }

  lemma ResolvedSnoc(rs: seq<(nat, Outcome)>, r: (nat, Outcome))
    ensures multiset(Resolved(rs + [r])) == multiset(Resolved(rs)) + multiset{r.0}
  {
    assert Resolved(rs + [r]) == Resolved(rs) + [r.0];
  }

  lemma ResolvedDiscarded(rs: seq<(nat, Outcome)>, q: seq<Pending>)
    ensures multiset(Resolved(rs + AllDiscarded(q))) == multiset(Resolved(rs)) + multiset(Txs(q))
  {
    assert Resolved(rs + AllDiscarded(q)) == Resolved(rs) + Txs(q);
  }

  lemma NoTxs()
    ensures multiset(Txs([])) == multiset{} && multiset(Resolved([])) == multiset{}
  {
    assert Txs([]) == [] && Resolved([]) == [];
  }

  lemma TakenIffQueued(q: seq<Pending>, t: nat)
    ensures t in TxSet(q) <==> multiset(Txs(q))[t] > 0
  {
    if t in TxSet(q) {
      var i :| 0 <= i < |q| && q[i].tx == t;
      assert Txs(q)[i] in multiset(Txs(q));
    }
    if multiset(Txs(q))[t] > 0 {
      assert t in Txs(q);
      var i :| 0 <= i < |q| && Txs(q)[i] == t;
      assert q[i] in q;
    }
  }

  lemma PushMoves(s: State, tx: nat, t: nat)
    requires Shaped(s) && tx in s.pending
    ensures Places(Apply(s, Push(tx)), t) == Places(s, t)
  {
    TxsSnoc(s.queue, s.pending[tx]);
    hide Txs, Resolved;
  }

  lemma CancelMoves(s: State, tx: nat, t: nat)
    requires tx in s.pending
    ensures Places(Apply(s, Cancel(tx)), t) == Places(s, t)
  {
    ResolvedSnoc(s.resolved, (tx, Closed));
    hide Txs, Resolved;
  }

  lemma ResolveMoves(s: State, tx: nat, outcome: Outcome, t: nat)
    requires tx in s.inFlight
    ensures Places(Resolve(s, tx, outcome), t) == Places(s, t)
  {
    ResolvedSnoc(s.resolved, (tx, outcome));
    hide Txs, Resolved;
  }

  lemma DiscardMoves(s: State, t: nat)
    ensures Places(Apply(s, DiscardAll), t) == Places(s, t)
  {
    NoTxs();
    ResolvedDiscarded(s.resolved, s.queue);
    hide Txs, Resolved, AllDiscarded;
  }

  lemma TakeMoves(s: State, t: nat)
    requires Shaped(s) && Places(s, t) <= 1
    ensures Places(Apply(s, Take), t) == Places(s, t)
  {
    NoTxs();
    TakenIffQueued(s.queue, t);
    hide Txs, Resolved, TxSet;
  }

  /** A step moves senders between places; only an issue makes a new one. */
  lemma StepConserves(s: State, step: Step, t: nat)
    requires Shaped(s) && Places(s, t) == One(t < s.issued)
    ensures Places(Apply(s, step), t) == One(t < Apply(s, step).issued)
  {
    hide Txs, Resolved, AllDiscarded, TxSet;
    if step.Push? && step.tx in s.pending { PushMoves(s, step.tx, t); }
    if step.Cancel? && step.tx in s.pending { CancelMoves(s, step.tx, t); }
    if step.Reply? && step.tx in s.inFlight { ResolveMoves(s, step.tx, Answered(step.answer), t); }
    if step.Close? && step.tx in s.inFlight { ResolveMoves(s, step.tx, Closed, t); }
    if step.DiscardAll? { DiscardMoves(s, t); }
    if step.Take? { TakeMoves(s, t); }
  }

  lemma {:induction false} AlwaysShaped(run: Run)
    ensures Shaped(After(run))
  {
    if run.Then? {
      AlwaysShaped(run.before);
      hide Shaped, Apply;
      ShapedStep(After(run.before), run.step);
    }
  }

  lemma ShapedStep(s: State, step: Step)
    requires Shaped(s)
    ensures Shaped(Apply(s, step))
  {
    hide Txs, Resolved, AllDiscarded, TxSet;
  }

  /** In every reachable state every issued sender is in exactly one place: pending, queued, in flight or resolved. */
  lemma {:induction false} EachSenderInOnePlace(run: Run)
    ensures Conserved(After(run))
  {
    if run.Start? {
      NoTxs();
      hide Txs, Resolved;
    } else {
      hide Apply, Places, Shaped;
      AlwaysShaped(run.before);
      EachSenderInOnePlace(run.before);
      forall t: nat { StepConserves(After(run.before), run.step, t); }
    }
  }

  /** So no caller is resolved twice, ever. */
  lemma ResolvedAtMostOnce(run: Run, i: nat, j: nat)
    requires i < j < |After(run).resolved|
    ensures After(run).resolved[i].0 != After(run).resolved[j].0
  {
    EachSenderInOnePlace(run);
    var s := After(run);
    var rs := Resolved(s.resolved);
    assert Places(s, rs[i]) <= 1;
    CountedTwice(rs, i, j);
  }

  // ---------- One taker ----------

  /** The steps of the run that found the batch not executed yet and claimed it. */
  function Claims(run: Run): nat {
    if run.Start? then 0
    else Claims(run.before) + One((run.step.Execute? || run.step.Discard?) && !After(run.before).executed)
  }

  /** Of all attempts to execute or discard, exactly the first succeeds. */
  lemma {:induction false} AtMostOneTaker(run: Run)
    ensures Claims(run) == One(After(run).executed)
  {
    if run.Then? {
      AtMostOneTaker(run.before);
      hide AllDiscarded, TxSet;
    }
  }

  /** An answer comes only from an executed batch and "batch discarded" only from a discarded one. */
  ghost predicate OutcomesMatch(s: State) {
    forall r :: r in s.resolved ==>
      && (r.1.Answered? ==> s.winner == Executor && s.taken)
      && (r.1 == Discarded ==> s.winner == Discarder)
  }

  lemma {:induction false} NeverAnsweredAndDiscarded(run: Run)
    ensures OutcomesMatch(After(run))
  {
    if run.Then? {
      AlwaysShaped(run.before);
      NeverAnsweredAndDiscarded(run.before);
      OutcomesStep(After(run.before), run.step);
    }
  }

  lemma OutcomesStep(s: State, step: Step)
    requires OutcomesMatch(s) && Shaped(s)
    ensures OutcomesMatch(Apply(s, step))
  {
    hide TxSet;
    if step.DiscardAll? {
      forall r | r in AllDiscarded(s.queue) ensures r.1 == Discarded {}
    }
  }

  // ---------- Indexes ----------

  /** The index the fetch-and-add gave caller `t`. */
  function IndexOf(run: Run, t: nat): nat
    requires t < After(run).issued
  {
    if run.step.Issue? && t == After(run.before).issued then After(run.before).nextIndex else IndexOf(run.before, t)
  }

  lemma NextIndex(n: nat)
    ensures (n % WRAP + 1) % WRAP == (n + 1) % WRAP
  {}

  lemma {:induction false} IndexCountsCallers(run: Run)
    ensures After(run).nextIndex == After(run).issued % WRAP
  {
    if run.Then? {
      IndexCountsCallers(run.before);
      NextIndex(After(run.before).issued);
      hide AllDiscarded, TxSet;
    }
  }

  lemma {:induction false} IndexOfCaller(run: Run, t: nat)
    requires t < After(run).issued
    ensures IndexOf(run, t) == t % WRAP
  {
    if run.step.Issue? && t == After(run.before).issued {
      IndexCountsCallers(run.before);
    } else {
      IndexOfCaller(run.before, t);
    }
  }

  /** Indexes are distinct exactly as long as the counter has not wrapped around. */
  lemma DistinctIndexesIff(run: Run)
    ensures (forall t, u :: 0 <= t < u < After(run).issued ==> IndexOf(run, t) != IndexOf(run, u))
            <==> After(run).issued <= WRAP
  {
    hide IndexOf, Apply, After;
    var n := After(run).issued;
    if n <= WRAP {
      forall t, u | 0 <= t < u < n ensures IndexOf(run, t) != IndexOf(run, u) {
        IndexOfCaller(run, t);
        IndexOfCaller(run, u);
      }
    } else {
      var last := WRAP;
      IndexOfCaller(run, 0);
      IndexOfCaller(run, last);
      assert 0 <= 0 < last < n && IndexOf(run, 0) == IndexOf(run, last);
    }
  }

  ghost predicate Numbered(s: State) {
    && (forall t :: t in s.pending ==> s.pending[t].index == t % WRAP)
    && (forall p :: p in s.queue ==> p.index == p.tx % WRAP)
  }

  lemma {:induction false} AlwaysNumbered(run: Run)
    ensures Numbered(After(run))
  {
    if run.Then? {
      AlwaysShaped(run.before);
      AlwaysNumbered(run.before);
      IndexCountsCallers(run.before);
      hide Shaped, Apply, Numbered;
      NumberedStep(After(run.before), run.step);
    }
  }

  lemma NumberedStep(s: State, step: Step)
    requires Shaped(s) && Numbered(s) && s.nextIndex == s.issued % WRAP
    ensures Numbered(Apply(s, step))
  {
    hide Txs, Resolved, AllDiscarded, TxSet;
  }

  /** What an executor takes from the queue has one entry per caller and, before wrap-around, distinct indexes. */
  lemma QueueIsExecutable(run: Run)
    ensures var s := After(run);
            && (forall i, j :: 0 <= i < j < |s.queue| ==> s.queue[i].tx != s.queue[j].tx)
            && (s.issued <= WRAP ==> DistinctPending(s.queue))
  {
    var s := After(run);
    EachSenderInOnePlace(run);
    AlwaysNumbered(run);
    forall i, j | 0 <= i < j < |s.queue|
      ensures s.queue[i].tx != s.queue[j].tx && s.queue[i].tx < s.issued && s.queue[j].tx < s.issued
    {
      QueuedOnce(s, i, j);
    }
    hide After, Conserved;
    if s.issued <= WRAP {
      forall i, j | 0 <= i < j < |s.queue| ensures s.queue[i].index != s.queue[j].index {
        SmallIndexesDiffer(s, i, j);
      }
    }
  }

  lemma SmallIndexesDiffer(s: State, i: nat, j: nat)
    requires Numbered(s) && s.issued <= WRAP && i < |s.queue| && j < |s.queue|
    requires s.queue[i].tx != s.queue[j].tx && s.queue[i].tx < s.issued && s.queue[j].tx < s.issued
    ensures s.queue[i].index != s.queue[j].index
  {
    assert s.queue[i] in s.queue && s.queue[j] in s.queue;
  }

  lemma QueuedOnce(s: State, i: nat, j: nat)
    requires Conserved(s) && i < j < |s.queue|
    ensures s.queue[i].tx != s.queue[j].tx && s.queue[i].tx < s.issued && s.queue[j].tx < s.issued
  {
    var ts := Txs(s.queue);
    CountedTwice(ts, i, j);
    assert ts[i] in multiset(ts) && ts[j] in multiset(ts);
    assert Places(s, ts[i]) == One(ts[i] < s.issued) && Places(s, ts[j]) == One(ts[j] < s.issued);
  }

  /** Queue order need not be index order: the caller that fetched first may get the lock last. */
  lemma QueueOrderIsNotIndexOrder(a: RedisCommand, b: RedisCommand)
    ensures var s := After(Then(Then(Then(Then(Start, Issue(a)), Issue(b)), Push(1)), Push(0)));
            s.queue == [Pending(b, 1, 1), Pending(a, 0, 0)]
  {
    var r1 := Then(Start, Issue(a));
    var r2 := Then(r1, Issue(b));
    var r3 := Then(r2, Push(1));
    assert After(r1).issued == 1 && After(r1).nextIndex == 1 && After(r1).pending == map[0 := Pending(a, 0, 0)];
    assert After(r2).pending == map[0 := Pending(a, 0, 0), 1 := Pending(b, 1, 1)] && After(r2).queue == [];
    assert After(r3).pending == map[0 := Pending(a, 0, 0)] && After(r3).queue == [Pending(b, 1, 1)];
  }

  /** A command queued after the queue was taken is never answered: it stays queued, whatever happens. */
  lemma {:induction false} LateCommandsStay(run: Run, more: Run, p: Pending)
    requires Extends(run, more) && After(run).taken && p in After(run).queue
    ensures After(more).taken && p in After(more).queue
  {
    if more != run {
      LateCommandsStay(run, more.before, p);
      hide Txs, Resolved, AllDiscarded, TxSet;
    }
  }

  /** `more` continues `run`. */
  ghost predicate Extends(run: Run, more: Run) {
    more == run || (more.Then? && Extends(run, more.before))
  }

  // ---------- Answers of one execution ----------

  /** Whether it succeeds or fails, an execution sends nobody two answers. */
  lemma SendsAtMostOnce(q: seq<Pending>, owed: seq<(nat, Answer)>, sends: seq<(nat, Answer)>, i: nat, j: nat)
    requires |owed| == |q| && forall k :: 0 <= k < |q| ==> owed[k].0 == q[k].tx
    requires forall k, l :: 0 <= k < l < |q| ==> q[k].tx != q[l].tx
    requires multiset(sends) <= multiset(owed) && i < j < |sends|
    ensures sends[i].0 != sends[j].0
  {
    assert sends[i] in multiset(sends) && sends[j] in multiset(sends);
    assert sends[i] in owed && sends[j] in owed;
    var a :| 0 <= a < |owed| && owed[a] == sends[i];
    var b :| 0 <= b < |owed| && owed[b] == sends[j];
    CountedOnce(owed, a);
    CountedTwice(sends, i, j);
    assert multiset(sends)[sends[i]] <= multiset(owed)[sends[i]];
  }

  /** The callers of `sends`, answered one after the other. */
  function Answers(sends: seq<(nat, Answer)>): (r: seq<(nat, Outcome)>)
    ensures |r| == |sends| && forall i :: 0 <= i < |r| ==> r[i] == (sends[i].0, Answered(sends[i].1))
  {
    seq(|sends|, i requires 0 <= i < |sends| => (sends[i].0, Answered(sends[i].1)))
  }

  function Callers(sends: seq<(nat, Answer)>): set<nat> {
    set a | a in sends :: a.0
  }

  function Replied(s: State, sends: seq<(nat, Answer)>): State {
    s.(inFlight := s.inFlight - Callers(sends), resolved := s.resolved + Answers(sends))
  }

  lemma RepliedNone(s: State)
    ensures Replied(s, []) == s
  {
    assert Answers([]) == [] && Callers([]) == {};
    assert s.resolved + [] == s.resolved && s.inFlight - {} == s.inFlight;
  }

  lemma RepliedSnoc(s: State, sends: seq<(nat, Answer)>, a: (nat, Answer))
    requires a.0 in s.inFlight && forall i :: 0 <= i < |sends| ==> sends[i].0 != a.0
    ensures Apply(Replied(s, sends), Reply(a.0, a.1)) == Replied(s, sends + [a])
  {
    assert Callers(sends + [a]) == Callers(sends) + {a.0};
    assert Answers(sends + [a]) == Answers(sends) + [(a.0, Answered(a.1))];
    var s1, s2 := Apply(Replied(s, sends), Reply(a.0, a.1)), Replied(s, sends + [a]);
    assert a.0 !in Callers(sends);
    assert s1.inFlight == s2.inFlight && s1.resolved == s2.resolved;
  }

  /** Senders given up unanswered close their channels. */
  lemma {:induction false} CloseAll(run: Run, live: set<nat>) returns (run': Run)
    requires After(run).inFlight == live
    ensures var s, s' := After(run), After(run');
            && s' == s.(inFlight := {}, resolved := s'.resolved)
            && s.resolved <= s'.resolved
            && forall t :: t in live ==> (t, Closed) in s'.resolved
    decreases live
  {
    run' := run;
    if t :| t in live {
      var next := Then(run, Close(t));
      assert After(next).resolved == After(run).resolved + [(t, Closed)];
      assert After(next).resolved[|After(run).resolved|] == (t, Closed);
      run' := CloseAll(next, live - {t});
      assert After(next).resolved <= After(run').resolved;
      assert (t, Closed) in After(next).resolved;
    }
  }

  lemma SentIsOwed(q: seq<Pending>, owed: seq<(nat, Answer)>, sends: seq<(nat, Answer)>, j: nat) returns (k: nat)
    requires |owed| == |q| && forall i :: 0 <= i < |q| ==> owed[i].0 == q[i].tx
    requires multiset(sends) <= multiset(owed) && j < |sends|
    ensures k < |q| && sends[j] == owed[k] && sends[j].0 == q[k].tx && sends[j].0 in TxSet(q)
  {
    assert sends[j] in multiset(sends);
    assert sends[j] in owed;
    k :| 0 <= k < |owed| && owed[k] == sends[j];
    assert q[k] in q;
  }

  /** After the replies and the closing, each caller has the answer it is owed or a closed channel. */
  lemma EachSettled(
    s0: State, s: State, q: seq<Pending>, owed: seq<(nat, Answer)>, sends: seq<(nat, Answer)>, i: nat)
    requires |owed| == |q| && forall k :: 0 <= k < |q| ==> owed[k].0 == q[k].tx
    requires forall k, l :: 0 <= k < l < |q| ==> q[k].tx != q[l].tx
    requires multiset(sends) <= multiset(owed) && i < |q| && s0.inFlight == TxSet(q)
    requires Replied(s0, sends).resolved <= s.resolved
    requires forall t :: t in Replied(s0, sends).inFlight ==> (t, Closed) in s.resolved
    ensures (q[i].tx, Answered(owed[i].1)) in s.resolved || (q[i].tx, Closed) in s.resolved
    ensures multiset(sends) == multiset(owed) ==> (q[i].tx, Answered(owed[i].1)) in s.resolved
  {
    var t := q[i].tx;
    assert q[i] in q;
    if t in Callers(sends) {
      var j :| 0 <= j < |sends| && sends[j].0 == t;
      var k := SentIsOwed(q, owed, sends, j);
      assert k == i;
      assert s.resolved[|s0.resolved| + j] == Answers(sends)[j];
    }
    if multiset(sends) == multiset(owed) {
      assert owed[i] in multiset(sends);
      assert owed[i] in sends;
    }
  }

  function AllNull(q: seq<Pending>): (r: seq<(nat, Answer)>)
    ensures |r| == |q| && forall i :: 0 <= i < |r| ==> r[i] == (q[i].tx, Answer(Null))
  {
    seq(|q|, i requires 0 <= i < |q| => (q[i].tx, Answer(Null)))
  }

  /** The replies of one execution, as steps of the run. */
  lemma {:induction false} ReplyAll(
    run: Run, q: seq<Pending>, owed: seq<(nat, Answer)>, sends: seq<(nat, Answer)>, n: nat)
    returns (run': Run)
    requires |owed| == |q| && forall i :: 0 <= i < |q| ==> owed[i].0 == q[i].tx
    requires forall i, j :: 0 <= i < j < |q| ==> q[i].tx != q[j].tx
    requires multiset(sends) <= multiset(owed) && n <= |sends| && After(run).inFlight == TxSet(q)
    ensures After(run') == Replied(After(run), sends[..n])
  {
    if n == 0 {
      run' := run;
      RepliedNone(After(run));
    } else {
      var before := ReplyAll(run, q, owed, sends, n - 1);
      var a := sends[n - 1];
      run' := Then(before, Reply(a.0, a.1));
      var k := SentIsOwed(q, owed, sends, n - 1);
      forall i | 0 <= i < n - 1 ensures sends[i].0 != a.0 {
        SendsAtMostOnce(q, owed, sends, i, n - 1);
      }
      assert sends[..n] == sends[..n - 1] + [a];
      RepliedSnoc(After(run), sends[..n - 1], a);
    }
  }

  /** Everybody taken is settled, once the executor has replied and let go of the rest. */
  lemma SettleAll(run: Run, q: seq<Pending>, owed: seq<(nat, Answer)>, sends: seq<(nat, Answer)>) returns (run': Run)
    requires |owed| == |q| && forall i :: 0 <= i < |q| ==> owed[i].0 == q[i].tx
    requires forall i, j :: 0 <= i < j < |q| ==> q[i].tx != q[j].tx
    requires multiset(sends) <= multiset(owed) && After(run).inFlight == TxSet(q)
    ensures var s, s' := After(run), After(run');
            && s' == s.(inFlight := {}, resolved := s'.resolved) && s.resolved <= s'.resolved
            && forall i :: 0 <= i < |q| ==>
                 && ((q[i].tx, Answered(owed[i].1)) in s'.resolved || (q[i].tx, Closed) in s'.resolved)
                 && (multiset(sends) == multiset(owed) ==> (q[i].tx, Answered(owed[i].1)) in s'.resolved)
                 && (sends == [] ==> (q[i].tx, Closed) in s'.resolved)
    ensures Settled(After(run'), q, sends)
  {
    var replied := ReplyAll(run, q, owed, sends, |sends|);
    assert sends[..|sends|] == sends;
    run' := CloseAll(replied, After(replied).inFlight);
    forall i | 0 <= i < |q| {
      EachSettled(After(run), After(run'), q, owed, sends, i);
    }
    if sends == [] {
      assert Callers(sends) == {};
      forall i | 0 <= i < |q| ensures q[i].tx in TxSet(q) {
        assert q[i] in q;
      }
    }
    AsSent(After(run), After(run'), q, sends);
  }

  /** Whoever was sent something is resolved with it, and the other callers' channels are closed. */
  ghost predicate Settled(s: State, q: seq<Pending>, sends: seq<(nat, Answer)>) {
    && (forall j :: 0 <= j < |sends| ==> (sends[j].0, Answered(sends[j].1)) in s.resolved)
    && (forall i :: 0 <= i < |q| && (forall a :: a in sends ==> a.0 != q[i].tx) ==> (q[i].tx, Closed) in s.resolved)
  }

  lemma AsSent(s0: State, s: State, q: seq<Pending>, sends: seq<(nat, Answer)>)
    requires s0.inFlight == TxSet(q) && Replied(s0, sends).resolved <= s.resolved
    requires forall t :: t in Replied(s0, sends).inFlight ==> (t, Closed) in s.resolved
    ensures Settled(s, q, sends)
  {
    forall j | 0 <= j < |sends| ensures (sends[j].0, Answered(sends[j].1)) in s.resolved {
      assert s.resolved[|s0.resolved| + j] == Answers(sends)[j];
    }
    forall i | 0 <= i < |q| && (forall a :: a in sends ==> a.0 != q[i].tx) ensures (q[i].tx, Closed) in s.resolved {
      assert q[i] in q;
      assert q[i].tx in TxSet(q) && q[i].tx !in Callers(sends);
    }
  }

  /** The execution with what it owes to each caller; without a route it owes nothing in particular. */
  method ExecuteTaken(x: Setting, sm: ScriptCaches.ServiceManager, dep: Deployment, q: seq<Pending>, w: World)
    returns (result: Option<BatchResult>, sends: seq<(nat, Answer)>, w': World, ghost owed: seq<(nat, Answer)>)
    requires sm.Valid() && sm.sha1 == x.sem.sha1 && CollisionFree(x.sem)
    requires Reachable(x, dep, q, w) && AllWellFormed(x.sem, w) && x.belief == sm.scriptShaCache
    requires Routable(dep, q) ==> OwnReplicas(x, Targets(dep, q))
    modifies sm
    ensures sm.Valid() && Kept(x, w, sm.scriptShaCache, w')
    ensures result.Some? <==>
              && Routable(dep, q) && BatchLoadable(x, Targets(dep, q), q)
              && forall e :: e in Servers(x, dep, q) ==> !Fails(x.opts, x.fates(e))
    ensures Routable(dep, q) ==>
              var es := Servers(x, dep, q);
              Covers(w, es) && owed == Owed(x.sem, x.opts, x.fates, es, q, Reference(x, es, q, w).0)
    ensures |owed| == |q| && (forall i :: 0 <= i < |q| ==> owed[i].0 == q[i].tx) && multiset(sends) <= multiset(owed)
    ensures result.Some? ==> multiset(sends) == multiset(owed)
    ensures result.Some? ==> Executed(x, Servers(x, dep, q), q, w, w', sends, result.value)
    ensures result.Some? ==> Remembered(x, Targets(dep, q), q, sm.scriptShaCache)
    ensures Routable(dep, q) ==> WholeShares(x, Servers(x, dep, q), q, w, w', sends)
    ensures !Routable(dep, q) ==> sends == [] && w' == w
  {
    hide Reachable, Kept, OwnReplicas, BatchLoadable, Fails, SeqRun, Pick, Executed, Reference, Servers, AnswerTo,
         WholeShares, Remembered;
    result, sends, w' := ExecuteInMemory(x, sm, dep, q, w);
    if Routable(dep, q) {
      ghost var es := Servers(x, dep, q);
      owed := Owed(x.sem, x.opts, x.fates, es, q, Reference(x, es, q, w).0);
      if result.Some? {
        SuccessSends(x, es, q, w, w', sends, result.value);
      }
    } else {
      owed := AllNull(q);
    }
  }

  lemma {:induction false} NothingTakenYet(run: Run)
    ensures !After(run).executed ==> !After(run).taken
  {
    AlwaysShaped(run);
  }

  // ---------- The service ----------

  class CommandBatchService {
    var executed: bool
    var nextIndex: nat
    var queue: seq<Pending>
    ghost var run: Run

    ghost predicate Valid()
      reads this
    {
      var s := After(run);
      executed == s.executed && nextIndex == s.nextIndex && queue == s.queue
    }

    constructor ()
      ensures Valid() && run == Start
    {
      executed, nextIndex, queue, run := false, 0, [], Start;
    }

    /** The first half of `async0`: a caller fetches its index, before it has the lock. */
    method FetchIndex(cmd: RedisCommand) returns (index: nat)
      requires Valid()
      modifies this
      ensures Valid() && run == Then(old(run), Issue(cmd)) && queue == old(queue)
      ensures index == old(nextIndex) && nextIndex == (old(nextIndex) + 1) % WRAP
      ensures After(run).pending[After(old(run)).issued] == Pending(cmd, After(old(run)).issued, index)
    {
      index := nextIndex;
      nextIndex := (nextIndex + 1) % WRAP;
      run := Then(run, Issue(cmd));
    }

    /** The second half, under the lock. */
    method Enqueue(p: Pending)
      requires Valid() && p.tx in After(run).pending && After(run).pending[p.tx] == p
      modifies this
      ensures Valid() && run == Then(old(run), Push(p.tx)) && queue == old(queue) + [p]
    {
      queue := queue + [p];
      run := Then(run, Push(p.tx));
    }

    /** The compare-and-swap of `execute_async`. */
    method ClaimExecution() returns (ok: bool)
      requires Valid()
      modifies this
      ensures Valid() && run == Then(old(run), Execute)
      ensures ok <==> Claims(old(run)) == 0
      ensures ok ==> After(run).winner == Executor
    {
      AtMostOneTaker(run);
      ok := !executed;
      executed := true;
      run := Then(run, Execute);
    }

    /** What the one executor then finds under the lock is fit to be executed. */
    method TakeQueue() returns (q: seq<Pending>)
      requires Valid() && After(run).winner == Executor && !After(run).taken
      modifies this
      ensures Valid() && run == Then(old(run), Take) && q == old(queue) && queue == []
      ensures forall i, j :: 0 <= i < j < |q| ==> q[i].tx != q[j].tx
      ensures After(run).issued <= WRAP ==> DistinctPending(q)
      ensures After(run).inFlight == TxSet(q) && After(run).taken && After(run).resolved == After(old(run)).resolved
    {
      QueueIsExecutable(run);
      q := queue;
      queue := [];
      run := Then(run, Take);
    }

    /** The compare-and-swap of `discard_async`. */
    method ClaimDiscard() returns (ok: bool)
      requires Valid()
      modifies this
      ensures Valid() && run == Then(old(run), Discard)
      ensures ok <==> Claims(old(run)) == 0
      ensures ok ==> After(run).winner == Discarder
    {
      AtMostOneTaker(run);
      ok := !executed;
      executed := true;
      run := Then(run, Discard);
    }

    /** The discarder answers everyone queued, once each, in queue order. */
    method DiscardQueue() returns (sends: seq<(nat, Answer)>)
      requires Valid() && After(run).winner == Discarder && !After(run).taken
      modifies this
      ensures Valid() && run == Then(old(run), DiscardAll) && queue == []
      ensures |sends| == |old(queue)|
      ensures forall i :: 0 <= i < |sends| ==> sends[i] == (old(queue)[i].tx, Failure(DISCARDED))
      ensures After(run).resolved == After(old(run)).resolved + AllDiscarded(old(queue))
    {
      var taken := queue;
      queue, sends := [], [];
      run := Then(run, DiscardAll);
      for i := 0 to |taken|
        invariant |sends| == i && forall j :: 0 <= j < i ==> sends[j] == (taken[j].tx, Failure(DISCARDED))
      {
        sends := sends + [(taken[i].tx, Failure(DISCARDED))];
      }
    }

    /**
      The rest of `execute_async`, from any state the winner of the claim may find, whatever others did meanwhile: it
      takes the queue, executes it, and gives every sender up, answered or not. Everyone taken is settled: on success
      with the answer to their own command, on failure with that or a closed channel; nobody with anything else.
    */
    method FinishExecution(x: Setting, sm: ScriptCaches.ServiceManager, dep: Deployment, w: World)
      returns (result: Option<BatchResult>, q: seq<Pending>, sends: seq<(nat, Answer)>, w': World)
      requires Valid() && After(run).winner == Executor && !After(run).taken
      requires sm.Valid() && sm.sha1 == x.sem.sha1 && CollisionFree(x.sem)
      requires Reachable(x, dep, queue, w) && AllWellFormed(x.sem, w) && x.belief == sm.scriptShaCache
      requires Routable(dep, queue) ==> OwnReplicas(x, Targets(dep, queue))
      modifies this, sm
      ensures Valid() && q == old(queue) && queue == [] && After(run).taken && After(run).inFlight == {}
      ensures sm.Valid() && Kept(x, w, sm.scriptShaCache, w')
      ensures result.Some? <==>
                && Routable(dep, q) && BatchLoadable(x, Targets(dep, q), q)
                && forall e :: e in Servers(x, dep, q) ==> !Fails(x.opts, x.fates(e))
      ensures Routable(dep, q) ==> Covers(w, Servers(x, dep, q)) && WholeShares(x, Servers(x, dep, q), q, w, w', sends)
      ensures result.Some? ==> Executed(x, Servers(x, dep, q), q, w, w', sends, result.value)
      ensures result.Some? ==> Remembered(x, Targets(dep, q), q, sm.scriptShaCache)
      ensures After(old(run)).resolved <= After(run).resolved && Settled(After(run), q, sends)
      ensures Routable(dep, q) ==>
                var es := Servers(x, dep, q);
                var owed := Owed(x.sem, x.opts, x.fates, es, q, Reference(x, es, q, w).0);
                forall i :: 0 <= i < |q| ==>
                  || (q[i].tx, Answered(owed[i].1)) in After(run).resolved
                  || (result.None? && (q[i].tx, Closed) in After(run).resolved)
      ensures !Routable(dep, q) ==>
                w' == w && sends == [] && forall i :: 0 <= i < |q| ==> (q[i].tx, Closed) in After(run).resolved
    {
      hide Reachable, Kept, OwnReplicas, BatchLoadable, Fails, SeqRun, Pick, Owed, Reference, Servers, Apply, After,
           Executed, TxSet, DistinctPending, AnswerTo, Routable, Covers, WholeShares, Settled,
           Remembered;
      q := TakeQueue();
      ghost var owed;
      result, sends, w', owed := ExecuteTaken(x, sm, dep, q, w);
      ghost var settled := SettleAll(run, q, owed, sends);
      run := settled;
    }

    /**
      `execute_async` in one go: the claim, and the rest if it succeeds. Only the first claim does anything, and what it
      returns, sends and leaves on the nodes is the execution of the queue as the claimant found it.
    */
    method ExecuteAsync(x: Setting, sm: ScriptCaches.ServiceManager, dep: Deployment, w: World)
      returns (claimed: bool, result: Option<BatchResult>, sends: seq<(nat, Answer)>, w': World)
      requires Valid()
      requires sm.Valid() && sm.sha1 == x.sem.sha1 && CollisionFree(x.sem)
      requires Reachable(x, dep, queue, w) && AllWellFormed(x.sem, w) && x.belief == sm.scriptShaCache
      requires Routable(dep, queue) ==> OwnReplicas(x, Targets(dep, queue))
      modifies this, sm
      ensures Valid() && sm.Valid() && Kept(x, w, sm.scriptShaCache, w')
      ensures claimed <==> Claims(old(run)) == 0
      ensures !claimed ==> sends == [] && w' == w && queue == old(queue) && sm.scriptShaCache == old(sm.scriptShaCache)
      ensures !claimed ==> After(run).resolved == After(old(run)).resolved
      ensures var q := old(queue);
              result.Some? <==>
                && claimed && Routable(dep, q) && BatchLoadable(x, Targets(dep, q), q)
                && forall e :: e in Servers(x, dep, q) ==> !Fails(x.opts, x.fates(e))
      ensures Routable(dep, old(queue)) ==> Covers(w, Servers(x, dep, old(queue)))
      ensures result.Some? ==> Executed(x, Servers(x, dep, old(queue)), old(queue), w, w', sends, result.value)
      ensures result.Some? ==> Remembered(x, Targets(dep, old(queue)), old(queue), sm.scriptShaCache)
      ensures claimed && Routable(dep, old(queue)) ==>
                WholeShares(x, Servers(x, dep, old(queue)), old(queue), w, w', sends)
      ensures claimed && !Routable(dep, old(queue)) ==> w' == w && sends == []
      ensures claimed ==> queue == [] && After(run).inFlight == {} && Settled(After(run), old(queue), sends)
      ensures result.Some? ==>
                var es := Servers(x, dep, old(queue));
                var owed := Owed(x.sem, x.opts, x.fates, es, old(queue), Reference(x, es, old(queue), w).0);
                forall i :: 0 <= i < |old(queue)| ==>
                  (old(queue)[i].tx, Answered(owed[i].1)) in After(run).resolved
    {
      hide Reachable, Kept, OwnReplicas, BatchLoadable, Fails, Ends, SeqRun, Pick, Executed, WholeShares, Settled, Owed,
           Reference, Remembered;
      NothingTakenYet(run);
      AtMostOneTaker(run);
      NothingKept(x, w);
      EndsThere(x, dep, queue, w);
      claimed := ClaimExecution();
      result, sends, w' := None, [], w;
      if claimed {
        var q;
        result, q, sends, w' := FinishExecution(x, sm, dep, w);
      }
    }
  }

  /** So in a successful execution each caller's channel ends with what became of its own command. */
  lemma ResolvedWithOwnReply(
    x: Setting, es: seq<Server>, q: seq<Pending>, w: World, w': World, sends: seq<(nat, Answer)>,
    result: BatchResult, s: State, i: nat)
    requires |es| == |q| && Covers(w, es) && Executed(x, es, q, w, w', sends, result) && Settled(s, q, sends)
    requires i < |q| && !x.opts.skip
    ensures var r, fate := Reference(x, es, q, w).0[i], x.fates(es[i]);
            && ((x.opts.atomic ==> fate == Commits) && r.Ok? ==> (q[i].tx, Answered(Answer(r.value))) in s.resolved)
            && (!x.opts.atomic && r.Err? ==> (q[i].tx, Answered(Answer(Null))) in s.resolved)
            && (x.opts.atomic && fate == Commits && r.Err? ==>
                  (q[i].tx, Answered(Answer(x.sem.errorElement(r.msg)))) in s.resolved)
            && (x.opts.atomic && fate.AbortsNil? ==> (q[i].tx, Answered(Failure(ABORTED))) in s.resolved)
            && (x.opts.atomic && fate.Refuses? ==> (q[i].tx, Answered(Failure(fate.msg))) in s.resolved)
  {
    BatchGuarantees.CallerIsTold(x, es, q, w, w', sends, result, i);
    hide Executed, Reference;
  }

  lemma EndsThere(x: Setting, dep: Deployment, q: seq<Pending>, w: World)
    requires Reachable(x, dep, q, w)
    ensures Routable(dep, q) ==> Covers(w, Servers(x, dep, q))
  {
    if Routable(dep, q) {
      EndsCovered(x, dep, q, w);
    }
  }
}
