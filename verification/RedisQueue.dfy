/**
  The batch modes that queue in Redis: every command is sent at once, inside a transaction opened by the first one,
  and execution only sends EXEC. All of it is taken to travel over one connection.
*/
module RedisQueue {
  import opened Commands
  import opened Options
  import opened Redis
  import opened Grouping
  import opened NodeJob
  import opened BatchMeaning
  import opened BatchExecution

  const EXECABORT := "EXECABORT Transaction discarded because of previous errors."
  const NESTED := "ERR MULTI calls can not be nested"
  const NOT_HERE := "WAIT/WAITAOF is not supported in REDIS_*_ATOMIC mode"

  /** An open transaction; a command refused while queueing spoils it. */
  datatype Transaction = Transaction(queued: seq<RedisCommand>, spoiled: bool)

  datatype Link = Link(node: Node, tx: Option<Transaction>)

  predicate IsWait(c: RedisCommand) {
    c.Wait? || c.WaitAof?
  }

  function ServeMulti(link: Link): (Reply, Link) {
    if link.tx.Some? then (Err(NESTED), link) else (Ok(Text("OK")), link.(tx := Some(Transaction([], false))))
  }

  /** What a node answers to a command inside a transaction; `refuses` are those it does not accept. */
  function ServeQueued(link: Link, c: RedisCommand, refuses: RedisCommand -> Option<string>): (Reply, Link)
    requires link.tx.Some?
  {
    match refuses(c)
    case Some(msg) => (Err(msg), link.(tx := Some(link.tx.value.(spoiled := true))))
    case None => (Ok(Text("QUEUED")), link.(tx := Some(link.tx.value.(queued := link.tx.value.queued + [c]))))
  }

  /** How the transaction ends: a spoiled one is always refused. */
  function FateOf(tx: Transaction, fate: ExecFate): ExecFate {
    if tx.spoiled then Refuses(EXECABORT) else fate
  }

  function ServeExec(sem: Semantics, opts: BatchOptions, link: Link, fate: ExecFate): (Reply, Link)
    requires link.tx.Some?
  {
    var tx := link.tx.value;
    (ExecReply(sem, tx.queued, link.node, FateOf(tx, fate)),
     Link(NodeAfter(sem, opts, tx.queued, link.node, FateOf(tx, fate)), None))
  }

  /** Each caller's own element of EXEC's answer, or the reason there is none. */
  lemma ExecAnswersEach(
    sem: Semantics, opts: BatchOptions, ps: seq<Pending>, n: Node, fate: ExecFate, sends: seq<(nat, Answer)>,
    indexed: seq<(nat, Value)>)
    requires opts.atomic && !opts.skip && !Fails(opts, fate)
    requires var exec := ExecReply(sem, Lowered(CommandsOf(ps)), n, fate);
             if exec.Ok? && exec.value.Array? then
               && |sends| == |indexed| == |ps| == |exec.value.elems|
               && forall k :: 0 <= k < |ps| ==>
                    sends[k] == (ps[k].tx, Answer(exec.value.elems[k])) && indexed[k] == (ps[k].index,
                      exec.value.elems[k])
             else
               && indexed == [] && |sends| == |ps|
               && forall k :: 0 <= k < |ps| ==> sends[k] == (ps[k].tx, Failure(if exec.Err? then exec.msg else ABORTED))
    ensures var replies := RunAll(sem, Lowered(CommandsOf(ps)), n).0;
            && sends == Combine(Sends(sem, opts, fate), ps, replies)
            && indexed == if Reports(opts, fate) then Combine(Indexed(sem, opts), ps, replies) else []
  {
    hide RunAll;
    var replies := RunAll(sem, Lowered(CommandsOf(ps)), n).0;
    var owed := Combine(Sends(sem, opts, fate), ps, replies);
    forall k | 0 <= k < |ps| ensures sends[k] == owed[k] {
      assert owed[k] == (ps[k].tx, AnswerTo(sem, opts, fate, replies[k]));
    }
  }

  /**
    Every caller has, once, the reply to its own command if the transaction committed, and otherwise why it did not; the
    responses are those values, each at the place that the number of smaller indexes gives it.
  */
  ghost predicate HandedBack(
    sem: Semantics, opts: BatchOptions, ps: seq<Pending>, replies: seq<Reply>, fate: ExecFate,
    sends: seq<(nat, Answer)>, responses: seq<Value>)
    requires |replies| == |ps|
  {
    && |sends| == |ps|
    && forall k :: 0 <= k < |ps| ==>
         var value := if replies[k].Ok? then replies[k].value else sem.errorElement(replies[k].msg);
         && sends[k].0 == ps[k].tx
         && (opts.skip ==> sends[k].1 == Answer(Null) && responses == [])
         && (!opts.skip && fate == Commits ==>
               && sends[k].1 == Answer(value)
               && (DistinctPending(ps) ==>
                     var place := |set j | 0 <= j < |ps| && ps[j].index < ps[k].index|;
                     place < |responses| && responses[place] == value))
         && (!opts.skip && fate.AbortsNil? ==> sends[k].1 == Failure(ABORTED) && responses == [])
         && (!opts.skip && fate.Refuses? ==> sends[k].1 == Failure(fate.msg) && responses == [])
  }

  lemma OwnReplies(sem: Semantics, opts: BatchOptions, ps: seq<Pending>, replies: seq<Reply>, fate: ExecFate)
    requires |replies| == |ps| && opts.atomic && !Fails(opts, fate)
    ensures var indexed := if Reports(opts, fate) then Combine(Indexed(sem, opts), ps, replies) else [];
            HandedBack(sem, opts, ps, replies, fate, Combine(Sends(sem, opts, fate), ps, replies),
                       Values(Ordered(indexed)))
  {
    hide Ordered;
    if Reports(opts, fate) && DistinctPending(ps) {
      forall k | 0 <= k < |ps| { OwnPlace(sem, opts, ps, replies, k); }
    }
  }

  lemma OwnPlace(sem: Semantics, opts: BatchOptions, ps: seq<Pending>, replies: seq<Reply>, k: nat)
    requires |replies| == |ps| && opts.atomic && DistinctPending(ps) && k < |ps|
    ensures var place := |set j | 0 <= j < |ps| && ps[j].index < ps[k].index|;
            var values := Values(Ordered(Combine(Indexed(sem, opts), ps, replies)));
            && place < |values|
            && values[place] == if replies[k].Ok? then replies[k].value else sem.errorElement(replies[k].msg)
  {
    var indexed := Combine(Indexed(sem, opts), ps, replies);
    assert forall j :: 0 <= j < |ps| ==> indexed[j].0 == ps[j].index;
    assert DistinctIndexes(indexed);
    assert indexed[k] == (ps[k].index, Element(sem, replies[k]));
    hide Ordered, DistinctIndexes, Combine, Indexed;
    OrderedAt(indexed, k);
    assert (set j | 0 <= j < |ps| && ps[j].index < ps[k].index)
        == (set j | 0 <= j < |indexed| && indexed[j].0 < indexed[k].0);
  }

  class RedisBasedBatch {
    const sem: Semantics
    const opts: BatchOptions
    const refuses: RedisCommand -> Option<string>
    /** Sender and index of each accepted command; the command itself is kept to say which reply it is owed. */
    var entries: seq<Pending>
    var executed: bool
    var link: Link

    /** As long as callers wait, the transaction on the node holds exactly their commands, in order. */
    ghost predicate Valid()
      reads this
    {
      && opts.atomic
      && (link.tx.None? ==> entries == [])
      && (entries != [] ==> link.tx.value.queued == Lowered(CommandsOf(entries)))
    }

    /** A transaction is open that the batch has no commands in. */
    ghost predicate Stuck()
      reads this
    {
      entries == [] && link.tx.Some?
    }

    constructor (sem: Semantics, opts: BatchOptions, refuses: RedisCommand -> Option<string>, node: Node)
      requires opts.atomic
      ensures Valid() && !Stuck() && entries == [] && link == Link(node, None) && !executed
      ensures this.sem == sem && this.opts == opts && this.refuses == refuses
    {
      this.sem, this.opts, this.refuses, entries, link := sem, opts, refuses, [], Link(node, None);
      executed := false;
    }

    /**
      Sends one command. It is refused at once if it is a WAIT, if the node refuses it, or if the batch is stuck; here
      a batch gets stuck exactly by a refused first command, and then stays so. Whether the batch has been executed is
      not asked: a command after that opens a new transaction.
    */
    method Async0(p: Pending) returns (refusal: Option<string>)
      requires Valid()
      modifies this`entries, this`link
      ensures Valid() && link.node == old(link).node
      ensures refusal.None? ==> link.tx.Some?
      ensures refusal.Some? <==> IsWait(p.cmd) || old(Stuck()) || refuses(p.cmd.OnPipeline()).Some?
      ensures entries == if refusal.None? then old(entries) + [p] else old(entries)
      ensures Stuck() <==>
                old(Stuck()) || (old(entries) == [] && !IsWait(p.cmd) && refuses(p.cmd.OnPipeline()).Some?)
      ensures IsWait(p.cmd) || old(Stuck()) ==> link == old(link)
      ensures !IsWait(p.cmd) && !old(Stuck()) ==>
                var tx := if old(link).tx.Some? then old(link).tx.value else Transaction([], false);
                link.tx == Some(if refusal.Some? then tx.(spoiled := true)
                                else tx.(queued := tx.queued + [p.cmd.OnPipeline()]))
      ensures refusal.Some? ==>
                refusal.value == if IsWait(p.cmd) then NOT_HERE
                                 else if old(Stuck()) then NESTED
                                 else refuses(p.cmd.OnPipeline()).value
    {
      if IsWait(p.cmd) {
        return Some(NOT_HERE);
      }
      if entries == [] {
        var multi := ServeMulti(link);
        link := multi.1;
        if multi.0.Err? {
          return Some(multi.0.msg);
        }
      }
      var queued := ServeQueued(link, p.cmd.OnPipeline(), refuses);
      link := queued.1;
      if queued.0.Err? {
        return Some(queued.0.msg);
      }
      assert Lowered(CommandsOf(entries + [p])) == Lowered(CommandsOf(entries)) + [p.cmd.OnPipeline()];
      entries := entries + [p];
      refusal := None;
    }

    /**
      Ends the transaction, once. The callers get what the node job of an in-memory atomic batch would give them: each
      the reply to its own command if the transaction committed. With no accepted command nothing is sent at all, so
      a stuck transaction stays open.
    */
    method ExecuteAsync(fate: ExecFate, synced: Reply) returns (result: Option<BatchResult>, sends: seq<(nat, Answer)>)
      requires Valid()
      modifies this
      ensures Valid() && executed
      ensures old(executed) ==> result.None? && sends == [] && link == old(link) && entries == old(entries)
      ensures !old(executed) ==> entries == []
      ensures !old(executed) && old(entries) == [] ==>
                result == Some(BatchResult([], 0)) && sends == [] && link == old(link)
      ensures !old(executed) && old(entries) != [] ==>
                var cs := Lowered(CommandsOf(old(entries)));
                var n := old(link).node;
                var end := FateOf(old(link).tx.value, fate);
                var replies := RunAll(sem, cs, n).0;
                && link == Link(NodeAfter(sem, opts, cs, n, end), None)
                && if Fails(opts, end) then result.None? && sends == []
                   else
                     && sends == Combine(Sends(sem, opts, end), old(entries), replies)
                     && result == Some(BatchResult(
                          Values(Ordered(if Reports(opts, end) then Combine(Indexed(sem, opts), old(entries),
                            replies) else [])),
                          SyncedSlaves(opts, synced)))
      ensures !old(executed) && old(entries) != [] ==>
                var n, end := old(link).node, if old(link).tx.value.spoiled then Refuses(EXECABORT) else fate;
                var replies := RunAll(sem, Lowered(CommandsOf(old(entries))), n).0;
                result.Some? ==> HandedBack(sem, opts, old(entries), replies, end, sends, result.value.responses)
    {
      hide RunAll, Ordered, Values, NodeAfter, Element, SyncedSlaves, Lowered, HandedBack;
      if executed {
        return None, [];
      }
      executed := true;
      var ps := entries;
      entries := [];
      if ps == [] {
        assert CommandsOf([]) == [];
        return Some(BatchResult([], 0)), [];
      }
      ghost var n, end := link.node, FateOf(link.tx.value, fate);
      var exec := ServeExec(sem, opts, link, fate);
      link := exec.1;
      var indexed: seq<(nat, Value)> := [];
      if opts.skip {
        sends := [];
        for i := 0 to |ps|
          invariant |sends| == i && forall j :: 0 <= j < i ==> sends[j] == (ps[j].tx, Answer(Null))
        {
          sends := sends + [(ps[i].tx, Answer(Null))];
        }
        assert sends == Combine(Sends(sem, opts, end), ps, RunAll(sem, Lowered(CommandsOf(ps)), n).0);
      } else {
        var failed;
        failed, sends, indexed := DistributeExec(exec.0, ps);
        if failed {
          return None, sends;
        }
        ExecAnswersEach(sem, opts, ps, n, end, sends, indexed);
      }
      result := Some(BatchResult(Values(Ordered(indexed)), SyncedSlaves(opts, synced)));
      OwnReplies(sem, opts, ps, RunAll(sem, Lowered(CommandsOf(ps)), n).0, end);
    }

    /**
      Discards the batch, once: every waiting caller is told so. No DISCARD is sent, so a transaction that was open
      stays open, with the discarded commands queued in it.
    */
    method DiscardAsync() returns (ok: bool, sends: seq<(nat, Answer)>)
      requires Valid()
      modifies this
      ensures Valid() && executed && (ok <==> !old(executed)) && link == old(link)
      ensures !ok ==> entries == old(entries) && sends == []
      ensures ok ==> entries == [] && |sends| == |old(entries)|
      ensures ok ==> forall i :: 0 <= i < |sends| ==> sends[i] == (old(entries)[i].tx, Failure(DISCARDED))
      ensures ok ==> (Stuck() <==> old(link).tx.Some?)
    {
      ok, sends := !executed, [];
      executed := true;
      if ok {
        var ps := entries;
        entries := [];
        for i := 0 to |ps|
          invariant |sends| == i && forall j :: 0 <= j < i ==> sends[j] == (ps[j].tx, Failure(DISCARDED))
        {
          sends := sends + [(ps[i].tx, Failure(DISCARDED))];
        }
      }
    }
  }

  /** A command sent after execution or discard opens a transaction that nothing the batch offers ends any more. */
  method LateCommandIsNeverEnded(batch: RedisBasedBatch, p: Pending, fate: ExecFate, synced: Reply)
    returns (sends: seq<(nat, Answer)>)
    requires batch.Valid() && batch.executed && !batch.Stuck()
    requires !IsWait(p.cmd) && batch.refuses(p.cmd.OnPipeline()).None?
    modifies batch
    ensures batch.Valid() && sends == [] && p in batch.entries && batch.link.tx.Some?
  {
    var refusal := batch.Async0(p);
    assert batch.entries[|batch.entries| - 1] == p;
    var result, ok, more;
    result, sends := batch.ExecuteAsync(fate, synced);
    ok, more := batch.DiscardAsync();
    sends := sends + more;
  }
}
