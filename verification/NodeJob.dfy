/** One node's share of a batch: framing the pipeline, serving it, and handing the replies back. */
module NodeJob {
  import opened Commands
  import opened Options
  import opened Redis
  import opened Grouping

  datatype BatchOptions = BatchOptions(atomic: bool, skip: bool, syncSlaves: int, syncAof: bool, syncLocals: int,
      syncTimeout: int)

  /** What a waiting caller receives. */
  datatype Answer = Answer(value: Value) | Failure(msg: string)

  datatype JobResult = JobFailed | JobDone(synced: int, indexed: seq<(nat, Value)>)

  const DISCARDED := "batch discarded"
  const ABORTED: string := "EXEC returned nil: transaction aborted by WATCH"

  // ---------- What the job owes ----------

  /** The value reported for a reply: outside a transaction an error is reported as null. */
  function Shown(sem: Semantics, atomic: bool, r: Reply): Value {
    if atomic then Element(sem, r) else if r.Ok? then r.value else Null
  }

  /** Whether the replies of a node count: they do not if results are skipped or its transaction did not commit. */
  predicate Reports(opts: BatchOptions, fate: ExecFate) {
    !opts.skip && (opts.atomic ==> fate == Commits)
  }

  function AnswerTo(sem: Semantics, opts: BatchOptions, fate: ExecFate, r: Reply): Answer {
    if opts.skip then Answer(Null)
    else if !opts.atomic || fate == Commits then Answer(Shown(sem, opts.atomic, r))
    else Failure(if fate.Refuses? then fate.msg else ABORTED)
  }

  function Sends(sem: Semantics, opts: BatchOptions, fate: ExecFate): (Pending, Reply) -> (nat, Answer) {
    (p: Pending, r: Reply) => (p.tx, AnswerTo(sem, opts, fate, r))
  }

  function Indexed(sem: Semantics, opts: BatchOptions): (Pending, Reply) -> (nat, Value) {
    (p: Pending, r: Reply) => (p.index, Shown(sem, opts.atomic, r))
  }

  function SyncedSlaves(opts: BatchOptions, reply: Reply): int {
    if opts.syncSlaves > 0 then ExtractSynced(reply) else 0
  }

  /** WAIT answers a number, WAITAOF two of which the second counts the replicas; anything else counts as none. */
  function ExtractSynced(reply: Reply): int {
    match reply
    case Ok(Integer(n)) => n
    case Ok(Array(nums)) => if |nums| > 1 && nums[1].Integer? then nums[1].n else 0
    case _ => 0
  }

  /** A finished transaction of unexpected shape fails the whole batch. */
  predicate Fails(opts: BatchOptions, fate: ExecFate) {
    opts.atomic && !opts.skip && fate.Garbles?
  }

  // ---------- The pipeline and its replies ----------

  function CommandsOf(ps: seq<Pending>): (r: seq<RedisCommand>)
    ensures |r| == |ps| && forall i :: 0 <= i < |r| ==> r[i] == ps[i].cmd
  {
    seq(|ps|, i requires 0 <= i < |ps| => ps[i].cmd)
  }

  function Items(cs: seq<RedisCommand>): (r: seq<Item>)
    ensures |r| == |cs| && forall i :: 0 <= i < |r| ==> r[i] == Cmd(cs[i])
  {
    seq(|cs|, i requires 0 <= i < |cs| => Cmd(cs[i]))
  }

  function WaitItem(opts: BatchOptions): Item {
    WaitFor(if opts.syncAof then WaitAof(opts.syncLocals, opts.syncSlaves, opts.syncTimeout)
            else Wait(opts.syncSlaves, opts.syncTimeout))
  }

  function Framed(opts: BatchOptions, wire: seq<RedisCommand>): seq<Item> {
    (if opts.atomic then [Multi] + Items(wire) + [Exec] else Items(wire))
    + if opts.syncSlaves > 0 then [WaitItem(opts)] else []
  }

  method FramePipeline(opts: BatchOptions, cs: seq<RedisCommand>) returns (items: seq<Item>)
    ensures items == Framed(opts, Lowered(cs))
    ensures var head := if opts.atomic then 1 else 0;
            var end := |cs| + 2 * head;
            && |items| == end + (if opts.syncSlaves > 0 then 1 else 0)
            && (opts.atomic ==> items[0] == Multi && items[end - 1] == Exec)
            && (forall k :: 0 <= k < |cs| ==> items[head + k] == Cmd(cs[k].OnPipeline()))
            && (opts.syncSlaves > 0 && opts.syncAof ==>
                  items[end] == WaitFor(WaitAof(opts.syncLocals, opts.syncSlaves, opts.syncTimeout)))
            && (opts.syncSlaves > 0 && !opts.syncAof ==>
                  items[end] == WaitFor(Wait(opts.syncSlaves, opts.syncTimeout)))
  {
    items := if opts.atomic then [Multi] else [];
    ghost var head := items;
    for i := 0 to |cs|
      invariant |items| == |head| + i && items[..|head|] == head
      invariant forall j :: 0 <= j < i ==> items[|head| + j] == Cmd(cs[j].OnPipeline())
    {
      items := items + [Cmd(cs[i].OnPipeline())];
    }
    assert items == head + Items(Lowered(cs));
    if opts.atomic {
      items := items + [Exec];
    }
    if opts.syncSlaves > 0 {
      items := items + [WaitItem(opts)];
    }
  }

  /** Outside a transaction the replies are those of the commands run one by one. */
  lemma {:induction false} ServeCommands(sem: Semantics, cs: seq<RedisCommand>, n: Node, fate: ExecFate, synced: Reply)
    ensures var (rs, n') := RunAll(sem, cs, n);
            ServeAll(sem, Items(cs), Connection(n, None), fate, synced) == (rs, Connection(n', None))
  {
    if cs != [] {
      assert Items(cs)[1..] == Items(cs[1..]);
      ServeCommands(sem, cs[1..], RunOne(sem, cs[0], n).1, fate, synced);
    }
  }

  /** Inside a transaction every command is queued behind those before it. */
  lemma {:induction false} QueueCommands(
    sem: Semantics, cs: seq<RedisCommand>, n: Node, queue: seq<RedisCommand>, fate: ExecFate, synced: Reply)
    ensures ServeAll(sem, Items(cs), Connection(n, Some(queue)), fate, synced).1 == Connection(n, Some(queue + cs))
  {
    if cs == [] {
      assert queue + cs == queue;
    } else {
      assert Items(cs)[1..] == Items(cs[1..]);
      QueueCommands(sem, cs[1..], n, queue + [cs[0]], fate, synced);
      assert queue + [cs[0]] + cs[1..] == queue + cs;
    }
  }

  /** How EXEC answers a transaction of the commands `cs`. */
  function ExecReply(sem: Semantics, cs: seq<RedisCommand>, n: Node, fate: ExecFate): Reply {
    match fate
    case Commits => Ok(Array(Elements(sem, RunAll(sem, cs, n).0)))
    case AbortsNil => Ok(Null)
    case Refuses(msg) => Err(msg)
    case Garbles(k) => Ok(Integer(k))
  }

  function NodeAfter(sem: Semantics, opts: BatchOptions, cs: seq<RedisCommand>, n: Node, fate: ExecFate): Node {
    if opts.atomic && fate != Commits then n else RunAll(sem, cs, n).1
  }

  lemma ServeTransaction(sem: Semantics, cs: seq<RedisCommand>, n: Node, fate: ExecFate, synced: Reply)
    ensures var (rs, c) := ServeAll(sem, [Multi] + Items(cs) + [Exec], Connection(n, None), fate, synced);
            && |rs| == |cs| + 2 && rs[|cs| + 1] == ExecReply(sem, cs, n, fate)
            && c == Connection(if fate == Commits then RunAll(sem, cs, n).1 else n, None)
  {
    var start := Connection(n, None);
    var open := Connection(n, Some([]));
    assert ServeAll(sem, [Multi], start, fate, synced).1 == open by {
      assert [Multi][1..] == [];
    }
    ServeConcat(sem, [Multi], Items(cs), start, fate, synced);
    QueueCommands(sem, cs, n, [], fate, synced);
    assert [] + cs == cs;
    ServeConcat(sem, [Multi] + Items(cs), [Exec], start, fate, synced);
    assert [Exec][1..] == [];
  }

  /** Where each reply of the framed pipeline sits: WAIT's last, EXEC's before it, commands' in order. */
  lemma ServeFramed(sem: Semantics, opts: BatchOptions, cs: seq<RedisCommand>, n: Node, fate: ExecFate, synced: Reply)
    ensures var (rs, c) := ServeAll(sem, Framed(opts, cs), Connection(n, None), fate, synced);
            var k := if opts.atomic then |cs| + 2 else |cs|;
            && c == Connection(NodeAfter(sem, opts, cs, n, fate), None)
            && |rs| == k + (if opts.syncSlaves > 0 then 1 else 0)
            && (opts.syncSlaves > 0 ==> rs[k] == synced)
            && (if opts.atomic then rs[k - 1] == ExecReply(sem, cs, n, fate) else rs[..k] == RunAll(sem, cs, n).0)
  {
    var body := if opts.atomic then [Multi] + Items(cs) + [Exec] else Items(cs);
    var tail := if opts.syncSlaves > 0 then [WaitItem(opts)] else [];
    if opts.atomic {
      ServeTransaction(sem, cs, n, fate, synced);
    } else {
      ServeCommands(sem, cs, n, fate, synced);
    }
    ServeConcat(sem, body, tail, Connection(n, None), fate, synced);
    assert tail != [] ==> tail[1..] == [];
  }

  // ---------- Handing the replies back ----------

  /** EXEC's answer, distributed to the waiting callers and collected under their indexes. */
  method DistributeExec(exec: Reply, ps: seq<Pending>)
    returns (failed: bool, sends: seq<(nat, Answer)>, indexed: seq<(nat, Value)>)
    ensures failed <==> exec.Ok? && !exec.value.Array? && exec.value != Null
    ensures failed ==> sends == []
    ensures exec.Ok? && exec.value.Array? && |exec.value.elems| == |ps| ==>
              && |sends| == |indexed| == |ps|
              && forall k :: 0 <= k < |ps| ==>
                   && sends[k] == (ps[k].tx, Answer(exec.value.elems[k]))
                   && indexed[k] == (ps[k].index, exec.value.elems[k])
    ensures !failed && !(exec.Ok? && exec.value.Array?) ==>
              && indexed == [] && |sends| == |ps|
              && forall k :: 0 <= k < |ps| ==> sends[k] == (ps[k].tx, Failure(if exec.Err? then exec.msg else ABORTED))
  {
    failed, sends, indexed := false, [], [];
    if exec.Ok? && exec.value.Array? {
      var actual := exec.value.elems;
      var k := 0;
      while k < |ps| && k < |actual|
        invariant 0 <= k <= |ps| && k <= |actual| && |sends| == |indexed| == k
        invariant forall j :: 0 <= j < k ==>
                    sends[j] == (ps[j].tx, Answer(actual[j])) && indexed[j] == (ps[j].index, actual[j])
      {
        sends := sends + [(ps[k].tx, Answer(actual[k]))];
        indexed := indexed + [(ps[k].index, actual[k])];
        k := k + 1;
      }
    } else if exec.Ok? && exec.value != Null {
      failed := true;
    } else {
      var msg := if exec.Err? then exec.msg else ABORTED;
      for k := 0 to |ps|
        invariant |sends| == k && forall j :: 0 <= j < k ==> sends[j] == (ps[j].tx, Failure(msg))
      {
        sends := sends + [(ps[k].tx, Failure(msg))];
      }
    }
  }

  /** Peels WAIT and EXEC off the tail of the replies and gives each caller its own. */
  method HandBack(sem: Semantics, opts: BatchOptions, ps: seq<Pending>, replies: seq<Reply>)
    returns (job: JobResult, sends: seq<(nat, Answer)>)
    requires |replies| == |ps| + (if opts.atomic then 2 else 0) + (if opts.syncSlaves > 0 then 1 else 0)
    ensures var k := |ps| + if opts.atomic then 2 else 0;
            var wait := if opts.syncSlaves > 0 then ExtractSynced(replies[k]) else 0;
            && (opts.skip ==> job == JobDone(wait, []) && |sends| == |ps|
                              && forall i :: 0 <= i < |ps| ==> sends[i] == (ps[i].tx, Answer(Null)))
            && (!opts.skip && !opts.atomic ==>
                  && job.JobDone? && job.synced == wait && |sends| == |job.indexed| == |ps|
                  && forall i :: 0 <= i < |ps| ==>
                       var v := if replies[i].Ok? then replies[i].value else Null;
                       sends[i] == (ps[i].tx, Answer(v)) && job.indexed[i] == (ps[i].index, v))
            && (!opts.skip && opts.atomic ==> ExecHandedBack(ps, replies[k - 1], wait, job, sends))
  {
    var results := replies;
    var synced := 0;
    if opts.syncSlaves > 0 {
      synced := ExtractSynced(results[|results| - 1]);
      results := results[..|results| - 1];
    }
    var indexed: seq<(nat, Value)> := [];
    sends := [];
    if opts.skip {
      for i := 0 to |ps|
        invariant |sends| == i && forall j :: 0 <= j < i ==> sends[j] == (ps[j].tx, Answer(Null))
      {
        sends := sends + [(ps[i].tx, Answer(Null))];
      }
    } else if opts.atomic {
      var failed;
      failed, sends, indexed := DistributeExec(results[|results| - 1], ps);
      if failed {
        return JobFailed, sends;
      }
    } else {
      for i := 0 to |ps|
        invariant |sends| == |indexed| == i
        invariant forall j :: 0 <= j < i ==>
                    var v := if results[j].Ok? then results[j].value else Null;
                    sends[j] == (ps[j].tx, Answer(v)) && indexed[j] == (ps[j].index, v)
      {
        var val := if results[i].Ok? then results[i].value else Null;
        sends := sends + [(ps[i].tx, Answer(val))];
        indexed := indexed + [(ps[i].index, val)];
      }
    }
    job := JobDone(synced, indexed);
  }

  /** The outcome of an atomic job whose EXEC answered `exec`. */
  ghost predicate ExecHandedBack(ps: seq<Pending>, exec: Reply, synced: int, job: JobResult, sends: seq<(nat,
      Answer)>) {
    if exec.Ok? && !exec.value.Array? && exec.value != Null then
      job.JobFailed? && sends == []
    else
      && job.JobDone? && job.synced == synced
      && (exec.Ok? && exec.value.Array? && |exec.value.elems| == |ps| ==>
            && |sends| == |job.indexed| == |ps|
            && forall k :: 0 <= k < |ps| ==>
                 && sends[k] == (ps[k].tx, Answer(exec.value.elems[k]))
                 && job.indexed[k] == (ps[k].index, exec.value.elems[k]))
      && (!(exec.Ok? && exec.value.Array?) ==>
            && job.indexed == [] && |sends| == |ps|
            && forall k :: 0 <= k < |ps| ==>
                 sends[k] == (ps[k].tx, Failure(if exec.Err? then exec.msg else ABORTED)))
  }

  /**
    One node's job: the k-th caller gets the reply the k-th command has when the group runs on the node command by
    command, and the value it gets is the value reported under its index.
  */
  method RunJob(sem: Semantics, opts: BatchOptions, ps: seq<Pending>, cs: seq<RedisCommand>, n: Node, fate: ExecFate,
      synced: Reply)
    returns (job: JobResult, sends: seq<(nat, Answer)>, n': Node)
    requires |cs| == |ps|
    ensures n' == NodeAfter(sem, opts, Lowered(cs), n, fate)
    ensures var replies := RunAll(sem, Lowered(cs), n).0;
            if Fails(opts, fate) then job.JobFailed? && sends == []
            else
              && sends == Combine(Sends(sem, opts, fate), ps, replies)
              && job == JobDone(SyncedSlaves(opts, synced),
                                if Reports(opts, fate) then Combine(Indexed(sem, opts), ps, replies) else [])
    ensures var replies := RunAll(sem, Lowered(cs), n).0;
            !Fails(opts, fate) ==>
              && |sends| == |ps|
              && forall k :: 0 <= k < |ps| ==>
                   var (tx, answer), r := sends[k], replies[k];
                   && tx == ps[k].tx
                   && (opts.skip ==> answer == Answer(Null))
                   && (!opts.skip && !opts.atomic ==> answer == Answer(if r.Ok? then r.value else Null))
                   && (!opts.skip && opts.atomic && fate == Commits ==>
                         answer == Answer(if r.Ok? then r.value else sem.errorElement(r.msg)))
                   && (!opts.skip && opts.atomic && fate.AbortsNil? ==> answer == Failure(ABORTED))
                   && (!opts.skip && opts.atomic && fate.Refuses? ==> answer == Failure(fate.msg))
    ensures !opts.skip && (opts.atomic ==> fate == Commits) ==>
              && job.JobDone? && |job.indexed| == |sends| == |ps|
              && forall k :: 0 <= k < |ps| ==>
                   job.indexed[k].0 == ps[k].index && sends[k].1 == Answer(job.indexed[k].1)
  {
    var items := FramePipeline(opts, cs);
    ServeFramed(sem, opts, Lowered(cs), n, fate, synced);
    var (results, connection) := ServeAll(sem, items, Connection(n, None), fate, synced);
    n' := connection.node;
    hide RunAll, ServeAll, Serve, Framed;
    job, sends := HandBack(sem, opts, ps, results);
    if !Fails(opts, fate) {
      ghost var replies := RunAll(sem, Lowered(cs), n).0;
      ghost var owed := Combine(Sends(sem, opts, fate), ps, replies);
      forall k | 0 <= k < |ps| ensures sends[k] == (ps[k].tx, AnswerTo(sem, opts, fate, replies[k])) == owed[k] {
        assert !opts.atomic ==> replies[k] == results[k];
      }
      assert sends == owed;
      assert Reports(opts, fate) ==> job.indexed == Combine(Indexed(sem, opts), ps, replies);
    }
  }
}
