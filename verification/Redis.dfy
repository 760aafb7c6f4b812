/** One Redis node as its clients see it: data, loaded scripts, and one connection that may be in a transaction. */
module Redis {
  import opened Commands
  import opened Options

  datatype Reply = Ok(value: Value) | Err(msg: string)

  /** The data of a node: what is stored under each key. */
  type Data = map<Key, Value>

  /** What the commands of a server do, and its hash of script texts. Everything here is arbitrary. */
  datatype Semantics = Semantics(
    sha1: string -> string,
    run: (RedisCommand, Data) -> (Reply, Data),
    body: (string, seq<Key>, seq<Value>, Data) -> (Reply, Data),
    errorElement: string -> Value)

  /** SHA-1 is free of collisions. */
  ghost predicate CollisionFree(sem: Semantics) {
    forall s, t :: sem.sha1(s) == sem.sha1(t) ==> s == t
  }

  const NOSCRIPT: string := "NOSCRIPT" + " No matching script."

  /** A node holds its scripts under their hashes. */
  datatype Node = Node(data: Data, scripts: map<string, string>) {
    ghost predicate WellFormed(sem: Semantics) {
      forall h :: h in scripts ==> sem.sha1(scripts[h]) == h
    }
  }

  function LoadScript(sem: Semantics, n: Node, script: string): Node {
    n.(scripts := n.scripts[sem.sha1(script) := script])
  }

  /** One command at one node. EVAL keeps the script, EVALSHA needs it. */
  function RunOne(sem: Semantics, c: RedisCommand, n: Node): (Reply, Node) {
    if c.Eval? then
      var (r, d) := sem.body(c.script, c.keys, c.args, n.data);
      (r, LoadScript(sem, n, c.script).(data := d))
    else if c.EvalSha? && c.sha !in n.scripts then
      (Err(NOSCRIPT), n)
    else
      var (r, d) := if c.EvalSha? then sem.body(n.scripts[c.sha], c.keys, c.args, n.data) else sem.run(c, n.data);
      (r, n.(data := d))
  }

  /** Commands one after the other, in the form a pipeline sends them. */
  function RunAll(sem: Semantics, cs: seq<RedisCommand>, n: Node): (r: (seq<Reply>, Node))
    ensures |r.0| == |cs|
  {
    if cs == [] then ([], n)
    else
      var (reply, n') := RunOne(sem, cs[0], n);
      var (rest, last) := RunAll(sem, cs[1..], n');
      ([reply] + rest, last)
  }

  function Lowered(cs: seq<RedisCommand>): (r: seq<RedisCommand>)
    ensures |r| == |cs| && forall i :: 0 <= i < |r| ==> r[i] == cs[i].OnPipeline()
  {
    seq(|cs|, i requires 0 <= i < |cs| => cs[i].OnPipeline())
  }

  lemma LoweredTail(cs: seq<RedisCommand>)
    requires cs != []
    ensures Lowered(cs)[0] == cs[0].OnPipeline() && Lowered(cs)[1..] == Lowered(cs[1..])
  {}

  // ---------- A pipelined connection ----------

  datatype Item = Multi | Cmd(command: RedisCommand) | Exec | WaitFor(wait: RedisCommand)

  /** How a node ends a transaction: it runs it, or it aborts it as EXEC's reply then says. */
  datatype ExecFate = Commits | AbortsNil | Refuses(msg: string) | Garbles(n: int)

  datatype Connection = Connection(node: Node, queued: Option<seq<RedisCommand>>)

  function Elements(sem: Semantics, replies: seq<Reply>): (r: seq<Value>)
    ensures |r| == |replies|
    ensures forall i :: 0 <= i < |r| ==> r[i] == Element(sem, replies[i])
  {
    seq(|replies|, i requires 0 <= i < |replies| => Element(sem, replies[i]))
  }

  /** An error inside EXEC's array reaches the caller as a value. */
  function Element(sem: Semantics, reply: Reply): Value {
    if reply.Ok? then reply.value else sem.errorElement(reply.msg)
  }

  /** One pipeline item; `synced` is what the node answers to WAIT. */
  function Serve(sem: Semantics, it: Item, c: Connection, fate: ExecFate, synced: Reply): (Reply, Connection) {
    match it
    case Multi =>
      if c.queued.Some? then (Err("ERR MULTI calls can not be nested"), c)
      else (Ok(Text("OK")), c.(queued := Some([])))
    case Cmd(command) =>
      if c.queued.Some? then (Ok(Text("QUEUED")), c.(queued := Some(c.queued.value + [command])))
      else
        var (r, n) := RunOne(sem, command, c.node);
        (r, c.(node := n))
    case Exec =>
      if c.queued.None? then (Err("ERR EXEC without MULTI"), c)
      else (match fate
            case Commits =>
              var (rs, n) := RunAll(sem, c.queued.value, c.node);
              (Ok(Array(Elements(sem, rs))), Connection(n, None))
            case AbortsNil => (Ok(Null), c.(queued := None))
            case Refuses(msg) => (Err(msg), c.(queued := None))
            case Garbles(n) => (Ok(Integer(n)), c.(queued := None)))
    case WaitFor(_) =>
      (if c.queued.Some? then Ok(Text("QUEUED")) else synced, c)
  }

  /** `try_all`: one reply per item, in order. */
  function ServeAll(sem: Semantics, items: seq<Item>, c: Connection, fate: ExecFate, synced: Reply)
    : (r: (seq<Reply>, Connection))
    ensures |r.0| == |items|
  {
    if items == [] then ([], c)
    else
      var (reply, c') := Serve(sem, items[0], c, fate, synced);
      var (rest, last) := ServeAll(sem, items[1..], c', fate, synced);
      ([reply] + rest, last)
  }

  lemma {:induction false} ServeConcat(
    sem: Semantics, a: seq<Item>, b: seq<Item>, c: Connection, fate: ExecFate, synced: Reply)
    ensures var (ra, c') := ServeAll(sem, a, c, fate, synced);
            var (rb, c'') := ServeAll(sem, b, c', fate, synced);
            ServeAll(sem, a + b, c, fate, synced) == (ra + rb, c'')
  {
    hide Serve;
    if a == [] {
      assert a + b == b;
      var rb := ServeAll(sem, b, c, fate, synced).0;
      assert [] + rb == rb;
    } else {
      assert (a + b)[1..] == a[1..] + b;
      var (reply, next) := Serve(sem, a[0], c, fate, synced);
      ServeConcat(sem, a[1..], b, next, fate, synced);
      var (ra, c') := ServeAll(sem, a[1..], next, fate, synced);
      var (rb, c'') := ServeAll(sem, b, c', fate, synced);
      assert [reply] + (ra + rb) == ([reply] + ra) + rb;
    }
  }
}
