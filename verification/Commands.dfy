/** The commands a client can issue, how each is classed and routed, and how scripts become wire arguments. */
module Commands {
  import opened Options

  type Key = string

  datatype Value = Null | Integer(n: int) | Double(d: real) | Text(s: string) | Array(elems: seq<Value>)

  datatype RedisCommand =
    | Get(key: Key)
    | Set(key: Key, value: Value, expiry: int, option: string)
    | Del(keys: seq<Key>)
    | Exists(keys: seq<Key>)
    | Expire(key: Key, seconds: int)
    | Pexpire(key: Key, milliseconds: int)
    | Ttl(key: Key)
    | Pttl(key: Key)
    | Persist(key: Key)
    | HGet(key: Key, field: Key)
    | HSet(key: Key, field: Key, value: Value)
    | HGetAll(key: Key)
    | HDel(key: Key, fields: seq<Key>)
    | HExists(key: Key, field: Key)
    | HLen(key: Key)
    | HIncrBy(key: Key, field: Key, delta: int)
    | SAdd(key: Key, members: seq<Value>)
    | SRem(key: Key, members: seq<Value>)
    | SMembers(key: Key)
    | SIsMember(key: Key, member: Value)
    | SCard(key: Key)
    | ZAdd(key: Key, score: real, member: Value, option: string)
    | ZRem(key: Key, members: seq<Value>)
    | ZScore(key: Key, member: Value)
    | ZCard(key: Key)
    | Eval(script: string, keys: seq<Key>, args: seq<Value>)
    | EvalSha(sha: string, keys: seq<Key>, args: seq<Value>)
    | EvalShaRo(sha: string, keys: seq<Key>, args: seq<Value>)
    | Sort(key: Key)
    | SortRo(key: Key)
    | Wait(replicas: int, timeout: int)
    | WaitAof(locals: int, replicas: int, timeout: int)
  {
    /** The commands classed as safe to send to a replica. */
    predicate IsReadOnly() {
      Get? || Exists? || Ttl? || Pttl? || HGet? || HGetAll? || HExists? || HLen? || SMembers? || SIsMember?
      || SCard? || ZScore? || ZCard? || EvalShaRo? || SortRo?
    }

    /** The key a cluster routes by; none for a command without keys. */
    function RoutingKey(): Option<Key> {
      if Wait? || WaitAof? then None
      else if Del? || Exists? || Eval? || EvalSha? || EvalShaRo? then First(keys)
      else Some(key)
    }

    /** The command's name in Redis. */
    function Name(): string {
      match this
      case Get(_) => "GET"
      case Set(_, _, _, _) => "SET"
      case Del(_) => "DEL"
      case Exists(_) => "EXISTS"
      case Expire(_, _) => "EXPIRE"
      case Pexpire(_, _) => "PEXPIRE"
      case Ttl(_) => "TTL"
      case Pttl(_) => "PTTL"
      case Persist(_) => "PERSIST"
      case HGet(_, _) => "HGET"
      case HSet(_, _, _) => "HSET"
      case HGetAll(_) => "HGETALL"
      case HDel(_, _) => "HDEL"
      case HExists(_, _) => "HEXISTS"
      case HLen(_) => "HLEN"
      case HIncrBy(_, _, _) => "HINCRBY"
      case SAdd(_, _) => "SADD"
      case SRem(_, _) => "SREM"
      case SMembers(_) => "SMEMBERS"
      case SIsMember(_, _) => "SISMEMBER"
      case SCard(_) => "SCARD"
      case ZAdd(_, _, _, _) => "ZADD"
      case ZRem(_, _) => "ZREM"
      case ZScore(_, _) => "ZSCORE"
      case ZCard(_) => "ZCARD"
      case Eval(_, _, _) => "EVAL"
      case EvalSha(_, _, _) => "EVALSHA"
      case EvalShaRo(_, _, _) => "EVALSHA_RO"
      case Sort(_) => "SORT"
      case SortRo(_) => "SORT_RO"
      case Wait(_, _) => "WAIT"
      case WaitAof(_, _, _) => "WAITAOF"
    }

    /** The arguments a pipeline hands on with it, in order. */
    function Args(): seq<Value> {
      match this
      case Get(k) => [Text(k)]
      case Set(k, v, expiry, option) => [Text(k), v, Integer(expiry), Text(option)]
      case Del(ks) => Texts(ks)
      case Exists(ks) => Texts(ks)
      case Expire(k, n) => [Text(k), Integer(n)]
      case Pexpire(k, n) => [Text(k), Integer(n)]
      case Ttl(k) => [Text(k)]
      case Pttl(k) => [Text(k)]
      case Persist(k) => [Text(k)]
      case HGet(k, f) => [Text(k), Text(f)]
      case HSet(k, f, v) => [Text(k), Text(f), v]
      case HGetAll(k) => [Text(k)]
      case HDel(k, fs) => [Text(k)] + Texts(fs)
      case HExists(k, f) => [Text(k), Text(f)]
      case HLen(k) => [Text(k)]
      case HIncrBy(k, f, n) => [Text(k), Text(f), Integer(n)]
      case SAdd(k, ms) => [Text(k)] + ms
      case SRem(k, ms) => [Text(k)] + ms
      case SMembers(k) => [Text(k)]
      case SIsMember(k, m) => [Text(k), m]
      case SCard(k) => [Text(k)]
      case ZAdd(k, score, m, option) => [Text(k), Text(option), Double(score), m]
      case ZRem(k, ms) => [Text(k)] + ms
      case ZScore(k, m) => [Text(k), m]
      case ZCard(k) => [Text(k)]
      case Eval(script, ks, args) => ScriptArgs(script, ks, args)
      case EvalSha(sha, ks, args) => ScriptArgs(sha, ks, args)
      case EvalShaRo(sha, ks, args) => ScriptArgs(sha, ks, args)
      case Sort(k) => [Text(k)]
      case SortRo(k) => [Text(k)]
      case Wait(n, timeout) => [Integer(n), Integer(timeout)]
      case WaitAof(l, n, timeout) => [Integer(l), Integer(n), Integer(timeout)]
    }

    /** The command a pipeline actually sends: it has no fallback, so it avoids the read-only variants. */
    function OnPipeline(): RedisCommand {
      if EvalShaRo? then EvalSha(sha, keys, args)
      else if SortRo? then Sort(key)
      else this
    }
  }

  function First(keys: seq<Key>): Option<Key> {
    if keys == [] then None else Some(keys[0])
  }

  /** Lowering never changes where a command goes, and turns a read into a write for exactly two commands. */
  lemma LoweringKeepsRouteAndClass(c: RedisCommand)
    ensures c.OnPipeline().RoutingKey() == c.RoutingKey()
    ensures c.OnPipeline().IsReadOnly() <==> c.IsReadOnly() && !c.EvalShaRo? && !c.SortRo?
    ensures c.OnPipeline() != c <==> c.EvalShaRo? || c.SortRo?
    ensures c.OnPipeline().Args() == c.Args()
    ensures c.OnPipeline().Name() == (if c.Name() == "EVALSHA_RO" then "EVALSHA"
                                      else if c.Name() == "SORT_RO" then "SORT" else c.Name())
  {}

  // ---------- How Redis sees a command ----------

  /** The first key among a command's arguments, by Redis's own rules for where each command keeps its keys. */
  function WireKey(name: string, args: seq<Value>): Option<Value> {
    if name in {"WAIT", "WAITAOF"} then None
    else if name in {"EVAL", "EVALSHA", "EVALSHA_RO"} then
      if |args| > 2 && args[1] != Integer(0) then Some(args[2]) else None
    else if args == [] then None
    else Some(args[0])
  }

  /** The commands here that Redis lists as read-only, which replicas therefore serve. */
  const READ_ONLY := {
    "GET", "EXISTS", "TTL", "PTTL", "HGET", "HGETALL", "HEXISTS", "HLEN", "SMEMBERS", "SISMEMBER", "SCARD", "ZSCORE",
    "ZCARD", "EVALSHA_RO", "SORT_RO"}

  /** A command is routed by the key that Redis finds in it, as sent on a pipeline or not. */
  lemma RoutedByWireKey(c: RedisCommand)
    ensures WireKey(c.Name(), c.Args())
            == if c.RoutingKey().Some? then Some(Text(c.RoutingKey().value)) else None
    ensures WireKey(c.OnPipeline().Name(), c.OnPipeline().Args()) == WireKey(c.Name(), c.Args())
  {
    OwnWireKey(c);
    OwnWireKey(c.OnPipeline());
    LoweringKeepsRouteAndClass(c);
    hide WireKey, RedisCommand.Args, RedisCommand.Name, RedisCommand.RoutingKey, RedisCommand.OnPipeline;
  }

  lemma OwnWireKey(c: RedisCommand)
    ensures WireKey(c.Name(), c.Args())
            == if c.RoutingKey().Some? then Some(Text(c.RoutingKey().value)) else None
  {}

  /** It is classed as a read exactly if Redis does so. */
  lemma ClassedAsRedisDoes(c: RedisCommand)
    ensures c.IsReadOnly() <==> c.Name() in READ_ONLY
  {}

  // ---------- Script arguments on the wire ----------

  function Texts(keys: seq<Key>): (r: seq<Value>)
    ensures |r| == |keys| && forall i :: 0 <= i < |r| ==> r[i] == Text(keys[i])
  {
    seq(|keys|, i requires 0 <= i < |keys| => Text(keys[i]))
  }

  function ScriptArgs(script: string, keys: seq<Key>, args: seq<Value>): seq<Value> {
    [Text(script), Integer(|keys|)] + Texts(keys) + args
  }

  /** Builds the argument vector of EVAL or EVALSHA one argument at a time. */
  method BuildScriptArgs(script: string, keys: seq<Key>, args: seq<Value>) returns (wire: seq<Value>)
    ensures wire == ScriptArgs(script, keys, args)
  {
    wire := [Text(script)];
    wire := wire + [Integer(|keys|)];
    for i := 0 to |keys|
      invariant wire == [Text(script), Integer(|keys|)] + Texts(keys[..i])
    {
      wire := wire + [Text(keys[i])];
      assert keys[..i + 1] == keys[..i] + [keys[i]];
    }
    assert keys[..|keys|] == keys;
    for i := 0 to |args|
      invariant wire == [Text(script), Integer(|keys|)] + Texts(keys) + args[..i]
    {
      wire := wire + [args[i]];
    }
    assert args[..|args|] == args;
  }

  /** How a server takes script, keys and arguments from the vector: the key count tells where the keys end. */
  function ReadScript(wire: seq<Value>): Option<(string, seq<Key>, seq<Value>)> {
    if |wire| < 2 || !wire[0].Text? || !wire[1].Integer? || !(0 <= wire[1].n <= |wire| - 2) then None
    else
      var end := 2 + wire[1].n;
      if exists i :: 2 <= i < end && !wire[i].Text? then None
      else Some((wire[0].s, seq(wire[1].n, i requires 0 <= i < wire[1].n => wire[2 + i].s), wire[end..]))
  }

  /** The server reads what the caller meant. */
  lemma ScriptReadBack(script: string, keys: seq<Key>, args: seq<Value>)
    ensures ReadScript(ScriptArgs(script, keys, args)) == Some((script, keys, args))
  {
    var wire := ScriptArgs(script, keys, args);
    ScriptArgsAt(script, keys, args);
    hide ScriptArgs, Texts;
    assert wire[1].n == |keys|;
    assert seq(wire[1].n, i requires 0 <= i < wire[1].n => wire[2 + i].s) == keys;
  }

  lemma ScriptArgsAt(script: string, keys: seq<Key>, args: seq<Value>)
    ensures var wire := ScriptArgs(script, keys, args);
            && |wire| == 2 + |keys| + |args| && wire[0] == Text(script) && wire[1] == Integer(|keys|)
            && (forall i :: 2 <= i < 2 + |keys| ==> wire[i] == Text(keys[i - 2])) && wire[2 + |keys|..] == args
  {}

  /** The key count makes the vector unambiguous: script, keys and arguments can all be read back. */
  lemma ScriptArgsInjective(s1: string, k1: seq<Key>, a1: seq<Value>, s2: string, k2: seq<Key>, a2: seq<Value>)
    requires ScriptArgs(s1, k1, a1) == ScriptArgs(s2, k2, a2)
    ensures s1 == s2 && k1 == k2 && a1 == a2
  {
    var w := ScriptArgs(s1, k1, a1);
    assert w[0] == Text(s1) && w[1] == Integer(|k1|) && w[0] == Text(s2) && w[1] == Integer(|k2|);
    forall i | 0 <= i < |k1| ensures k1[i] == k2[i] {
      assert w[i + 2] == Text(k1[i]) && w[i + 2] == Text(k2[i]);
    }
    assert w[2 + |k1|..] == a1 && w[2 + |k2|..] == a2;
  }
}
