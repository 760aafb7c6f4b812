/** Pattern subscriptions: the client's listener maps and the server's subscription set. */
module PubSub {
  import opened Topology

  datatype Listener = Listener(id: nat, name: string)
  type Listeners = map<string, seq<Listener>>

  datatype Table = Patterns | KeyspacePatterns | Channels | ShardChannels
  datatype UnsubscribeType = Punsubscribe | Unsubscribe | Sunsubscribe

  predicate IsKeyspace(channel: string) {
    "__keyspace" <= channel || "__keyevent" <= channel
  }

  function TableOf(kind: UnsubscribeType, channel: string): Table {
    match kind
    case Punsubscribe => if IsKeyspace(channel) then KeyspacePatterns else Patterns
    case Unsubscribe => Channels
    case Sunsubscribe => ShardChannels
  }

  // ---------- Removing listeners ----------

  /** The listeners whose id is not in `ids`, in their order. */
  function Remaining(ls: seq<Listener>, ids: set<nat>): (r: seq<Listener>)
    ensures forall l :: l in r <==> l in ls && l.id !in ids
  {
    if ls == [] then []
    else if ls[0].id in ids then Remaining(ls[1..], ids)
    else [ls[0]] + Remaining(ls[1..], ids)
  }

  lemma {:induction false} RemainingAgain(ls: seq<Listener>, ids: set<nat>)
    requires forall l :: l in ls ==> l.id !in ids
    ensures Remaining(ls, ids) == ls
  {
    if ls != [] {
      RemainingAgain(ls[1..], ids);
    }
  }

  /** What is left stands at ascending positions of the old list, and all that is left out has an id in `ids`. */
  ghost predicate KeptInOrder(before: seq<Listener>, after: seq<Listener>, ids: set<nat>) {
    exists at: seq<nat> :: KeptAt(before, after, ids, at)
  }

  ghost predicate KeptAt(before: seq<Listener>, after: seq<Listener>, ids: set<nat>, at: seq<nat>) {
    && |at| == |after|
    && (forall i, j :: 0 <= i < j < |at| ==> at[i] < at[j])
    && (forall k :: 0 <= k < |at| ==> at[k] < |before| && after[k] == before[at[k]])
    && (forall i :: 0 <= i < |before| ==> (i in at <==> before[i].id !in ids))
  }

  function Shifted(at: seq<nat>): (r: seq<nat>)
    ensures |r| == |at| && forall k :: 0 <= k < |r| ==> r[k] == at[k] + 1
  {
    seq(|at|, k requires 0 <= k < |at| => at[k] + 1)
  }

  lemma ShiftedIn(at: seq<nat>, i: nat)
    ensures i in Shifted(at) <==> i > 0 && i - 1 in at
  {
    if i > 0 && i - 1 in at {
      var k :| 0 <= k < |at| && at[k] == i - 1;
      assert Shifted(at)[k] == i;
    }
  }

  /** `at` are the positions, from the second on, of what is left. */
  ghost predicate KeptBeyondFirst(before: seq<Listener>, after: seq<Listener>, ids: set<nat>, at: seq<nat>) {
    && |at| == |after|
    && (forall i, j :: 0 <= i < j < |at| ==> at[i] < at[j])
    && (forall k :: 0 <= k < |at| ==> 0 < at[k] < |before| && after[k] == before[at[k]])
    && (forall i :: 0 < i < |before| ==> (i in at <==> before[i].id !in ids))
  }

  lemma KeptShifted(ls: seq<Listener>, left: seq<Listener>, ids: set<nat>, at: seq<nat>)
    requires ls != [] && KeptAt(ls[1..], left, ids, at)
    ensures KeptBeyondFirst(ls, left, ids, Shifted(at))
  {
    forall i | 0 < i < |ls| ensures i in Shifted(at) <==> ls[i].id !in ids {
      ShiftedIn(at, i);
      assert ls[1..][i - 1] == ls[i];
    }
  }

  lemma FirstGone(ls: seq<Listener>, left: seq<Listener>, ids: set<nat>, at: seq<nat>)
    requires ls != [] && ls[0].id in ids && KeptBeyondFirst(ls, left, ids, at)
    ensures KeptAt(ls, left, ids, at)
  {}

  lemma FirstStays(ls: seq<Listener>, left: seq<Listener>, ids: set<nat>, at: seq<nat>)
    requires ls != [] && ls[0].id !in ids && KeptBeyondFirst(ls, left, ids, at)
    ensures KeptAt(ls, [ls[0]] + left, ids, [0] + at)
  {
    forall i | 0 <= i < |ls| ensures i in [0] + at <==> ls[i].id !in ids {
      assert i in [0] + at <==> i == 0 || i in at;
    }
  }

  lemma {:induction false} RemainingAt(ls: seq<Listener>, ids: set<nat>) returns (at: seq<nat>)
    ensures KeptAt(ls, Remaining(ls, ids), ids, at)
  {
    at := [];
    if ls != [] {
      var rest := RemainingAt(ls[1..], ids);
      var left := Remaining(ls[1..], ids);
      KeptShifted(ls, left, ids, rest);
      at := Shifted(rest);
      hide KeptAt, KeptBeyondFirst;
      if ls[0].id in ids {
        FirstGone(ls, left, ids, at);
      } else {
        FirstStays(ls, left, ids, at);
        at := [0] + at;
      }
    }
  }

  lemma RemainingInOrder(ls: seq<Listener>, ids: set<nat>)
    ensures KeptInOrder(ls, Remaining(ls, ids), ids)
  {
    var at := RemainingAt(ls, ids);
  }

  /** All listeners of `c` have an id in `ids`. */
  predicate Emptied(m: Listeners, c: string, ids: set<nat>) {
    c in m && forall l :: l in m[c] ==> l.id in ids
  }

  lemma EmptiedIff(ls: seq<Listener>, ids: set<nat>)
    ensures Remaining(ls, ids) == [] <==> forall l :: l in ls ==> l.id in ids
  {
    var left := Remaining(ls, ids);
    if left != [] {
      assert left[0] in left;
    }
  }

  /** The pairs in `cs` x `ids` gone, every other listener in place, and no list left empty by it. */
  function Pruned(m: Listeners, cs: set<string>, ids: set<nat>): Listeners {
    map c | c in m && !(c in cs && Emptied(m, c, ids)) :: if c in cs then Remaining(m[c], ids) else m[c]
  }

  lemma PrunedStep(m: Listeners, cs: set<string>, c: string, ids: set<nat>)
    ensures Pruned(Pruned(m, cs, ids), {c}, ids) == Pruned(m, cs + {c}, ids)
    ensures Emptied(Pruned(m, cs, ids), c, ids) <==> c !in cs && Emptied(m, c, ids)
  {
    if c in m && c in cs {
      RemainingAgain(Remaining(m[c], ids), ids);
    }
  }

  datatype Tables = Tables(patterns: Listeners, keyspace: Listeners, channels: Listeners, shards: Listeners) {
    function Get(t: Table): Listeners {
      match t
      case Patterns => patterns
      case KeyspacePatterns => keyspace
      case Channels => channels
      case ShardChannels => shards
    }

    function Put(t: Table, m: Listeners): (r: Tables)
      ensures forall u :: r.Get(u) == if u == t then m else Get(u)
    {
      match t
      case Patterns => this.(patterns := m)
      case KeyspacePatterns => this.(keyspace := m)
      case Channels => this.(channels := m)
      case ShardChannels => this.(shards := m)
    }
  }

  function Members(cs: seq<string>): set<string> {
    set c | c in cs
  }

  function InTable(cs: set<string>, kind: UnsubscribeType, t: Table): set<string> {
    set c | c in cs && TableOf(kind, c) == t
  }

  predicate Distinct(cs: seq<string>) {
    forall i, j :: 0 <= i < j < |cs| ==> cs[i] != cs[j]
  }

  lemma DistinctSnoc(cs: seq<string>, c: string)
    ensures Distinct(cs) && c !in cs ==> Distinct(cs + [c])
  {}

  predicate OnNodes(kind: UnsubscribeType, cluster: bool, c: string) {
    kind == Punsubscribe && cluster && IsKeyspace(c)
  }

  /** `normal` and `keyspace` list, once each, the channels of `cs` that lose their last listener. */
  ghost predicate ListsEmptied(
    before: Tables, kind: UnsubscribeType, cluster: bool, cs: set<string>, ids: set<nat>,
    normal: seq<string>, keyspace: seq<string>)
  {
    && Distinct(normal) && Distinct(keyspace)
    && (forall c :: c in normal <==>
          c in cs && Emptied(before.Get(TableOf(kind, c)), c, ids) && !OnNodes(kind, cluster, c))
    && (forall c :: c in keyspace <==>
          c in cs && Emptied(before.Get(TableOf(kind, c)), c, ids) && OnNodes(kind, cluster, c))
  }

  lemma EmptiedStep(
    before: Tables, kind: UnsubscribeType, cluster: bool, cs: set<string>, ids: set<nat>,
    normal: seq<string>, keyspace: seq<string>, c: string)
    requires ListsEmptied(before, kind, cluster, cs, ids, normal, keyspace)
    ensures var now := c !in cs && Emptied(before.Get(TableOf(kind, c)), c, ids);
            ListsEmptied(before, kind, cluster, cs + {c}, ids,
                         if now && !OnNodes(kind, cluster, c) then normal + [c] else normal,
                         if now && OnNodes(kind, cluster, c) then keyspace + [c] else keyspace)
  {
    hide Emptied, OnNodes, TableOf, Distinct;
    DistinctSnoc(normal, c);
    DistinctSnoc(keyspace, c);
  }

  lemma PrunedTableStep(before: Tables, kind: UnsubscribeType, cs: set<string>, c: string, ids: set<nat>, t: Table)
    ensures Pruned(before.Get(t), InTable(cs + {c}, kind, t), ids) ==
              if t == TableOf(kind, c) then Pruned(Pruned(before.Get(t), InTable(cs, kind, t), ids), {c}, ids)
              else Pruned(before.Get(t), InTable(cs, kind, t), ids)
    ensures t == TableOf(kind, c) ==>
              (Emptied(Pruned(before.Get(t), InTable(cs, kind, t), ids), c, ids) <==>
               c !in cs && Emptied(before.Get(t), c, ids))
  {
    if t == TableOf(kind, c) {
      PrunedStep(before.Get(t), InTable(cs, kind, t), c, ids);
      assert InTable(cs + {c}, kind, t) == InTable(cs, kind, t) + {c};
    } else {
      assert InTable(cs + {c}, kind, t) == InTable(cs, kind, t);
    }
  }

  lemma PrunedOne(m: Listeners, c: string, ids: set<nat>)
    ensures Pruned(m, {c}, ids) ==
              if c !in m then m
              else if Remaining(m[c], ids) == [] then m - {c}
              else m[c := Remaining(m[c], ids)]
  {
    if c in m { EmptiedIff(m[c], ids); }
  }

  /** Each table has lost the pairs `cs` x `ids` that belong to it, and no more. */
  ghost predicate IsPruned(before: Tables, after: Tables, kind: UnsubscribeType, cs: set<string>, ids: set<nat>) {
    forall t :: after.Get(t) == Pruned(before.Get(t), InTable(cs, kind, t), ids)
  }

  /**
    The same, told listener by listener: a channel of `cs` keeps, in their order, the listeners whose id is not in
    `ids`, and goes if there are none; every other channel keeps its list.
  */
  ghost predicate LosesPairs(before: Tables, after: Tables, kind: UnsubscribeType, cs: set<string>, ids: set<nat>) {
    forall t, c ::
      var m, m' := before.Get(t), after.Get(t);
      if c in cs && TableOf(kind, c) == t then
        && (c in m' <==> c in m && exists l :: l in m[c] && l.id !in ids)
        && (c in m' ==> KeptInOrder(m[c], m'[c], ids))
      else
        (c in m' <==> c in m) && (c in m' ==> m'[c] == m[c])
  }

  lemma PrunedLosesPairs(before: Tables, after: Tables, kind: UnsubscribeType, cs: set<string>, ids: set<nat>)
    requires IsPruned(before, after, kind, cs, ids)
    ensures LosesPairs(before, after, kind, cs, ids)
  {
    forall t, c | c in before.Get(t) { RemainingInOrder(before.Get(t)[c], ids); }
    hide KeptInOrder, TableOf, Tables.Get;
  }

  /** The tables once the listeners `ids` of `c` are gone. */
  function WithoutIds(tables: Tables, t: Table, c: string, ids: set<nat>): Tables {
    var m := tables.Get(t);
    if c !in m then tables
    else
      var left := Remaining(m[c], ids);
      tables.Put(t, if left == [] then m - {c} else m[c := left])
  }

  lemma PruneOneMore(
    before: Tables, tables: Tables, kind: UnsubscribeType, cs: set<string>, ids: set<nat>, c: string)
    requires IsPruned(before, tables, kind, cs, ids)
    ensures IsPruned(before, WithoutIds(tables, TableOf(kind, c), c, ids), kind, cs + {c}, ids)
    ensures Emptied(tables.Get(TableOf(kind, c)), c, ids) <==>
              c !in cs && Emptied(before.Get(TableOf(kind, c)), c, ids)
  {
    hide Pruned, InTable, Tables.Put, Tables.Get, TableOf, Emptied;
    var t := TableOf(kind, c);
    forall u { PrunedTableStep(before, kind, cs, c, ids, u); }
    PrunedOne(tables.Get(t), c, ids);
  }

  lemma NothingPruned(before: Tables, kind: UnsubscribeType, cluster: bool, ids: set<nat>)
    ensures IsPruned(before, before, kind, {}, ids) && ListsEmptied(before, kind, cluster, {}, ids, [], [])
  {}

  /** Deletes exactly the pairs `channels` x `ids`, in whichever table each channel belongs to. */
  method PruneTables(before: Tables, kind: UnsubscribeType, cluster: bool, channels: seq<string>, ids: set<nat>)
    returns (tables: Tables, normal: seq<string>, keyspace: seq<string>)
    ensures IsPruned(before, tables, kind, Members(channels), ids)
    ensures LosesPairs(before, tables, kind, Members(channels), ids)
    ensures ListsEmptied(before, kind, cluster, Members(channels), ids, normal, keyspace)
  {
    hide IsPruned, Pruned, InTable, ListsEmptied, Tables.Put, Tables.Get, TableOf, OnNodes, LosesPairs, Remaining;
    tables, normal, keyspace := before, [], [];
    ghost var done: set<string> := {};
    NothingPruned(before, kind, cluster, ids);
    for i := 0 to |channels|
      invariant done == Members(channels[..i])
      invariant IsPruned(before, tables, kind, done, ids)
      invariant ListsEmptied(before, kind, cluster, done, ids, normal, keyspace)
    {
      var c := channels[i];
      var t := TableOf(kind, c);
      var m := tables.Get(t);
      PruneOneMore(before, tables, kind, done, ids, c);
      EmptiedStep(before, kind, cluster, done, ids, normal, keyspace, c);
      if c in m {
        var left := Remaining(m[c], ids);
        EmptiedIff(m[c], ids);
        if left == [] {
          tables := tables.Put(t, m - {c});
          if OnNodes(kind, cluster, c) {
            keyspace := keyspace + [c];
          } else {
            normal := normal + [c];
          }
        } else {
          tables := tables.Put(t, m[c := left]);
        }
      }
      done := done + {c};
    }
    assert channels[..|channels|] == channels;
    PrunedLosesPairs(before, tables, kind, done, ids);
  }

  // ---------- The registry and what it must mirror ----------

  /** What the server has on record for this client, in all and per cluster node. */
  datatype Subscriptions = Subscriptions(patterns: set<string>, perNode: map<Server, set<string>>,
                                         channels: set<string>, shards: set<string>)

  datatype KeySets = KeySets(patterns: set<string>, keyspace: set<string>, channels: set<string>, shards: set<string>)

  function KeysOf(tables: Tables): KeySets {
    KeySets(tables.patterns.Keys, tables.keyspace.Keys, tables.channels.Keys, tables.shards.Keys)
  }

  /** The server's record is these keys: keyspace patterns per node in a cluster, all others once. */
  ghost predicate OnRecord(k: KeySets, server: Subscriptions, cluster: bool, nodes: set<Server>) {
    && server.patterns == k.patterns + (if cluster then {} else k.keyspace)
    && server.perNode.Keys == nodes
    && (forall n :: n in nodes ==> server.perNode[n] == if cluster then k.keyspace else {})
    && server.channels == k.channels && server.shards == k.shards
  }

  ghost predicate NoneEmpty(tables: Tables) {
    forall t, c :: c in tables.Get(t) ==> tables.Get(t)[c] != []
  }

  /** No empty list is stored, and the keys of the maps are the server's subscriptions. */
  ghost predicate Mirrors(tables: Tables, server: Subscriptions, cluster: bool, nodes: set<Server>) {
    NoneEmpty(tables) && OnRecord(KeysOf(tables), server, cluster, nodes)
  }

  /** Patterns are filed by whether they are keyspace patterns. */
  ghost predicate Filed(tables: Tables) {
    (forall c :: c in tables.patterns ==> !IsKeyspace(c)) && (forall c :: c in tables.keyspace ==> IsKeyspace(c))
  }

  /** Every listener listens for the pattern it is stored under. */
  ghost predicate Named(tables: Tables) {
    forall t, c, l :: c in tables.Get(t) && l in tables.Get(t)[c] ==> l.name == c
  }

  function Changed(perNode: map<Server, set<string>>, change: set<string> -> set<string>, down: set<Server>)
    : map<Server, set<string>>
  {
    map n | n in perNode :: if n in down then perNode[n] else change(perNode[n])
  }

  /** The server's record once it has accepted one unsubscription. */
  function Withdrawn(server: Subscriptions, kind: UnsubscribeType, gone: set<string>): Subscriptions {
    match kind
    case Punsubscribe => server.(patterns := server.patterns - gone)
    case Unsubscribe => server.(channels := server.channels - gone)
    case Sunsubscribe => server.(shards := server.shards - gone)
  }

  lemma PrunedFiledAndNamed(before: Tables, after: Tables, kind: UnsubscribeType, cs: set<string>, ids: set<nat>)
    requires IsPruned(before, after, kind, cs, ids)
    ensures Filed(before) ==> Filed(after)
    ensures Named(before) ==> Named(after)
  {
    assert after.patterns == after.Get(Patterns) && after.keyspace == after.Get(KeyspacePatterns);
  }

  /** The channels of `cs` that lose their last listener in table `t`. */
  function EmptiedIn(before: Tables, kind: UnsubscribeType, cs: set<string>, ids: set<nat>, t: Table): set<string> {
    set c | c in InTable(cs, kind, t) && Emptied(before.Get(t), c, ids)
  }

  /** The keys that go are exactly the emptied channels, and no list left behind is empty. */
  lemma PrunedKeys(before: Tables, after: Tables, kind: UnsubscribeType, cs: set<string>, ids: set<nat>, t: Table)
    requires IsPruned(before, after, kind, cs, ids)
    ensures after.Get(t).Keys == before.Get(t).Keys - EmptiedIn(before, kind, cs, ids, t)
    ensures EmptiedIn(before, kind, cs, ids, t) <= before.Get(t).Keys
    ensures (forall c :: c in before.Get(t) ==> before.Get(t)[c] != []) ==>
              forall c :: c in after.Get(t) ==> after.Get(t)[c] != []
  {}

  function EmptiedSets(before: Tables, kind: UnsubscribeType, cs: set<string>, ids: set<nat>): KeySets {
    var E := t => EmptiedIn(before, kind, cs, ids, t);
    KeySets(E(Patterns), E(KeyspacePatterns), E(Channels), E(ShardChannels))
  }

  predicate OfKind(e: KeySets, kind: UnsubscribeType) {
    && (kind.Punsubscribe? || e.patterns + e.keyspace == {})
    && (kind.Unsubscribe? || e.channels == {})
    && (kind.Sunsubscribe? || e.shards == {})
  }

  function NormalOf(e: KeySets, kind: UnsubscribeType, cluster: bool): set<string> {
    match kind
    case Punsubscribe => e.patterns + if cluster then {} else e.keyspace
    case Unsubscribe => e.channels
    case Sunsubscribe => e.shards
  }

  function Less(k: KeySets, e: KeySets): KeySets {
    KeySets(k.patterns - e.patterns, k.keyspace - e.keyspace, k.channels - e.channels, k.shards - e.shards)
  }

  predicate Within(e: KeySets, k: KeySets) {
    e.patterns <= k.patterns && e.keyspace <= k.keyspace && e.channels <= k.channels && e.shards <= k.shards
  }

  /** The two lists name the emptied channels of the tables one unsubscription kind reaches. */
  lemma ListedByTable(
    before: Tables, kind: UnsubscribeType, cluster: bool, cs: set<string>, ids: set<nat>,
    normal: seq<string>, keyspace: seq<string>)
    requires ListsEmptied(before, kind, cluster, cs, ids, normal, keyspace)
    ensures var e := EmptiedSets(before, kind, cs, ids);
            && OfKind(e, kind) && Within(e, KeysOf(before))
            && Members(normal) == NormalOf(e, kind, cluster)
            && Members(keyspace) == (if cluster then e.keyspace else {})
  {}

  lemma PrunedKeySets(before: Tables, after: Tables, kind: UnsubscribeType, cs: set<string>, ids: set<nat>)
    requires IsPruned(before, after, kind, cs, ids)
    ensures KeysOf(after) == Less(KeysOf(before), EmptiedSets(before, kind, cs, ids))
    ensures NoneEmpty(before) ==> NoneEmpty(after)
  {
    forall t { PrunedKeys(before, after, kind, cs, ids, t); }
    hide IsPruned, EmptiedIn;
    assert before.patterns == before.Get(Patterns) && after.patterns == after.Get(Patterns);
    assert before.keyspace == before.Get(KeyspacePatterns) && after.keyspace == after.Get(KeyspacePatterns);
    assert before.channels == before.Get(Channels) && after.channels == after.Get(Channels);
    assert before.shards == before.Get(ShardChannels) && after.shards == after.Get(ShardChannels);
  }

  /** Withdrawing the emptied keys, and no less, keeps the record exact. */
  lemma WithdrawnOnRecord(
    k: KeySets, e: KeySets, server: Subscriptions, cluster: bool, nodes: set<Server>, kind: UnsubscribeType)
    requires OnRecord(k, server, cluster, nodes) && k.patterns !! k.keyspace && Within(e, k) && OfKind(e, kind)
    ensures NormalOf(e, kind, cluster) != {} ==> !OnRecord(Less(k, e), server, cluster, nodes)
    ensures !cluster || e.keyspace == {} ==>
              OnRecord(Less(k, e), Withdrawn(server, kind, NormalOf(e, kind, cluster)), cluster, nodes)
  {
    var s1 := Withdrawn(server, kind, NormalOf(e, kind, cluster));
    match kind
    case Punsubscribe =>
      assert !cluster ==> (k.patterns + k.keyspace) - (e.patterns + e.keyspace)
                          == (k.patterns - e.patterns) + (k.keyspace - e.keyspace);
    case Unsubscribe =>
    case Sunsubscribe =>
  }

  lemma NodesOnRecord(
    k: KeySets, e: KeySets, server: Subscriptions, nodes: set<Server>, kind: UnsubscribeType, down: set<Server>)
    requires OnRecord(k, server, true, nodes) && Within(e, k) && OfKind(e, kind) && e.keyspace != {}
    ensures var s1 := Withdrawn(server, kind, NormalOf(e, kind, true));
            var s2 := s1.(perNode := Changed(s1.perNode, s => s - e.keyspace, down));
            OnRecord(Less(k, e), s2, true, nodes) <==> nodes !! down
  {
    var s1 := Withdrawn(server, kind, NormalOf(e, kind, true));
    var s2 := s1.(perNode := Changed(s1.perNode, s => s - e.keyspace, down));
    assert kind.Punsubscribe?;
    if n :| n in nodes && n in down {
      assert s2.perNode[n] == k.keyspace != k.keyspace - e.keyspace;
    }
  }

  /** Once every unsubscription is accepted the server agrees with the pruned tables; short of that it does not. */
  lemma RemovalMirrored(
    before: Tables, after: Tables, server: Subscriptions, cluster: bool, nodes: set<Server>,
    kind: UnsubscribeType, cs: set<string>, ids: set<nat>, normal: seq<string>, keyspace: seq<string>,
    down: set<Server>)
    requires Mirrors(before, server, cluster, nodes) && Filed(before) && IsPruned(before, after, kind, cs, ids)
    requires ListsEmptied(before, kind, cluster, cs, ids, normal, keyspace)
    ensures normal != [] ==> !Mirrors(after, server, cluster, nodes)
    ensures var s1 := Withdrawn(server, kind, Members(normal));
            var s2 := s1.(perNode := Changed(s1.perNode, s => s - Members(keyspace), down));
            && (keyspace == [] ==> Mirrors(after, s1, cluster, nodes))
            && (keyspace != [] ==> (Mirrors(after, s2, cluster, nodes) <==> nodes !! down))
  {
    hide Changed, Withdrawn, OnRecord, NoneEmpty, Pruned, IsPruned;
    var k, e := KeysOf(before), EmptiedSets(before, kind, cs, ids);
    ListedByTable(before, kind, cluster, cs, ids, normal, keyspace);
    PrunedKeySets(before, after, kind, cs, ids);
    if normal != [] { assert normal[0] in Members(normal); }
    if keyspace != [] { assert keyspace[0] in Members(keyspace); }
    assert k.patterns !! k.keyspace;
    hide ListsEmptied, IsPruned, EmptiedSets, KeysOf, OnRecord, Less, NormalOf, Withdrawn, OfKind, Within, NoneEmpty,
      Changed;
    WithdrawnOnRecord(k, e, server, cluster, nodes, kind);
    if cluster && e.keyspace != {} {
      NodesOnRecord(k, e, server, nodes, kind, down);
      var s1 := Withdrawn(server, kind, Members(normal));
      ChangedSame(s1.perNode, s => s - e.keyspace, s => s - Members(keyspace), down);
    }
  }

  lemma ChangedSame(
    perNode: map<Server, set<string>>, f: set<string> -> set<string>, g: set<string> -> set<string>, down: set<Server>)
    requires forall s :: f(s) == g(s)
    ensures Changed(perNode, f, down) == Changed(perNode, g, down)
  {}

  /** If no node is asked, the record per node stays, as if all of them refused. */
  lemma NobodyAsked(
    before: Tables, server: Subscriptions, cluster: bool, nodes: set<Server>, kind: UnsubscribeType, cs: set<string>,
    ids: set<nat>, normal: seq<string>, keyspace: seq<string>)
    requires server.perNode.Keys == nodes && ListsEmptied(before, kind, cluster, cs, ids, normal, keyspace)
    ensures var s1 := Withdrawn(server, kind, Members(normal));
            s1.(perNode := Changed(s1.perNode, s => s - Members(keyspace), nodes)) == s1
    ensures keyspace != [] ==> cluster
  {
    var s1 := Withdrawn(server, kind, Members(normal));
    assert Changed(s1.perNode, s => s - Members(keyspace), nodes) == s1.perNode;
    if keyspace != [] { assert keyspace[0] in keyspace; }
  }

  /**
    The server's record after an unsubscription: if it is `asked` and accepts, the channels of `normal` go from the set
    of their kind, and then those of `keyspace` from every node that can be asked and accepts.
  */
  ghost predicate TakenOff(
    server: Subscriptions, record: Subscriptions, kind: UnsubscribeType, normal: set<string>, keyspace: set<string>,
    alive: bool, accepted: bool, down: set<Server>)
  {
    && record.patterns == server.patterns - (if accepted && kind.Punsubscribe? then normal else {})
    && record.channels == server.channels - (if accepted && kind.Unsubscribe? then normal else {})
    && record.shards == server.shards - (if accepted && kind.Sunsubscribe? then normal else {})
    && record.perNode.Keys == server.perNode.Keys
    && forall n :: n in record.perNode ==>
         record.perNode[n] == server.perNode[n] - if accepted && alive && n !in down then keyspace else {}
  }

  lemma TakenOffIs(
    server: Subscriptions, kind: UnsubscribeType, normal: set<string>, keyspace: set<string>, alive: bool,
    down: set<Server>, change: set<string> -> set<string>)
    requires forall s :: change(s) == s - keyspace
    ensures var s1 := Withdrawn(server, kind, normal);
            var s2 := s1.(perNode := Changed(s1.perNode, change, down));
            && TakenOff(server, server, kind, normal, keyspace, alive, false, down)
            && TakenOff(server, if keyspace != {} && alive then s2 else s1, kind, normal, keyspace, alive, true, down)
  {}

  /** What a removal leaves, with the server's record after as many unsubscriptions as it got to. */
  lemma RemovalOutcome(
    before: Tables, after: Tables, server: Subscriptions, cluster: bool, nodes: set<Server>, kind: UnsubscribeType,
    cs: set<string>, ids: set<nat>, normal: seq<string>, keyspace: seq<string>, alive: bool, up: bool,
    down: set<Server>, change: set<string> -> set<string>)
    requires server.perNode.Keys == nodes && (cluster ==> nodes != {})
    requires Filed(before) && IsPruned(before, after, kind, cs, ids)
    requires ListsEmptied(before, kind, cluster, cs, ids, normal, keyspace)
    requires forall s :: change(s) == s - Members(keyspace)
    ensures var accepted := normal == [] || up;
            var s1 := Withdrawn(server, kind, Members(normal));
            var record := if !accepted then server
                          else if keyspace != [] && alive then s1.(perNode := Changed(s1.perNode, change, down))
                          else s1;
            && record.perNode.Keys == nodes && Filed(after) && (Named(before) ==> Named(after))
            && TakenOff(server, record, kind, Members(normal), Members(keyspace), alive, accepted, down)
            && (Mirrors(before, server, cluster, nodes) ==>
                  (Mirrors(after, record, cluster, nodes)
                   <==> accepted && (keyspace != [] ==> alive && nodes !! down)))
  {
    var s1 := Withdrawn(server, kind, Members(normal));
    var asked := if alive then down else nodes;
    PrunedFiledAndNamed(before, after, kind, cs, ids);
    TakenOffIs(server, kind, Members(normal), Members(keyspace), alive, down, change);
    ChangedSame(s1.perNode, change, s => s - Members(keyspace), asked);
    assert keyspace == [] <==> Members(keyspace) == {} by {
      if keyspace != [] { assert keyspace[0] in Members(keyspace); }
    }
    assert s1.perNode == server.perNode;
    hide Mirrors, ListsEmptied, Pruned, Filed, Named, Changed, Members, IsPruned, Withdrawn, TakenOff;
    if Mirrors(before, server, cluster, nodes) {
      RemovalMirrored(before, after, server, cluster, nodes, kind, cs, ids, normal, keyspace, asked);
      NobodyAsked(before, server, cluster, nodes, kind, cs, ids, normal, keyspace);
    }
  }

  // ---------- Adding listeners ----------

  function With(channel: string): set<string> -> set<string> {
    (s: set<string>) => s + {channel}
  }

  /** A registration that goes to every cluster node. */
  predicate PerNode(cluster: bool, channel: string) {
    cluster && IsKeyspace(channel)
  }

  /**
    The server's record after the first registration of `channel`; `up` and `down` say who accepts it, and without its
    connection manager (`alive`) the service does not know whom to ask.
  */
  function Subscribed(
    server: Subscriptions, cluster: bool, channel: string, alive: bool, up: bool, down: set<Server>): Subscriptions
  {
    if PerNode(cluster, channel) then
      if alive then server.(perNode := Changed(server.perNode, With(channel), down)) else server
    else if up then server.(patterns := server.patterns + {channel})
    else server
  }

  predicate Accepted(
    cluster: bool, channel: string, nodes: set<Server>, alive: bool, up: bool, down: set<Server>)
  {
    if PerNode(cluster, channel) then alive && nodes !! down else up
  }

  /** What a first registration leaves behind: an early return leaves the listeners in place, a refusal none. */
  function Left(cluster: bool, channel: string, alive: bool, ok: bool, listeners: seq<Listener>): seq<Listener> {
    if ok || (PerNode(cluster, channel) && !alive) then listeners else []
  }

  lemma NoneEmptyPut(before: Tables, t: Table, channel: string, ls: seq<Listener>)
    requires NoneEmpty(before)
    ensures NoneEmpty(before.Put(t, before.Get(t)[channel := ls])) <==> ls != []
  {
    var after := before.Put(t, before.Get(t)[channel := ls]);
    assert after.Get(t)[channel] == ls;
    hide Tables.Get, Tables.Put;
  }

  lemma PutOnRecord(
    before: Tables, server: Subscriptions, cluster: bool, nodes: set<Server>, channel: string, ls: seq<Listener>,
    alive: bool, up: bool, down: set<Server>)
    requires OnRecord(KeysOf(before), server, cluster, nodes) && Accepted(cluster, channel, nodes, alive, up, down)
    ensures var t := TableOf(Punsubscribe, channel);
            OnRecord(KeysOf(before.Put(t, before.Get(t)[channel := ls])),
                     Subscribed(server, cluster, channel, alive, up, down), cluster, nodes)
  {
    hide IsKeyspace;
  }

  /** Listeners left in place for a pattern no node was asked about are not on record. */
  lemma LostOffRecord(
    before: Tables, server: Subscriptions, cluster: bool, nodes: set<Server>, channel: string, ls: seq<Listener>)
    requires OnRecord(KeysOf(before), server, cluster, nodes) && PerNode(cluster, channel) && nodes != {}
    requires channel !in before.Get(TableOf(Punsubscribe, channel))
    ensures var t := TableOf(Punsubscribe, channel);
            !OnRecord(KeysOf(before.Put(t, before.Get(t)[channel := ls])), server, cluster, nodes)
  {
    hide IsKeyspace;
    var n :| n in nodes;
    assert server.perNode[n] == before.keyspace.Keys;
  }

  lemma PutAgainOnRecord(
    before: Tables, server: Subscriptions, cluster: bool, nodes: set<Server>, t: Table, channel: string,
    ls: seq<Listener>)
    requires OnRecord(KeysOf(before), server, cluster, nodes) && channel in before.Get(t)
    ensures OnRecord(KeysOf(before.Put(t, before.Get(t)[channel := ls])), server, cluster, nodes)
  {
    hide OnRecord;
    assert before.Get(t)[channel := ls].Keys == before.Get(t).Keys;
  }

  lemma NamedPut(before: Tables, t: Table, channel: string, ls: seq<Listener>)
    requires Named(before) && forall l :: l in ls ==> l.name == channel
    ensures Named(before.Put(t, before.Get(t)[channel := ls]))
  {
    hide Tables.Get, Tables.Put;
  }

  lemma FiledPut(before: Tables, channel: string, ls: seq<Listener>)
    requires Filed(before)
    ensures var t := TableOf(Punsubscribe, channel); Filed(before.Put(t, before.Get(t)[channel := ls]))
  {
    hide IsKeyspace;
  }

  /** The three parts of the registry's state after a registration, together. */
  lemma PsubscribeKeeps(
    before: Tables, server: Subscriptions, cluster: bool, nodes: set<Server>, channel: string, listeners: seq<Listener>,
    alive: bool, up: bool, down: set<Server>, ok: bool)
    requires Filed(before) && server.perNode.Keys == nodes && (cluster ==> nodes != {})
    requires ok <==> channel in before.Get(TableOf(Punsubscribe, channel))
                     || Accepted(cluster, channel, nodes, alive, up, down)
    ensures var t := TableOf(Punsubscribe, channel);
            var m := before.Get(t);
            var ls := if channel in m then m[channel] + listeners else Left(cluster, channel, alive, ok, listeners);
            var after := before.Put(t, m[channel := ls]);
            var record := if channel in m then server else Subscribed(server, cluster, channel, alive, up, down);
            && Filed(after)
            && (Mirrors(before, server, cluster, nodes)
                ==> (Mirrors(after, record, cluster, nodes) <==> ok && ls != []))
            && (Named(before) && (forall l :: l in listeners ==> l.name == channel) ==> Named(after))
  {
    var t := TableOf(Punsubscribe, channel);
    var m := before.Get(t);
    var ls := if channel in m then m[channel] + listeners else Left(cluster, channel, alive, ok, listeners);
    FiledPut(before, channel, ls);
    if Named(before) && (forall l :: l in listeners ==> l.name == channel) {
      NamedPut(before, t, channel, ls);
    }
    hide TableOf, IsKeyspace, Tables.Put, Tables.Get, Changed, With, Filed, Named, OnRecord, NoneEmpty;
    if Mirrors(before, server, cluster, nodes) {
      NoneEmptyPut(before, t, channel, ls);
      if channel in m {
        PutAgainOnRecord(before, server, cluster, nodes, t, channel, ls);
      } else if ok {
        PutOnRecord(before, server, cluster, nodes, channel, ls, alive, up, down);
      } else if ls != [] {
        LostOffRecord(before, server, cluster, nodes, channel, ls);
      }
    }
  }

  // ---------- The service ----------

  class PublishSubscribeService {
    const cluster: bool
    var nodes: set<Server>
    var tables: Tables
    var server: Subscriptions

    ghost predicate Valid()
      reads this
    {
      server.perNode.Keys == nodes && Filed(tables) && (cluster ==> nodes != {})
    }

    ghost predicate Mirrored()
      reads this
    {
      Mirrors(tables, server, cluster, nodes)
    }

    /** A cluster has at least one node. */
    constructor (cluster: bool, nodes: set<Server>)
      requires cluster ==> nodes != {}
      ensures Valid() && Mirrored() && Named(tables) && this.cluster == cluster && this.nodes == nodes
      ensures tables == Tables(map[], map[], map[], map[]) && server.patterns == {}
    {
      this.cluster, this.nodes := cluster, nodes;
      tables := Tables(map[], map[], map[], map[]);
      server := Subscriptions({}, map n | n in nodes :: {}, {}, {});
      new;
      assert forall t :: tables.Get(t) == map[];
    }

    /** Sends one change of its patterns to each cluster node, in any order; `down` are the nodes that refuse. */
    method OnEachNode(change: set<string> -> set<string>, down: set<Server>) returns (ok: bool)
      requires server.perNode.Keys == nodes
      modifies this`server
      ensures ok <==> nodes !! down
      ensures server == old(server).(perNode := Changed(old(server).perNode, change, down))
    {
      ok := true;
      var todo := nodes;
      ghost var before := server.perNode;
      while todo != {}
        invariant todo <= nodes
        invariant ok <==> (nodes - todo) !! down
        invariant server == old(server).(perNode := server.perNode) && server.perNode.Keys == nodes
        invariant forall n :: n in nodes ==>
                    server.perNode[n] == if n in todo || n in down then before[n] else change(before[n])
        decreases |todo|
      {
        var n :| n in todo;
        todo := todo - {n};
        if n in down {
          ok := false;
        } else {
          server := server.(perNode := server.perNode[n := change(server.perNode[n])]);
        }
      }
    }

    /**
      The listeners of a pattern after a registration: appended to those there; the first ones of a pattern that was
      accepted; none, under a key that stays, for one that was refused; and all of them if nobody could be asked.
    */
    ghost predicate Registered(
      before: Tables, after: Tables, channel: string, listeners: seq<Listener>, alive: bool, ok: bool)
    {
      var t := if IsKeyspace(channel) then KeyspacePatterns else Patterns;
      var m, m' := before.Get(t), after.Get(t);
      && (forall u :: u != t ==> after.Get(u) == before.Get(u))
      && m'.Keys == m.Keys + {channel} && (forall c :: c in m && c != channel ==> m'[c] == m[c])
      && m'[channel] ==
           if channel in m then m[channel] + listeners
           else if ok || (cluster && IsKeyspace(channel) && !alive) then listeners
           else []
    }

    /** The server's record after a registration: a new pattern is added where it was accepted. */
    ghost predicate RegisteredAt(
      before: Tables, server: Subscriptions, record: Subscriptions, channel: string, alive: bool, up: bool,
      down: set<Server>)
    {
      var everywhere := cluster && IsKeyspace(channel);
      var first := channel !in before.Get(if IsKeyspace(channel) then KeyspacePatterns else Patterns);
      && record.channels == server.channels && record.shards == server.shards
      && record.patterns == server.patterns + (if first && !everywhere && up then {channel} else {})
      && record.perNode.Keys == server.perNode.Keys
      && forall n :: n in record.perNode ==>
           record.perNode[n] == server.perNode[n]
                                + if first && everywhere && alive && n !in down then {channel} else {}
    }

    lemma RegistrationIs(
      before: Tables, server: Subscriptions, channel: string, listeners: seq<Listener>, alive: bool, up: bool,
      down: set<Server>, ok: bool)
      ensures var t := TableOf(Punsubscribe, channel);
              var m := before.Get(t);
              var ls := if channel in m then m[channel] + listeners else Left(cluster, channel, alive, ok, listeners);
              && Registered(before, before.Put(t, m[channel := ls]), channel, listeners, alive, ok)
              && RegisteredAt(before, server,
                              if channel in m then server else Subscribed(server, cluster, channel, alive, up, down),
                              channel, alive, up, down)
    {
      hide IsKeyspace, Tables.Get, Tables.Put;
    }

    /**
      Registers listeners for a pattern and subscribes it the first time. The mirror survives exactly when the call
      succeeds and leaves a listener: a failed first registration leaves the pattern behind with no listeners, or with
      all of them if the connection manager is gone, and later registrations of it then answer success without
      reaching the server.
    */
    method Psubscribe(channel: string, listeners: seq<Listener>, alive: bool, up: bool, down: set<Server>)
      returns (ok: bool)
      requires Valid()
      modifies this`tables, this`server
      ensures Valid()
      ensures var t := TableOf(Punsubscribe, channel);
              var m := old(tables).Get(t);
              && (ok <==> channel in m || Accepted(cluster, channel, nodes, alive, up, down))
              && tables == old(tables).Put(t, m[channel :=
                   if channel in m then m[channel] + listeners else Left(cluster, channel, alive, ok, listeners)])
              && server == if channel in m then old(server)
                           else Subscribed(old(server), cluster, channel, alive, up, down)
      ensures Registered(old(tables), tables, channel, listeners, alive, ok)
      ensures RegisteredAt(old(tables), old(server), server, channel, alive, up, down)
      ensures old(Mirrored()) ==> (Mirrored() <==> ok && tables.Get(TableOf(Punsubscribe, channel))[channel] != [])
      ensures old(Named(tables)) && (forall l :: l in listeners ==> l.name == channel) ==> Named(tables)
    {
      var t := TableOf(Punsubscribe, channel);
      var m := tables.Get(t);
      var known := channel in m;
      ghost var before, record := tables, server;
      tables := tables.Put(t, m[channel := if known then m[channel] + listeners else listeners]);
      hide TableOf, IsKeyspace, Tables.Put, Tables.Get, Changed, With, Filed, Named, OnRecord, NoneEmpty, Registered,
           RegisteredAt;
      ok := true;
      if !known {
        if PerNode(cluster, channel) {
          ok := false;
          if alive {
            ok := OnEachNode(With(channel), down);
          }
        } else {
          ok := up;
          if up {
            server := server.(patterns := server.patterns + {channel});
          }
        }
        if !ok && (alive || !PerNode(cluster, channel)) {
          tables := tables.Put(t, m[channel := []]);
        }
      }
      PsubscribeKeeps(before, record, cluster, nodes, channel, listeners, alive, up, down, ok);
      RegistrationIs(before, record, channel, listeners, alive, up, down, ok);
    }

    /**
      Removes the listeners `ids` of the given channels, then unsubscribes each channel this emptied, once.
      The mirror survives exactly when every unsubscription it had to send succeeds.
    */
    method RemoveListener(
      kind: UnsubscribeType, channels: seq<string>, ids: set<nat>, alive: bool, up: bool, down: set<Server>)
      returns (ok: bool, normal: seq<string>, keyspace: seq<string>)
      requires Valid()
      modifies this`tables, this`server
      ensures Valid()
      ensures IsPruned(old(tables), tables, kind, Members(channels), ids)
      ensures LosesPairs(old(tables), tables, kind, Members(channels), ids)
      ensures ListsEmptied(old(tables), kind, cluster, Members(channels), ids, normal, keyspace)
      ensures ok <==> (normal != [] ==> up) && (keyspace != [] ==> alive && nodes !! down)
      ensures TakenOff(old(server), server, kind, Members(normal), Members(keyspace), alive, normal == [] || up, down)
      ensures old(Named(tables)) ==> Named(tables)
      ensures old(Mirrored()) ==> (Mirrored() <==> ok)
    {
      ghost var before, record, cs := tables, server, Members(channels);
      tables, normal, keyspace := PruneTables(tables, kind, cluster, channels, ids);
      var change := (s: set<string>) => s - Members(keyspace);
      RemovalOutcome(before, tables, record, cluster, nodes, kind, cs, ids, normal, keyspace, alive, up, down, change);
      hide Mirrors, ListsEmptied, Filed, Named, Changed, Members, IsPruned, Withdrawn, LosesPairs, TakenOff;
      ok := normal == [] || up;
      if ok {
        server := Withdrawn(server, kind, Members(normal));
        if keyspace != [] {
          ok := false;
          if alive {
            ok := OnEachNode(change, down);
          }
        }
      }
    }

    /** A cluster node (re)connects with no subscriptions and is sent all keyspace patterns; `accepts` is its answer. */
    method OnNodeConnect(n: Server, accepts: bool)
      requires Valid() && cluster
      modifies this`nodes, this`server
      ensures Valid() && nodes == old(nodes) + {n}
      ensures server == old(server).(perNode := old(server).perNode[n :=
                if accepts then tables.keyspace.Keys else {}])
      ensures old(Mirrored()) ==> (Mirrored() <==> accepts || tables.keyspace == map[])
    {
      nodes := nodes + {n};
      var patterns := tables.keyspace.Keys;
      server := server.(perNode := server.perNode[n := if patterns != {} && accepts then patterns else {}]);
    }
  }

  // ---------- Pattern topics ----------

  /** A pattern topic registers every listener under its own pattern. */
  class PatternTopic {
    const service: PublishSubscribeService
    const name: string

    constructor (service: PublishSubscribeService, name: string)
      ensures this.service == service && this.name == name
    {
      this.service, this.name := service, name;
    }

    /** So whatever is stored through topics keeps the name of the pattern it is stored under. */
    method AddListener(id: nat, alive: bool, up: bool, down: set<Server>) returns (ok: bool)
      requires service.Valid()
      modifies service`tables, service`server
      ensures service.Valid()
      ensures old(Named(service.tables)) ==> Named(service.tables)
      ensures old(service.Mirrored()) ==> (service.Mirrored() <==> ok)
      ensures service.Registered(old(service.tables), service.tables, name, [Listener(id, name)], alive, ok)
      ensures var m := service.tables.Get(TableOf(Punsubscribe, name));
              ok ==> name in m && Listener(id, name) in m[name]
    {
      ok := service.Psubscribe(name, [Listener(id, name)], alive, up, down);
    }

    method RemoveListener(ids: set<nat>, alive: bool, up: bool, down: set<Server>) returns (ok: bool)
      requires service.Valid()
      modifies service`tables, service`server
      ensures service.Valid()
      ensures old(Named(service.tables)) ==> Named(service.tables)
      ensures old(service.Mirrored()) ==> (service.Mirrored() <==> ok)
      ensures IsPruned(old(service.tables), service.tables, Punsubscribe, {name}, ids)
      ensures LosesPairs(old(service.tables), service.tables, Punsubscribe, {name}, ids)
    {
      var normal, keyspace;
      ok, normal, keyspace := service.RemoveListener(Punsubscribe, [name], ids, alive, up, down);
      assert Members([name]) == {name};
    }
  }
}
