/** Scattering a batch: which node each queued command goes to, and the group each node receives. */
module Grouping {
  import opened Commands
  import opened Options
  import opened Topology

  /** A queued command, the caller waiting for it, and its place among the batch's responses. */
  datatype Pending = Pending(cmd: RedisCommand, tx: nat, index: nat)

  datatype Deployment = Deployment(routing: Routing, keyslot: Key -> nat) {
    function SlotOf(c: RedisCommand): nat {
      match c.RoutingKey()
      case None => 0
      case Some(key) => keyslot(key)
    }

    function EntryOf(c: RedisCommand): Option<MasterSlaveEntry> {
      WriteEntry(routing, SlotOf(c))
    }
  }

  ghost predicate Routable(dep: Deployment, q: seq<Pending>) {
    forall i :: 0 <= i < |q| ==> dep.EntryOf(q[i].cmd).Some?
  }

  /** The primary of each queued command. */
  function Targets(dep: Deployment, q: seq<Pending>): (ts: seq<Server>)
    requires Routable(dep, q)
    ensures |ts| == |q| && forall i :: 0 <= i < |q| ==> ts[i] == dep.EntryOf(q[i].cmd).value.primary
  {
    seq(|q|, i requires 0 <= i < |q| => dep.EntryOf(q[i].cmd).value.primary)
  }

  /**
    Each command goes to the primary that owns the slot of its key, and to that of slot 0 without one; the batch is
    routable exactly if all these slots have an owner. Without slots everything goes to the first host.
  */
  lemma SentToOwner(dep: Deployment, q: seq<Pending>)
    ensures dep.routing.Cluster? ==>
              var table := dep.routing.table;
              var slot := (c: RedisCommand) =>
                            if c.RoutingKey().Some? then dep.keyslot(c.RoutingKey().value) else 0;
              && (Routable(dep, q) <==> forall i :: 0 <= i < |q| ==> slot(q[i].cmd) in table)
              && (Routable(dep, q) ==> forall i :: 0 <= i < |q| ==> Targets(dep, q)[i] == table[slot(q[i].cmd)])
    ensures dep.routing.Hosts? ==>
              && (Routable(dep, q) <==> q == [] || dep.routing.hosts != [])
              && (Routable(dep, q) ==> forall i :: 0 <= i < |q| ==> Targets(dep, q)[i] == dep.routing.hosts[0])
  {
    if q != [] && Routable(dep, q) { assert dep.EntryOf(q[0].cmd).Some?; }
    hide RedisCommand.RoutingKey;
  }

  // ---------- Picking positions by node ----------

  /** The elements of `xs` at the positions whose target is in `on`, in order. */
  function Pick<T>(ts: seq<Server>, xs: seq<T>, on: set<Server>): (r: seq<T>)
    requires |ts| == |xs|
    ensures forall x :: x in r ==> x in xs
  {
    if ts == [] then []
    else (if ts[0] in on then [xs[0]] else []) + Pick(ts[1..], xs[1..], on)
  }

  lemma {:induction false} PickSnoc<T>(ts: seq<Server>, xs: seq<T>, on: set<Server>, t: Server, x: T)
    requires |ts| == |xs|
    ensures Pick(ts + [t], xs + [x], on) == Pick(ts, xs, on) + if t in on then [x] else []
  {
    if ts == [] {
      assert ts + [t] == [t] && xs + [x] == [x];
    } else {
      assert (ts + [t])[1..] == ts[1..] + [t] && (xs + [x])[1..] == xs[1..] + [x];
      PickSnoc(ts[1..], xs[1..], on, t, x);
    }
  }

  /** Picking from one more node adds that node's elements. */
  lemma {:induction false} PickAnother<T>(ts: seq<Server>, xs: seq<T>, on: set<Server>, s: Server)
    requires |ts| == |xs| && s !in on
    ensures multiset(Pick(ts, xs, on + {s})) == multiset(Pick(ts, xs, on)) + multiset(Pick(ts, xs, {s}))
  {
    if ts != [] {
      PickAnother(ts[1..], xs[1..], on, s);
    }
  }

  lemma {:induction false} PickAll<T>(ts: seq<Server>, xs: seq<T>, on: set<Server>)
    requires |ts| == |xs| && forall t :: t in ts ==> t in on
    ensures Pick(ts, xs, on) == xs
  {
    if ts != [] {
      PickAll(ts[1..], xs[1..], on);
    }
  }

  lemma {:induction false} PickNone<T>(ts: seq<Server>, xs: seq<T>, on: set<Server>)
    requires |ts| == |xs| && forall t :: t in ts ==> t !in on
    ensures Pick(ts, xs, on) == []
  {
    if ts != [] {
      PickNone(ts[1..], xs[1..], on);
    }
  }

  /** Combining two lists position by position and then picking is picking from both and then combining. */
  function Combine<A, B, C>(f: (A, B) -> C, xs: seq<A>, ys: seq<B>): (r: seq<C>)
    requires |xs| == |ys|
    ensures |r| == |xs| && forall i :: 0 <= i < |r| ==> r[i] == f(xs[i], ys[i])
  {
    seq(|xs|, i requires 0 <= i < |xs| => f(xs[i], ys[i]))
  }

  lemma {:induction false} PickSameLength<A, B>(ts: seq<Server>, xs: seq<A>, ys: seq<B>, on: set<Server>)
    requires |ts| == |xs| == |ys|
    ensures |Pick(ts, xs, on)| == |Pick(ts, ys, on)|
  {
    if ts != [] {
      PickSameLength(ts[1..], xs[1..], ys[1..], on);
    }
  }

  lemma {:induction false} PickCombine<A, B, C>(f: (A, B) -> C, ts: seq<Server>, xs: seq<A>, ys: seq<B>,
      on: set<Server>)
    requires |ts| == |xs| == |ys|
    ensures |Pick(ts, xs, on)| == |Pick(ts, ys, on)|
    ensures Pick(ts, Combine(f, xs, ys), on) == Combine(f, Pick(ts, xs, on), Pick(ts, ys, on))
  {
    PickSameLength(ts, xs, ys, on);
    if ts != [] {
      PickCombine(f, ts[1..], xs[1..], ys[1..], on);
      assert Combine(f, xs, ys)[1..] == Combine(f, xs[1..], ys[1..]);
      PickSameLength(ts[1..], xs[1..], ys[1..], on);
    }
  }

  // ---------- The groups ----------

  /** What one node receives; the entry kept is that of the first command added. */
  datatype Group = Group(mse: MasterSlaveEntry, commands: seq<Pending>, readOnly: bool) {
    function Add(p: Pending): Group {
      this.(commands := commands + [p], readOnly := readOnly && p.cmd.IsReadOnly())
    }
  }

  ghost predicate AllReadOnly(ps: seq<Pending>) {
    forall p :: p in ps ==> p.cmd.IsReadOnly()
  }

  /** `g` is node `s`'s part of the batch, in queue order, under an entry whose slot leads to `s`. */
  ghost predicate IsGroup(dep: Deployment, ts: seq<Server>, q: seq<Pending>, s: Server, g: Group)
    requires |ts| == |q|
  {
    && g.commands == Pick(ts, q, {s})
    && (g.readOnly <==> AllReadOnly(g.commands))
    && g.mse.primary == s
    && Reached(dep.routing, if g.mse.slot.Some? then g.mse.slot.value else 0) == Some(s)
  }

  /** The groups are the batch, node by node. */
  ghost predicate IsGrouping(dep: Deployment, ts: seq<Server>, q: seq<Pending>, groups: map<Server, Group>)
    requires |ts| == |q|
  {
    && (forall s :: s in groups <==> s in ts)
    && (forall s :: s in groups ==> IsGroup(dep, ts, q, s, groups[s]))
  }

  lemma AddToGroup(dep: Deployment, ts: seq<Server>, q: seq<Pending>, s: Server, g: Group, t: Server, p: Pending)
    requires |ts| == |q| && IsGroup(dep, ts, q, s, g)
    ensures IsGroup(dep, ts + [t], q + [p], s, if s == t then g.Add(p) else g)
  {
    PickSnoc(ts, q, {s}, t, p);
  }

  lemma AddKeepsGrouping(
    dep: Deployment, ts: seq<Server>, q: seq<Pending>, groups: map<Server, Group>, p: Pending, g: Group, t: Server)
    requires |ts| == |q| && IsGrouping(dep, ts, q, groups)
    requires t in groups ==> g == groups[t]
    requires t !in groups ==> IsGroup(dep, ts, q, t, g)
    ensures IsGrouping(dep, ts + [t], q + [p], groups[t := g.Add(p)])
  {
    AddToGroup(dep, ts, q, t, g, t, p);
    forall s | s in groups { AddToGroup(dep, ts, q, s, groups[s], t, p); }
    hide IsGroup;
    assert (ts + [t])[|ts|] == t;
  }

  lemma NewGroup(dep: Deployment, ts: seq<Server>, q: seq<Pending>, slot: nat)
    requires |ts| == |q| && WriteEntry(dep.routing, slot).Some?
    requires WriteEntry(dep.routing, slot).value.primary !in ts
    ensures var e := WriteEntry(dep.routing, slot).value; IsGroup(dep, ts, q, e.primary, Group(e, [], true))
  {
    KeptSlotReachesPrimary(dep.routing, slot);
    PickNone(ts, q, {WriteEntry(dep.routing, slot).value.primary});
  }

  lemma TargetsSnoc(dep: Deployment, q: seq<Pending>, p: Pending)
    requires Routable(dep, q) && dep.EntryOf(p.cmd).Some?
    ensures Routable(dep, q + [p])
    ensures Targets(dep, q + [p]) == Targets(dep, q) + [dep.EntryOf(p.cmd).value.primary]
  {}

  ghost predicate Grouped(dep: Deployment, q: seq<Pending>, groups: map<Server, Group>) {
    Routable(dep, q) && IsGrouping(dep, Targets(dep, q), q, groups)
  }

  lemma GroupedSnoc(dep: Deployment, q: seq<Pending>, p: Pending, groups: map<Server, Group>)
    requires Grouped(dep, q, groups) && dep.EntryOf(p.cmd).Some?
    ensures var e := dep.EntryOf(p.cmd).value;
            var g := if e.primary in groups then groups[e.primary] else Group(e, [], true);
            Grouped(dep, q + [p], groups[e.primary := g.Add(p)])
  {
    var e := dep.EntryOf(p.cmd).value;
    var g := if e.primary in groups then groups[e.primary] else Group(e, [], true);
    var ts := Targets(dep, q);
    TargetsSnoc(dep, q, p);
    if e.primary !in groups {
      NewGroup(dep, ts, q, dep.SlotOf(p.cmd));
    }
    hide IsGroup, Targets;
    AddKeepsGrouping(dep, ts, q, groups, p, g, e.primary);
  }

  /** Groups the queue by primary; a slot without a server fails the batch. */
  method GroupByNode(dep: Deployment, q: seq<Pending>) returns (r: Option<map<Server, Group>>)
    ensures r.Some? <==> Routable(dep, q)
    ensures r.Some? ==> IsGrouping(dep, Targets(dep, q), q, r.value)
  {
    var groups: map<Server, Group> := map[];
    assert Grouped(dep, [], groups);
    for i := 0 to |q|
      invariant Grouped(dep, q[..i], groups)
    {
      var mse := dep.EntryOf(q[i].cmd);
      if mse.None? {
        return None;
      }
      hide Grouped;
      var e := mse.value;
      var g := if e.primary in groups then groups[e.primary] else Group(e, [], true);
      GroupedSnoc(dep, q[..i], q[i], groups);
      assert q[..i + 1] == q[..i] + [q[i]];
      groups := groups[e.primary := g.Add(q[i])];
    }
    assert q[..|q|] == q;
    r := Some(groups);
  }

  /** Which pipeline a group gets: a replica only for reads outside a transaction. */
  predicate UsesReplica(g: Group, atomic: bool, readFromMaster: bool) {
    !atomic && g.readOnly && !readFromMaster
  }

  lemma {:induction false} PickedAt<T>(ts: seq<Server>, xs: seq<T>, s: Server, i: nat)
    requires |ts| == |xs| && i < |ts| && ts[i] == s
    ensures xs[i] in Pick(ts, xs, {s})
  {
    if i > 0 {
      PickedAt(ts[1..], xs[1..], s, i - 1);
    }
  }

  lemma {:induction false} PickedFrom<T>(ts: seq<Server>, xs: seq<T>, s: Server, x: T)
    requires |ts| == |xs| && x in Pick(ts, xs, {s})
    ensures exists i :: 0 <= i < |ts| && ts[i] == s && xs[i] == x
  {
    if ts[0] == s && xs[0] == x {
    } else {
      PickedFrom(ts[1..], xs[1..], s, x);
      var i :| 0 <= i < |ts| - 1 && ts[1..][i] == s && xs[1..][i] == x;
      assert ts[i + 1] == s && xs[i + 1] == x;
    }
  }
}
