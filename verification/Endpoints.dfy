/** Which node serves each group: its primary, or a replica if everything in it is a read. */
module Endpoints {
  import opened Commands
  import opened Redis
  import opened Topology
  import opened Grouping
  import opened NodeJob
  import opened LoadScripts
  import opened BatchMeaning

  /**
    One execution: its configuration, what the client believes the nodes hold when it starts, the replica a read
    pipeline of a primary reaches (the primary itself if it has none), and how each node ends its transaction, answers
    WAIT and refuses scripts.
  */
  datatype Setting = Setting(
    sem: Semantics, opts: BatchOptions, useScriptCache: bool, readFromMaster: bool, belief: Belief,
    replica: Server -> Server, fates: Server -> ExecFate, waits: Server -> Reply, refused: Server -> set<string>)

  /** A replica follows one primary only, and is not itself another one. */
  ghost predicate OwnReplicas(x: Setting, ts: seq<Server>) {
    forall s, t :: s in ts && t in ts && s != t ==> x.replica(s) != t && x.replica(s) != x.replica(t)
  }

  /** The group `ps` goes to a replica. */
  ghost predicate OnReplica(x: Setting, ps: seq<Pending>) {
    !x.opts.atomic && AllReadOnly(ps) && !x.readFromMaster
  }

  ghost function EndOf(x: Setting, ts: seq<Server>, q: seq<Pending>, s: Server): Server
    requires |ts| == |q|
  {
    if OnReplica(x, Pick(ts, q, {s})) then x.replica(s) else s
  }

  /** The node that serves each queued command. */
  ghost function Ends(x: Setting, ts: seq<Server>, q: seq<Pending>): (es: seq<Server>)
    requires |ts| == |q|
    ensures |es| == |ts| && forall i :: 0 <= i < |es| ==> es[i] == EndOf(x, ts, q, ts[i])
  {
    seq(|ts|, i requires 0 <= i < |ts| => EndOf(x, ts, q, ts[i]))
  }

  lemma EndsApart(x: Setting, ts: seq<Server>, q: seq<Pending>, s: Server, t: Server)
    requires |ts| == |q| && OwnReplicas(x, ts) && s in ts && t in ts && s != t
    ensures EndOf(x, ts, q, s) != EndOf(x, ts, q, t)
  {
    hide OnReplica;
    assert x.replica(s) != t && x.replica(t) != s && x.replica(s) != x.replica(t);
  }

  lemma NotAPrimary(x: Setting, ts: seq<Server>, q: seq<Pending>, s: Server)
    requires |ts| == |q| && OwnReplicas(x, ts) && s in ts && EndOf(x, ts, q, s) != s
    ensures EndOf(x, ts, q, s) !in ts
  {
    forall t | t in ts ensures t != x.replica(s) {
      assert t != s ==> x.replica(t) != x.replica(s);
    }
  }

  /** Picking by another naming of the nodes that tells them apart as well picks the same. */
  lemma {:induction false} PickRenamed<T>(ts: seq<Server>, es: seq<Server>, xs: seq<T>, s: Server, e: Server)
    requires |ts| == |es| == |xs|
    requires forall i :: 0 <= i < |ts| ==> (es[i] == e <==> ts[i] == s)
    ensures Pick(es, xs, {e}) == Pick(ts, xs, {s})
  {
    if ts != [] {
      assert es[0] == e <==> ts[0] == s;
      PickRenamed(ts[1..], es[1..], xs[1..], s, e);
    }
  }

  lemma PickByEnd<T>(x: Setting, ts: seq<Server>, q: seq<Pending>, xs: seq<T>, s: Server)
    requires |ts| == |q| == |xs| && OwnReplicas(x, ts) && s in ts
    ensures Pick(Ends(x, ts, q), xs, {EndOf(x, ts, q, s)}) == Pick(ts, xs, {s})
  {
    var es, e := Ends(x, ts, q), EndOf(x, ts, q, s);
    forall i | 0 <= i < |ts| ensures es[i] == e <==> ts[i] == s {
      if ts[i] != s {
        EndsApart(x, ts, q, ts[i], s);
      }
    }
    PickRenamed(ts, es, xs, s, e);
  }

  // ---------- What replicas get ----------

  lemma InOwnGroup(ts: seq<Server>, q: seq<Pending>, i: nat)
    requires |ts| == |q| && i < |ts|
    ensures q[i] in Pick(ts, q, {ts[i]})
  {
    PickedAt(ts, q, ts[i], i);
  }

  /**
    A command is served by a replica of its primary exactly if the batch is no transaction, reads may leave the primary,
    and every command for that primary is a read.
  */
  lemma ServedByReplicaIff(x: Setting, ts: seq<Server>, q: seq<Pending>, i: nat)
    requires |ts| == |q| && i < |ts|
    ensures Ends(x, ts, q)[i] ==
              if !x.opts.atomic && !x.readFromMaster
                 && forall j :: 0 <= j < |ts| && ts[j] == ts[i] ==> q[j].cmd.IsReadOnly()
              then x.replica(ts[i]) else ts[i]
  {
    var ps := Pick(ts, q, {ts[i]});
    forall j | 0 <= j < |ts| && ts[j] == ts[i] ensures q[j] in ps { InOwnGroup(ts, q, j); }
    forall p | p in ps ensures exists j :: 0 <= j < |ts| && ts[j] == ts[i] && q[j] == p {
      PickedFrom(ts, q, ts[i], p);
    }
    hide Pick, RedisCommand.IsReadOnly;
  }

  /**
    Whatever a node other than the primary serves is classed as a read, and is so still after the script rewrite, which
    leaves it alone. As sent, only EVALSHA_RO and SORT_RO turn into commands classed as writes.
  */
  lemma ReplicasServeReads(x: Setting, ts: seq<Server>, q: seq<Pending>, i: nat)
    requires |ts| == |q| && i < |ts| && Ends(x, ts, q)[i] != ts[i]
    ensures var sent := Wire(x.sem, x.useScriptCache, CommandsOf(q))[i];
            && sent == q[i].cmd && sent.IsReadOnly()
            && (sent.OnPipeline().IsReadOnly() <==> !sent.EvalShaRo? && !sent.SortRo?)
  {
    InOwnGroup(ts, q, i);
  }

  lemma {:induction false} ReadsCarryNothing(sem: Semantics, cs: seq<RedisCommand>)
    requires forall c :: c in cs ==> !c.Eval?
    ensures Carried(sem, cs) == map[]
  {
    if cs != [] {
      assert cs[0] in cs;
      ReadsCarryNothing(sem, cs[1..]);
    }
  }

  /** A group that goes to a replica has no script to load. */
  lemma ReplicaCarriesNothing(x: Setting, ts: seq<Server>, q: seq<Pending>, s: Server)
    requires |ts| == |q| && OnReplica(x, Pick(ts, q, {s}))
    ensures Carried(x.sem, Pick(ts, CommandsOf(q), {s})) == map[]
  {
    PickCommands(ts, q, {s});
    var ps := Pick(ts, q, {s});
    forall c | c in CommandsOf(ps) ensures !c.Eval? {
      var i :| 0 <= i < |ps| && CommandsOf(ps)[i] == c;
      assert ps[i] in ps;
    }
    ReadsCarryNothing(x.sem, CommandsOf(ps));
  }

  lemma SameCarried(x: Setting, ts: seq<Server>, q: seq<Pending>, s: Server)
    requires |ts| == |q| && OwnReplicas(x, ts)
    ensures Carried(x.sem, Pick(Ends(x, ts, q), CommandsOf(q), {s})) == Carried(x.sem, Pick(ts, CommandsOf(q), {s}))
  {
    var es, cs := Ends(x, ts, q), CommandsOf(q);
    if s in es {
      var i :| 0 <= i < |es| && es[i] == s;
      PickByEnd(x, ts, q, cs, ts[i]);
      if ts[i] != s {
        ReplicaCarriesNothing(x, ts, q, ts[i]);
        NotAPrimary(x, ts, q, ts[i]);
        PickNone(ts, cs, {s});
      }
    } else {
      PickNone(es, cs, {s});
      if s in ts {
        var i :| 0 <= i < |ts| && ts[i] == s;
        assert es[i] != s;
        ReplicaCarriesNothing(x, ts, q, s);
      } else {
        PickNone(ts, cs, {s});
      }
    }
  }

  /** Loading on the primaries readies the nodes that serve. */
  lemma ReadyForEnds(x: Setting, ts: seq<Server>, q: seq<Pending>, w: World)
    requires |ts| == |q| && OwnReplicas(x, ts)
    ensures Ready(x.sem, x.useScriptCache, x.belief, Ends(x, ts, q), CommandsOf(q), w)
            == Ready(x.sem, x.useScriptCache, x.belief, ts, CommandsOf(q), w)
  {
    forall s | s in w { SameCarried(x, ts, q, s); }
    hide Carried, Pick, CommandsOf, Ends, OwnReplicas;
  }

  // ---------- Choosing the pipelines ----------

  /** Each group with its commands as sent, under the node whose pipeline it gets. */
  method ChoosePipelines(
    x: Setting, ghost ts: seq<Server>, ghost q: seq<Pending>, ghost wire: seq<RedisCommand>,
    groups: map<Server, Group>, wires: map<Server, seq<RedisCommand>>)
    returns (served: map<Server, Group>, sent: map<Server, seq<RedisCommand>>)
    requires |ts| == |q| == |wire| && OwnReplicas(x, ts)
    requires forall s :: s in groups <==> s in ts
    requires forall s :: s in groups ==>
               && groups[s].commands == Pick(ts, q, {s}) && (groups[s].readOnly <==> AllReadOnly(groups[s].commands))
               && s in wires && wires[s] == Pick(ts, wire, {s})
    ensures var es := Ends(x, ts, q);
            && (forall e :: e in served <==> e in es)
            && (forall e :: e in sent <==> e in es)
            && (forall e :: e in es ==> served[e].commands == Pick(es, q, {e}) && sent[e] == Pick(es, wire, {e}))
  {
    served, sent := map[], map[];
    var todo := groups.Keys;
    ghost var es := Ends(x, ts, q);
    while todo != {}
      invariant todo <= groups.Keys
      invariant Chosen(x, ts, q, wire, todo, served, sent)
      decreases todo
    {
      var s :| s in todo;
      var g := groups[s];
      var e := if UsesReplica(g, x.opts.atomic, x.readFromMaster) then x.replica(s) else s;
      assert e == EndOf(x, ts, q, s);
      ChosenStep(x, ts, q, wire, todo, served, sent, s, g);
      todo, served, sent := todo - {s}, served[e := g], sent[e := wires[s]];
    }
    ChosenAll(x, ts, q, wire, served, sent);
  }

  /** The group of primary `s` has its pipeline. */
  ghost predicate ChosenFor(
    x: Setting, ts: seq<Server>, q: seq<Pending>, wire: seq<RedisCommand>, s: Server,
    served: map<Server, Group>, sent: map<Server, seq<RedisCommand>>)
    requires |ts| == |q| == |wire|
  {
    var e := EndOf(x, ts, q, s);
    && e in served && served[e].commands == Pick(ts, q, {s})
    && e in sent && sent[e] == Pick(ts, wire, {s})
  }

  /** So have those of all primaries but the ones in `todo`, and no other node has one. */
  ghost predicate Chosen(
    x: Setting, ts: seq<Server>, q: seq<Pending>, wire: seq<RedisCommand>, todo: set<Server>,
    served: map<Server, Group>, sent: map<Server, seq<RedisCommand>>)
    requires |ts| == |q| == |wire|
  {
    && (forall s :: s in ts && s !in todo ==> ChosenFor(x, ts, q, wire, s, served, sent))
    && (forall e :: e in served || e in sent ==> e in Ends(x, ts, q))
  }

  lemma ChosenStays(
    x: Setting, ts: seq<Server>, q: seq<Pending>, wire: seq<RedisCommand>, t: Server,
    served: map<Server, Group>, sent: map<Server, seq<RedisCommand>>, s: Server, g: Group, cs: seq<RedisCommand>)
    requires |ts| == |q| == |wire| && OwnReplicas(x, ts) && s in ts && t in ts && s != t
    requires ChosenFor(x, ts, q, wire, t, served, sent)
    ensures var e := EndOf(x, ts, q, s); ChosenFor(x, ts, q, wire, t, served[e := g], sent[e := cs])
  {
    EndsApart(x, ts, q, s, t);
    hide EndOf, Pick, OwnReplicas;
  }

  lemma EndInEnds(x: Setting, ts: seq<Server>, q: seq<Pending>, s: Server)
    requires |ts| == |q| && s in ts
    ensures EndOf(x, ts, q, s) in Ends(x, ts, q)
  {
    hide EndOf;
    var i :| 0 <= i < |ts| && ts[i] == s;
    assert Ends(x, ts, q)[i] == EndOf(x, ts, q, s);
  }

  lemma JustChosen(
    x: Setting, ts: seq<Server>, q: seq<Pending>, wire: seq<RedisCommand>,
    served: map<Server, Group>, sent: map<Server, seq<RedisCommand>>, s: Server, g: Group)
    requires |ts| == |q| == |wire| && g.commands == Pick(ts, q, {s})
    ensures var e := EndOf(x, ts, q, s);
            ChosenFor(x, ts, q, wire, s, served[e := g], sent[e := Pick(ts, wire, {s})])
  {
    hide EndOf, Pick;
  }

  lemma ChosenStep(
    x: Setting, ts: seq<Server>, q: seq<Pending>, wire: seq<RedisCommand>, todo: set<Server>,
    served: map<Server, Group>, sent: map<Server, seq<RedisCommand>>, s: Server, g: Group)
    requires |ts| == |q| == |wire| && OwnReplicas(x, ts) && s in ts
    requires Chosen(x, ts, q, wire, todo, served, sent) && g.commands == Pick(ts, q, {s})
    ensures var e := EndOf(x, ts, q, s);
            Chosen(x, ts, q, wire, todo - {s}, served[e := g], sent[e := Pick(ts, wire, {s})])
  {
    hide ChosenFor, EndOf, Pick, OwnReplicas, Ends;
    var e, cs := EndOf(x, ts, q, s), Pick(ts, wire, {s});
    EndInEnds(x, ts, q, s);
    JustChosen(x, ts, q, wire, served, sent, s, g);
    forall t | t in ts && t !in todo && t != s ensures ChosenFor(x, ts, q, wire, t, served[e := g], sent[e := cs]) {
      ChosenStays(x, ts, q, wire, t, served, sent, s, g, cs);
    }
  }

  lemma ChosenAll(
    x: Setting, ts: seq<Server>, q: seq<Pending>, wire: seq<RedisCommand>,
    served: map<Server, Group>, sent: map<Server, seq<RedisCommand>>)
    requires |ts| == |q| == |wire| && OwnReplicas(x, ts) && Chosen(x, ts, q, wire, {}, served, sent)
    ensures var es := Ends(x, ts, q);
            && (forall e :: e in served <==> e in es)
            && (forall e :: e in sent <==> e in es)
            && (forall e :: e in es ==> served[e].commands == Pick(es, q, {e}) && sent[e] == Pick(es, wire, {e}))
  {
    var es := Ends(x, ts, q);
    forall i | 0 <= i < |es|
      ensures es[i] in served && es[i] in sent
      ensures served[es[i]].commands == Pick(es, q, {es[i]}) && sent[es[i]] == Pick(es, wire, {es[i]})
    {
      ChosenAt(x, ts, q, wire, served, sent, i);
    }
    hide Ends, EndOf, Pick, OwnReplicas, ChosenFor;
  }

  lemma ChosenAt(
    x: Setting, ts: seq<Server>, q: seq<Pending>, wire: seq<RedisCommand>,
    served: map<Server, Group>, sent: map<Server, seq<RedisCommand>>, i: nat)
    requires |ts| == |q| == |wire| && i < |ts| && OwnReplicas(x, ts) && Chosen(x, ts, q, wire, {}, served, sent)
    ensures var es := Ends(x, ts, q);
            && es[i] in served && served[es[i]].commands == Pick(es, q, {es[i]})
            && es[i] in sent && sent[es[i]] == Pick(es, wire, {es[i]})
  {
    PickByEnd(x, ts, q, q, ts[i]);
    PickByEnd(x, ts, q, wire, ts[i]);
    assert ChosenFor(x, ts, q, wire, ts[i], served, sent);
  }
}
