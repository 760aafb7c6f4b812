/** Nodes of a deployment and the routing table that sends a slot to its primary. */
module Topology {
  import opened Options

  datatype Server = Server(host: string, port: nat)

  /** A cluster's slot table, or the configured hosts of a deployment without slots. */
  datatype Routing = Cluster(table: map<nat, Server>) | Hosts(hosts: seq<Server>)

  /** A primary and, in a cluster, the slot it was looked up for. Two entries are the same entry if their primary is. */
  datatype MasterSlaveEntry = MasterSlaveEntry(primary: Server, slot: Option<nat>)

  function WriteEntry(rt: Routing, slot: nat): Option<MasterSlaveEntry> {
    match rt
    case Cluster(table) => if slot in table then Some(MasterSlaveEntry(table[slot], Some(slot))) else None
    case Hosts(hosts) => if hosts == [] then None else Some(MasterSlaveEntry(hosts[0], None))
  }

  /** The primary that a command sent with this slot as its only routing information reaches. */
  function Reached(rt: Routing, slot: nat): Option<Server> {
    match WriteEntry(rt, slot)
    case None => None
    case Some(e) => Some(e.primary)
  }

  /** The slot an entry was kept with still leads to its primary, whichever slot that was. */
  lemma KeptSlotReachesPrimary(rt: Routing, slot: nat)
    requires WriteEntry(rt, slot).Some?
    ensures var e := WriteEntry(rt, slot).value;
            Reached(rt, if e.slot.Some? then e.slot.value else 0) == Some(e.primary)
  {}
}
