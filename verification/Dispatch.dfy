/** Delivery of published messages and keyspace events to the registered pattern listeners. */
module Dispatch {
  import opened Glob
  import opened Options
  import opened PubSub
  import opened Topology

  /** One invocation of a user's callback. */
  datatype Call = Call(listener: Listener, pattern: string, channel: string, message: string)

  /** The channel and message a pattern sees; keyspace events look different to keyspace and keyevent patterns. */
  type View = string -> (string, string)

  function PlainView(channel: string, message: string): View {
    _ => (channel, message)
  }

  function KeyspaceChannel(db: string, key: string): string {
    "__keyspace@" + db + "__:" + key
  }

  function KeyeventChannel(db: string, operation: string): string {
    "__keyevent@" + db + "__:" + operation
  }

  function KeyspaceView(db: string, operation: string, key: string): View {
    pattern =>
      if "__keyevent" <= pattern then (KeyeventChannel(db, operation), key) else (KeyspaceChannel(db, key), operation)
  }

  /** The callbacks of one pattern's listeners, in order; a listener ignores patterns other than its own. */
  function CallsOf(ls: seq<Listener>, pattern: string, view: View): seq<Call> {
    if ls == [] then []
    else
      var rest := CallsOf(ls[1..], pattern, view);
      if ls[0].name == pattern then [Call(ls[0], pattern, view(pattern).0, view(pattern).1)] + rest else rest
  }

  /** What dispatching owes pattern `p`. */
  function Due(m: Listeners, view: View, p: string): seq<Call> {
    if p in m && Matches(p, view(p).0) then CallsOf(m[p], p, view) else []
  }

  /** The calls made under pattern `p`, in order. */
  function Under(calls: seq<Call>, p: string): seq<Call> {
    if calls == [] then []
    else if calls[0].pattern == p then [calls[0]] + Under(calls[1..], p)
    else Under(calls[1..], p)
  }

  lemma {:induction false} UnderConcat(a: seq<Call>, b: seq<Call>, p: string)
    ensures Under(a + b, p) == Under(a, p) + Under(b, p)
  {
    if a == [] {
      assert a + b == b;
    } else {
      assert (a + b)[1..] == a[1..] + b;
      UnderConcat(a[1..], b, p);
    }
  }

  lemma {:induction false} CallsOfUnder(ls: seq<Listener>, pattern: string, view: View, p: string)
    ensures var calls := CallsOf(ls, pattern, view);
            Under(calls, p) == if p == pattern then calls else []
  {
    if ls != [] {
      CallsOfUnder(ls[1..], pattern, view, p);
      if ls[0].name == pattern {
        var calls := CallsOf(ls, pattern, view);
        assert calls[1..] == CallsOf(ls[1..], pattern, view);
      }
    }
  }

  /**
    Goes through the listener map in any order. Each pattern that matches what it sees gets its listeners called
    once each, in the order they registered; no other call is made.
  */
  method DispatchMessage(m: Listeners, view: View) returns (calls: seq<Call>)
    ensures forall p :: Under(calls, p) == Due(m, view, p)
  {
    calls := [];
    var todo := m.Keys;
    while todo != {}
      invariant todo <= m.Keys
      invariant forall p :: Under(calls, p) == if p in todo then [] else Due(m, view, p)
      decreases |todo|
    {
      var pattern :| pattern in todo;
      todo := todo - {pattern};
      if Matches(pattern, view(pattern).0) {
        var more := CallsOf(m[pattern], pattern, view);
        forall p ensures Under(calls + more, p) == Under(calls, p) + if p == pattern then more else [] {
          UnderConcat(calls, more, p);
          CallsOfUnder(m[pattern], pattern, view, p);
        }
        calls := calls + more;
      }
    }
  }

  function Deliver(ls: seq<Listener>, pattern: string, view: View): (r: seq<Call>)
    ensures |r| == |ls|
    ensures forall i :: 0 <= i < |r| ==> r[i] == Call(ls[i], pattern, view(pattern).0, view(pattern).1)
  {
    seq(|ls|, i requires 0 <= i < |ls| => Call(ls[i], pattern, view(pattern).0, view(pattern).1))
  }

  /** When every listener is filed under its own pattern, the name filter drops nobody. */
  lemma {:induction false} FilterDropsNone(ls: seq<Listener>, pattern: string, view: View)
    requires forall l :: l in ls ==> l.name == pattern
    ensures CallsOf(ls, pattern, view) == Deliver(ls, pattern, view)
  {
    if ls != [] {
      assert ls[0] in ls;
      FilterDropsNone(ls[1..], pattern, view);
    }
  }

  // ---------- What the server sends ----------

  /** One message to the client: through which cluster node, for which of its patterns, on which channel. */
  datatype Message = Message(via: Option<Server>, pattern: string, channel: string)

  /** Where each ordinary pattern of a cluster's client is subscribed: on one node. */
  type Homes = string -> Server

  /** The patterns a cluster node has on record: its keyspace patterns, and the ordinary ones that live there. */
  function RecordAt(server: Subscriptions, home: Homes, n: Server): set<string>
    requires n in server.perNode
  {
    server.perNode[n] + set p | p in server.patterns && home(p) == n
  }

  /** The messages a channel's publication makes, one for each pattern on record, at each of the given nodes. */
  function MessagesOn(server: Subscriptions, cluster: bool, home: Homes, at: set<Server>, channel: string)
    : set<Message>
  {
    if cluster then
      set n, p | n in at && n in server.perNode && p in RecordAt(server, home, n) && Matches(p, channel) ::
        Message(Some(n), p, channel)
    else
      set p | p in server.patterns && Matches(p, channel) :: Message(None, p, channel)
  }

  /** The channels an event has, in its keyspace and its keyevent form. */
  function FormsOf(db: string, operation: string, key: string): set<string> {
    {KeyspaceChannel(db, key), KeyeventChannel(db, operation)}
  }

  /** An event stays on its node, which publishes it in the `forms` it is configured to, both or one of them. */
  function EventMessages(server: Subscriptions, cluster: bool, home: Homes, n: Server, forms: set<string>)
    : set<Message>
  {
    set message, form | form in forms && message in MessagesOn(server, cluster, home, {n}, form) :: message
  }

  /** The channels of keyspace events; what comes on them goes to keyspace listeners only, all else to the others. */
  ghost predicate IsNotification(channel: string) {
    || (exists db, key :: channel == KeyspaceChannel(db, key))
    || (exists db, operation :: channel == KeyeventChannel(db, operation))
  }

  function Times(n: nat, calls: seq<Call>): (r: seq<Call>)
    ensures |r| == n * |calls|
  {
    if n == 0 then [] else Times(n - 1, calls) + calls
  }

  /** Every message is dispatched to all patterns of the map, whichever pattern it was sent for. */
  method DispatchEach(m: Listeners, view: View, sent: set<Message>) returns (calls: seq<Call>)
    ensures forall p :: Under(calls, p) == Times(|sent|, Due(m, view, p))
  {
    calls := [];
    var todo := sent;
    var n := 0;
    while todo != {}
      invariant todo <= sent && n + |todo| == |sent|
      invariant forall p :: Under(calls, p) == Times(n, Due(m, view, p))
      decreases |todo|
    {
      var message :| message in todo;
      todo := todo - {message};
      var more := DispatchMessage(m, view);
      forall p ensures Under(calls + more, p) == Times(n + 1, Due(m, view, p)) {
        UnderConcat(calls, more, p);
      }
      calls := calls + more;
      n := n + 1;
    }
  }

  /** What `n` messages owe pattern `p`. */
  lemma TimesDue(m: Listeners, view: View, n: nat, p: string)
    requires p in m ==> forall l :: l in m[p] ==> l.name == p
    ensures Times(n, Due(m, view, p)) ==
              if p in m && Matches(p, view(p).0) then Times(n, Deliver(m[p], p, view)) else []
  {
    if p in m && Matches(p, view(p).0) {
      FilterDropsNone(m[p], p, view);
    } else {
      assert |Times(n, [])| == n * 0;
    }
  }

  lemma {:induction false} InUnder(calls: seq<Call>, c: Call)
    requires c in calls
    ensures c in Under(calls, c.pattern)
  {
    if calls[0] != c {
      InUnder(calls[1..], c);
    }
  }

  lemma {:induction false} InTimes(n: nat, calls: seq<Call>, c: Call)
    requires c in Times(n, calls)
    ensures c in calls
  {
    if c !in calls {
      InTimes(n - 1, calls, c);
    }
  }

  /** Every call made hands a listener of a matching pattern what that pattern sees, and nothing else. */
  lemma CallsAsSeen(m: Listeners, view: View, n: nat, calls: seq<Call>, c: Call)
    requires forall p, l :: p in m && l in m[p] ==> l.name == p
    requires forall p :: Under(calls, p) == Times(n, Due(m, view, p))
    requires c in calls
    ensures c.pattern in m && c.listener in m[c.pattern] && Matches(c.pattern, c.channel)
    ensures (c.channel, c.message) == view(c.pattern)
  {
    var p := c.pattern;
    InUnder(calls, c);
    assert c in Times(n, Due(m, view, p));
    InTimes(n, Due(m, view, p), c);
    if p in m {
      FilterDropsNone(m[p], p, view);
    }
    hide Matches;
  }

  // ---------- A publication ----------

  /**
    One publication on an ordinary channel reaches every listener of every matching ordinary pattern, and each of them
    once per message: once per matching pattern on record, of whatever kind, and per node that has it on record.
    Keyspace listeners hear nothing of it.
  */
  method Publish(
    tables: Tables, server: Subscriptions, cluster: bool, nodes: set<Server>, home: Homes, channel: string,
    message: string)
    returns (calls: seq<Call>)
    requires Named(tables) && !IsNotification(channel)
    ensures forall p :: Under(calls, p) ==
              if p in tables.patterns && Matches(p, channel)
              then Times(|MessagesOn(server, cluster, home, nodes, channel)|,
                         Deliver(tables.patterns[p], p, PlainView(channel, message)))
              else []
    ensures forall c :: c in calls ==>
              && c.channel == channel && c.message == message && Matches(c.pattern, channel)
              && c.pattern in tables.patterns && c.listener in tables.patterns[c.pattern]
  {
    var m, view := tables.Get(Patterns), PlainView(channel, message);
    var sent := MessagesOn(server, cluster, home, nodes, channel);
    calls := DispatchEach(m, view, sent);
    forall p ensures Times(|sent|, Due(m, view, p)) ==
                       if p in m && Matches(p, channel) then Times(|sent|, Deliver(m[p], p, view)) else []
    {
      TimesDue(m, view, |sent|, p);
    }
    forall c | c in calls ensures (c.channel, c.message) == view(c.pattern) && Matches(c.pattern, channel)
                                  && c.pattern in m && c.listener in m[c.pattern] {
      CallsAsSeen(m, view, |sent|, calls, c);
    }
  }

  /** `k` messages with one call each are one call exactly if there is one message. */
  lemma OnceIff(k: nat, calls: seq<Call>)
    requires calls != []
    ensures |Times(k, calls)| == |calls| <==> k == 1
  {
    var n := |calls|;
    if k > 1 { assert k * n >= 2 * n; }
  }

  /** A set has one element exactly if every element is the one at hand. */
  lemma OnlyOne<T>(s: set<T>, x: T)
    requires x in s
    ensures |s| == 1 <==> forall y :: y in s ==> y == x
  {
    assert s == {x} + (s - {x});
    if |s| == 1 {
      assert |s - {x}| == 0;
    }
    if forall y :: y in s ==> y == x {
      assert s == {x};
    }
  }

  /** The registry agrees with the server, and every ordinary pattern of a cluster's client is on one of its nodes. */
  ghost predicate OnServer(
    tables: Tables, server: Subscriptions, cluster: bool, nodes: set<Server>, home: Homes)
  {
    && Mirrors(tables, server, cluster, nodes) && Filed(tables)
    && (cluster ==> nodes != {} && forall p :: p in tables.patterns ==> home(p) in nodes)
  }

  lemma PublicationMessage(
    tables: Tables, server: Subscriptions, cluster: bool, nodes: set<Server>, home: Homes, channel: string, p: string)
    requires OnServer(tables, server, cluster, nodes, home) && Matches(p, channel)
    requires p in tables.patterns || p in tables.keyspace
    ensures exists via :: Message(via, p, channel) in MessagesOn(server, cluster, home, nodes, channel)
  {
    if !cluster {
      assert Message(None, p, channel) in MessagesOn(server, cluster, home, nodes, channel);
    } else {
      var n :| n in nodes && (p in tables.patterns ==> n == home(p));
      assert p in RecordAt(server, home, n);
      assert Message(Some(n), p, channel) in MessagesOn(server, cluster, home, nodes, channel);
    }
  }

  /** So a listener hears a publication once exactly if no other pattern matches, ordinary or keyspace. */
  lemma OnceIffNoOverlap(
    tables: Tables, server: Subscriptions, cluster: bool, nodes: set<Server>, home: Homes, channel: string, p: string,
    view: View)
    requires OnServer(tables, server, cluster, nodes, home)
    requires p in tables.patterns && Matches(p, channel)
    ensures tables.patterns[p] != []
    ensures |Times(|MessagesOn(server, cluster, home, nodes, channel)|, Deliver(tables.patterns[p], p, view))|
            == |tables.patterns[p]|
            <==> forall q :: (q in tables.patterns || q in tables.keyspace) && Matches(q, channel) ==> q == p
  {
    var sent := MessagesOn(server, cluster, home, nodes, channel);
    var mine := Message(if cluster then Some(home(p)) else None, p, channel);
    assert p in tables.Get(Patterns);
    OnceIff(|sent|, Deliver(tables.patterns[p], p, view));
    if cluster { assert p in RecordAt(server, home, home(p)); }
    assert mine in sent;
    OnlyOne(sent, mine);
    forall q | (q in tables.patterns || q in tables.keyspace) && Matches(q, channel)
      ensures exists via :: Message(via, q, channel) in sent
    {
      PublicationMessage(tables, server, cluster, nodes, home, channel, q);
    }
  }

  // ---------- A keyspace event ----------

  /** A keyspace pattern matches the form rebuilt for it exactly if it matches either form: it can match no other. */
  lemma OwnFormOnly(p: string, db: string, operation: string, key: string)
    requires IsKeyspace(p)
    ensures Matches(p, KeyspaceView(db, operation, key)(p).0) <==>
              Matches(p, KeyspaceChannel(db, key)) || Matches(p, KeyeventChannel(db, operation))
    ensures !(Matches(p, KeyspaceChannel(db, key)) && Matches(p, KeyeventChannel(db, operation)))
  {
    var space, event := KeyspaceChannel(db, key), KeyeventChannel(db, operation);
    assert space[5] == 's' && event[5] == 'e';
    assert "__keyspace"[5] == 's' && "__keyevent"[5] == 'e';
    if "__keyspace" <= p && Matches(p, event) {
      LiteralHeadMatches("__keyspace", p, event);
    }
    if "__keyevent" <= p && Matches(p, space) {
      LiteralHeadMatches("__keyevent", p, space);
    }
  }

  predicate MatchesEvent(p: string, db: string, operation: string, key: string) {
    Matches(p, KeyspaceChannel(db, key)) || Matches(p, KeyeventChannel(db, operation))
  }

  /**
    One event on a key reaches every listener of every keyspace pattern that matches either of its forms, published or
    not, and each of them once per message: each message the server sends, for an ordinary pattern as well, is turned
    back into the event, which is then dispatched to the keyspace patterns of both kinds. Ordinary listeners hear
    nothing of it.
  */
  method PublishEvent(
    tables: Tables, server: Subscriptions, cluster: bool, n: Server, home: Homes, db: string, operation: string,
    key: string, forms: set<string>)
    returns (calls: seq<Call>)
    requires Filed(tables) && Named(tables) && forms <= FormsOf(db, operation, key)
    ensures forall p :: Under(calls, p) ==
              if p in tables.keyspace && MatchesEvent(p, db, operation, key)
              then Times(|EventMessages(server, cluster, home, n, forms)|,
                         Deliver(tables.keyspace[p], p, KeyspaceView(db, operation, key)))
              else []
    ensures forall c :: c in calls ==>
              && c.pattern in tables.keyspace && c.listener in tables.keyspace[c.pattern]
              && Matches(c.pattern, c.channel)
              && (if "__keyevent" <= c.pattern
                  then c.channel == "__keyevent@" + db + "__:" + operation && c.message == key
                  else c.channel == "__keyspace@" + db + "__:" + key && c.message == operation)
  {
    var m, view := tables.Get(KeyspacePatterns), KeyspaceView(db, operation, key);
    var sent := EventMessages(server, cluster, home, n, forms);
    calls := DispatchEach(m, view, sent);
    hide IsKeyspace, Matches;
    forall p ensures Times(|sent|, Due(m, view, p)) ==
                       if p in m && MatchesEvent(p, db, operation, key)
                        then Times(|sent|, Deliver(m[p], p, view)) else []
    {
      if p in m { OwnFormOnly(p, db, operation, key); }
      TimesDue(m, view, |sent|, p);
    }
    forall c | c in calls ensures (c.channel, c.message) == view(c.pattern) && Matches(c.pattern, c.channel)
                                  && c.pattern in m && c.listener in m[c.pattern] {
      CallsAsSeen(m, view, |sent|, calls, c);
    }
  }

  /** The patterns the node of an event has on record. */
  predicate AtNode(tables: Tables, cluster: bool, home: Homes, n: Server, p: string) {
    p in tables.keyspace || (p in tables.patterns && (cluster ==> home(p) == n))
  }

  lemma MessageOnIff(
    tables: Tables, server: Subscriptions, cluster: bool, nodes: set<Server>, home: Homes, n: Server, channel: string,
    message: Message)
    requires OnServer(tables, server, cluster, nodes, home) && (cluster ==> n in nodes)
    ensures message in MessagesOn(server, cluster, home, {n}, channel) <==>
              && message.via == (if cluster then Some(n) else None) && message.channel == channel
              && AtNode(tables, cluster, home, n, message.pattern) && Matches(message.pattern, channel)
  {
    hide Matches, IsKeyspace;
  }

  lemma EventMessageIff(
    tables: Tables, server: Subscriptions, cluster: bool, nodes: set<Server>, home: Homes, n: Server,
    forms: set<string>, message: Message)
    requires OnServer(tables, server, cluster, nodes, home) && (cluster ==> n in nodes)
    ensures message in EventMessages(server, cluster, home, n, forms) <==>
              && message.via == (if cluster then Some(n) else None) && message.channel in forms
              && AtNode(tables, cluster, home, n, message.pattern) && Matches(message.pattern, message.channel)
  {
    forall form | form in forms { MessageOnIff(tables, server, cluster, nodes, home, n, form, message); }
    hide Matches, IsKeyspace, AtNode, OnServer, MessagesOn;
  }

  lemma AllEventMessages(
    tables: Tables, server: Subscriptions, cluster: bool, nodes: set<Server>, home: Homes, n: Server,
    forms: set<string>)
    requires OnServer(tables, server, cluster, nodes, home) && (cluster ==> n in nodes)
    ensures forall message :: message in EventMessages(server, cluster, home, n, forms) <==>
              && message.via == (if cluster then Some(n) else None) && message.channel in forms
              && AtNode(tables, cluster, home, n, message.pattern) && Matches(message.pattern, message.channel)
  {
    forall message
      ensures message in EventMessages(server, cluster, home, n, forms) <==>
                && message.via == (if cluster then Some(n) else None) && message.channel in forms
                && AtNode(tables, cluster, home, n, message.pattern) && Matches(message.pattern, message.channel)
    {
      EventMessageIff(tables, server, cluster, nodes, home, n, forms, message);
    }
  }

  /**
    So a listener hears an event once exactly if one pattern on record at the event's node, of either kind or an
    ordinary one, matches one published form, and nothing else does. A pattern that matches two forms counts twice.
  */
  lemma KeyspaceOnceIff(
    tables: Tables, server: Subscriptions, cluster: bool, nodes: set<Server>, home: Homes, n: Server, db: string,
    operation: string, key: string, forms: set<string>, p: string, view: View)
    requires OnServer(tables, server, cluster, nodes, home) && (cluster ==> n in nodes)
    requires forms <= FormsOf(db, operation, key)
    requires p in tables.keyspace && MatchesEvent(p, db, operation, key)
    ensures tables.keyspace[p] != []
    ensures |Times(|EventMessages(server, cluster, home, n, forms)|, Deliver(tables.keyspace[p], p, view))|
            == |tables.keyspace[p]|
            <==> exists q, form :: form in forms && AtNode(tables, cluster, home, n, q) && Matches(q, form)
                   && forall r, other ::
                        other in forms && AtNode(tables, cluster, home, n, r) && Matches(r, other) ==>
                          r == q && other == form
  {
    var sent := EventMessages(server, cluster, home, n, forms);
    assert p in tables.Get(KeyspacePatterns);
    OnceIff(|sent|, Deliver(tables.keyspace[p], p, view));
    AllEventMessages(tables, server, cluster, nodes, home, n, forms);
    hide EventMessages, Matches, OnServer, FormsOf, AtNode;
    OneMessageIff(sent, if cluster then Some(n) else None, forms, q => AtNode(tables, cluster, home, n, q));
  }

  /** One message means one pattern and one form. */
  lemma OneMessageIff(sent: set<Message>, via: Option<Server>, forms: set<string>, at: string -> bool)
    requires forall message :: message in sent <==>
               message.via == via && message.channel in forms && at(message.pattern)
               && Matches(message.pattern, message.channel)
    ensures |sent| == 1 <==>
              exists q, form :: form in forms && at(q) && Matches(q, form)
                && forall r, other :: other in forms && at(r) && Matches(r, other) ==> r == q && other == form
  {
    hide Matches;
    if |sent| == 1 {
      var message :| message in sent;
      OnlyOne(sent, message);
      forall r, other | other in forms && at(r) && Matches(r, other)
        ensures r == message.pattern && other == message.channel
      {
        assert Message(via, r, other) in sent;
      }
    }
    if q, form :| form in forms && at(q) && Matches(q, form)
                  && forall r, other :: other in forms && at(r) && Matches(r, other) ==> r == q && other == form {
      OnlyOne(sent, Message(via, q, form));
    }
  }

  /** With both forms published the pattern's own message is always there: no other pattern may match either form. */
  lemma KeyspaceOnceIffAlone(
    tables: Tables, server: Subscriptions, cluster: bool, nodes: set<Server>, home: Homes, n: Server, db: string,
    operation: string, key: string, p: string, view: View)
    requires OnServer(tables, server, cluster, nodes, home) && (cluster ==> n in nodes)
    requires p in tables.keyspace && MatchesEvent(p, db, operation, key)
    ensures tables.keyspace[p] != []
    ensures |Times(|EventMessages(server, cluster, home, n, FormsOf(db, operation, key))|,
                   Deliver(tables.keyspace[p], p, view))| == |tables.keyspace[p]|
            <==> forall q :: AtNode(tables, cluster, home, n, q) && MatchesEvent(q, db, operation, key) ==> q == p
  {
    var forms := FormsOf(db, operation, key);
    KeyspaceOnceIff(tables, server, cluster, nodes, home, n, db, operation, key, forms, p, view);
    OwnFormOnly(p, db, operation, key);
    var own := if Matches(p, KeyspaceChannel(db, key)) then KeyspaceChannel(db, key)
               else KeyeventChannel(db, operation);
    hide EventMessages, Matches, OnServer, IsKeyspace, KeyspaceChannel, KeyeventChannel, Times;
    assert own in forms && AtNode(tables, cluster, home, n, p) && Matches(p, own);
    assert forall q :: MatchesEvent(q, db, operation, key) <==> exists form :: form in forms && Matches(q, form);
  }
}
