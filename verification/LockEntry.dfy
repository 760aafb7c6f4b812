/** Renewal bookkeeping of one lock: which threads hold it, and whose name renews it. */
module LockRenewal {
  import opened Options

  // ---------- What the bookkeeping is for, told by the calls alone ----------

  datatype Call = Add(thread: string, name: string) | Remove(thread: string)

  /** A thread's current holding period: the call that began it, the name given then, and the holds left. */
  datatype Period = Period(start: nat, name: string, holds: nat)

  /** The periods open after `c`, the call numbered `i`; a removal without a hold does nothing. */
  function Step(open: map<string, Period>, c: Call, i: nat): map<string, Period> {
    var t := c.thread;
    match c
    case Add(_, name) =>
      if t in open then open[t := open[t].(holds := open[t].holds + 1)] else open[t := Period(i, name, 1)]
    case Remove(_) =>
      if t !in open then open
      else if open[t].holds <= 1 then open - {t}
      else open[t := open[t].(holds := open[t].holds - 1)]
  }

  /** Everything called so far, oldest call innermost. */
  datatype Calls = NoCalls | Then(before: Calls, last: Call) {
    function Count(): nat {
      if NoCalls? then 0 else before.Count() + 1
    }

    /** The first `n` calls. */
    function Prefix(n: nat): (p: Calls)
      ensures n <= Count() ==> p.Count() == n
    {
      if Count() <= n then this else before.Prefix(n)
    }

    function Open(): map<string, Period> {
      if NoCalls? then map[] else Step(before.Open(), last, before.Count())
    }

    /** How often `t` holds the lock, counted one call at a time. */
    function Holds(t: string): nat {
      if NoCalls? then 0
      else
        var holds := before.Holds(t);
        if last.thread != t then holds
        else if last.Add? then holds + 1
        else if holds == 0 then 0
        else holds - 1
    }
  }

  /** The open periods are the current holds, and each starts at the call that last raised its thread from zero. */
  lemma {:induction false} OpenIsHolds(h: Calls, t: string)
    ensures t in h.Open() <==> h.Holds(t) > 0
    ensures t in h.Open() ==>
              var p := h.Open()[t];
              && p.holds == h.Holds(t)
              && p.start < h.Count()
              && h.Prefix(p.start + 1) == Then(h.Prefix(p.start), Add(t, p.name))
              && h.Prefix(p.start).Holds(t) == 0
              && forall i :: p.start < i <= h.Count() ==> h.Prefix(i).Holds(t) > 0
  {
    if h.Then? {
      OpenIsHolds(h.before, t);
    }
  }

  /** The first name registered in the period of the holder whose period began earliest. */
  ghost predicate IsFirstName(h: Calls, r: Option<string>) {
    var open := h.Open();
    match r
    case None => open == map[]
    case Some(name) =>
      exists t :: t in open && open[t].name == name && forall u :: u in open ==> open[t].start <= open[u].start
  }

  // ---------- The queue without its stale duplicates ----------

  function Without(q: seq<string>, t: string): (r: seq<string>)
    ensures forall u :: u in r <==> u in q && u != t
  {
    if q == [] then []
    else
      if q[0] == t then Without(q[1..], t) else [q[0]] + Without(q[1..], t)
  }

  function FirstOccurrences(q: seq<string>): (r: seq<string>) {
    if q == [] then []
    else
      var prefix, t := q[..|q| - 1], q[|q| - 1];
      if t in prefix then FirstOccurrences(prefix) else FirstOccurrences(prefix) + [t]
  }

  lemma FirstOccurrencesSnoc(q: seq<string>, t: string)
    ensures FirstOccurrences(q + [t]) == if t in q then FirstOccurrences(q) else FirstOccurrences(q) + [t]
  {
    assert (q + [t])[..|q|] == q;
  }

  lemma MembersSnoc(q: seq<string>, first: seq<string>, t: string, u: string)
    requires (u in first <==> u in q) && (q != [] ==> first != [] && first[0] == q[0]) && (q == [] ==> first == [])
    ensures var longer := if t in q then first else first + [t];
            && (u in longer <==> u in q + [t])
            && longer != [] && longer[0] == (q + [t])[0]
  {}

  lemma {:induction false} FirstOccurrencesMembers(q: seq<string>, u: string)
    ensures u in FirstOccurrences(q) <==> u in q
    ensures q != [] ==> FirstOccurrences(q) != [] && FirstOccurrences(q)[0] == q[0]
    ensures q == [] ==> FirstOccurrences(q) == []
  {
    if q == [] {
    } else {
      hide FirstOccurrences;
      var prefix, t := q[..|q| - 1], q[|q| - 1];
      FirstOccurrencesMembers(prefix, u);
      FirstOccurrencesSnoc(prefix, t);
      MembersSnoc(prefix, FirstOccurrences(prefix), t, u);
      assert q == prefix + [t];
    }
  }

  lemma {:induction false} WithoutAppend(q: seq<string>, u: string, t: string)
    ensures Without(q + [u], t) == Without(q, t) + (if u == t then [] else [u])
  {
    if q != [] {
      assert (q + [u])[1..] == q[1..] + [u];
      WithoutAppend(q[1..], u, t);
    }
  }

  lemma {:induction false} WithoutCounts(q: seq<string>, t: string, u: string)
    requires u != t
    ensures multiset(Without(q, t))[u] == multiset(q)[u]
  {
    if q != [] {
      assert q == [q[0]] + q[1..];
      WithoutCounts(q[1..], t, u);
    }
  }

  /** Dropping a thread and dropping duplicates commute. */
  lemma {:induction false} WithoutFirstOccurrences(q: seq<string>, t: string)
    ensures FirstOccurrences(Without(q, t)) == Without(FirstOccurrences(q), t)
  {
    if q != [] {
      var prefix, u := q[..|q| - 1], q[|q| - 1];
      assert q == prefix + [u];
      WithoutFirstOccurrences(prefix, t);
      WithoutAppend(prefix, u, t);
      WithoutAppend(FirstOccurrences(prefix), u, t);
      var kept := Without(prefix, t);
      assert kept + [] == kept;
      assert (kept + [u])[..|kept|] == kept && (kept + [u])[|kept|] == u;
      if u != t {
        assert Without(q, t) == kept + [u];
        assert u in kept <==> u in prefix;
      }
    }
  }

  // ---------- The holders in order of their periods ----------

  ghost predicate Ascending(open: map<string, Period>, order: seq<string>) {
    && (forall t :: t in order ==> t in open)
    && (forall i, j :: 0 <= i < j < |order| ==> open[order[i]].start < open[order[j]].start)
  }

  /** `order` lists exactly the holding threads, by the start of their current period. */
  ghost predicate InOrder(open: map<string, Period>, order: seq<string>) {
    (forall t :: t in open ==> t in order) && Ascending(open, order)
  }

  lemma HeadFirst(open: map<string, Period>, order: seq<string>, u: string)
    requires Ascending(open, order) && order != [] && u in order[1..]
    ensures u in open && open[order[0]].start < open[u].start
  {
    var k :| 0 <= k < |order| - 1 && order[1..][k] == u;
    assert order[k + 1] == u;
  }

  lemma ConsAscending(open: map<string, Period>, t: string, rest: seq<string>)
    requires t in open && Ascending(open, rest)
    requires forall u :: u in rest ==> open[t].start < open[u].start
    ensures Ascending(open, [t] + rest)
  {
    forall i, j | 0 <= i < j < |rest| + 1 ensures open[([t] + rest)[i]].start < open[([t] + rest)[j]].start {
      assert ([t] + rest)[j] == rest[j - 1] && rest[j - 1] in rest;
    }
  }

  lemma {:induction false} WithoutAscending(open: map<string, Period>, order: seq<string>, t: string)
    requires Ascending(open, order)
    ensures Ascending(open, Without(order, t))
  {
    if order != [] {
      var rest := order[1..];
      assert Ascending(open, rest);
      WithoutAscending(open, rest, t);
      if order[0] != t {
        forall u | u in rest { HeadFirst(open, order, u); }
        assert order[0] in order;
        hide Ascending;
        ConsAscending(open, order[0], Without(rest, t));
      }
    }
  }

  /** The order reads nothing but which periods are open and when they started. */
  lemma SameStarts(open: map<string, Period>, next: map<string, Period>, order: seq<string>)
    requires InOrder(open, order) && next.Keys == open.Keys
    requires forall u :: u in open ==> next[u].start == open[u].start
    ensures InOrder(next, order)
  {}

  lemma NewHolderLast(open: map<string, Period>, t: string, p: Period, order: seq<string>)
    requires InOrder(open, order) && t !in open
    requires forall u :: u in open ==> open[u].start < p.start
    ensures InOrder(open[t := p], order + [t])
  {
    var next, longer := open[t := p], order + [t];
    forall u | u in next ensures u in longer {
      if u == t { assert longer[|order|] == t; }
    }
    assert forall i :: 0 <= i < |order| ==> order[i] in open && order[i] != t;
  }

  lemma DepartedLeaves(open: map<string, Period>, t: string, order: seq<string>)
    requires InOrder(open, order)
    ensures InOrder(open - {t}, Without(order, t))
  {
    WithoutAscending(open, order, t);
    var r := Without(order, t);
    assert forall i :: 0 <= i < |r| ==> r[i] in r;
  }

  lemma AddInOrder(h: Calls, queue: seq<string>, t: string, name: string)
    requires InOrder(h.Open(), FirstOccurrences(queue))
    ensures Then(h, Add(t, name)).Open() == Step(h.Open(), Add(t, name), h.Count())
    ensures InOrder(Then(h, Add(t, name)).Open(), FirstOccurrences(queue + [t]))
  {
    hide FirstOccurrences;
    var open, order := h.Open(), FirstOccurrences(queue);
    FirstOccurrencesSnoc(queue, t);
    FirstOccurrencesMembers(queue, t);
    var next := Step(open, Add(t, name), h.Count());
    if t in open {
      assert t in order;
      SameStarts(open, next, order);
    } else {
      forall u | u in open ensures open[u].start < h.Count() { OpenIsHolds(h, u); }
      NewHolderLast(open, t, next[t], order);
    }
  }

  lemma RemoveInOrder(h: Calls, queue: seq<string>, t: string)
    requires InOrder(h.Open(), FirstOccurrences(queue))
    ensures Then(h, Remove(t)).Open() == Step(h.Open(), Remove(t), h.Count())
    ensures InOrder(Then(h, Remove(t)).Open(),
                    FirstOccurrences(if t in h.Open() && t !in Then(h, Remove(t)).Open() then Without(queue,
                      t) else queue))
  {
    var open, order := h.Open(), FirstOccurrences(queue);
    var next := Step(open, Remove(t), h.Count());
    if t in open && t !in next {
      WithoutFirstOccurrences(queue, t);
      DepartedLeaves(open, t, order);
    } else {
      SameStarts(open, next, order);
    }
  }

  // ---------- The entry itself ----------

  /** The maps count and name the open periods; duplicates in the queue may be stale, never missing. */
  ghost predicate Agree(
    open: map<string, Period>, lockName: map<string, string>, counter: map<string, nat>, occurrences: multiset<string>)
  {
    && lockName.Keys == counter.Keys == open.Keys
    && forall t :: t in open ==>
         counter[t] == open[t].holds && lockName[t] == open[t].name && 1 <= counter[t] <= occurrences[t]
  }

  lemma AgreeAdd(
    open: map<string, Period>, lockName: map<string, string>, counter: map<string, nat>, occurrences: multiset<string>,
    t: string, name: string, i: nat)
    requires Agree(open, lockName, counter, occurrences)
    ensures Agree(Step(open, Add(t, name), i),
                  if t in lockName then lockName else lockName[t := name],
                  counter[t := (if t in counter then counter[t] else 0) + 1], occurrences + multiset{t})
  {}

  lemma AgreeDepart(
    open: map<string, Period>, lockName: map<string, string>, counter: map<string, nat>, queue: seq<string>, t: string)
    requires Agree(open, lockName, counter, multiset(queue))
    ensures Agree(open - {t}, lockName - {t}, counter - {t}, multiset(Without(queue, t)))
  {
    forall u | u != t ensures multiset(Without(queue, t))[u] == multiset(queue)[u] {
      WithoutCounts(queue, t, u);
    }
    hide Without;
  }

  lemma AgreeRemove(
    open: map<string, Period>, lockName: map<string, string>, counter: map<string, nat>, queue: seq<string>,
    t: string, i: nat)
    requires Agree(open, lockName, counter, multiset(queue))
    ensures t in counter <==> t in open
    ensures t in counter ==> 1 <= counter[t] && t in lockName
    ensures var next := Step(open, Remove(t), i);
            if t !in counter then next == open
            else if counter[t] > 1 then t in next && Agree(next, lockName, counter[t := counter[t] - 1],
              multiset(queue))
            else t !in next && Agree(next, lockName - {t}, counter - {t}, multiset(Without(queue, t)))
  {
    AgreeDepart(open, lockName, counter, queue, t);
    hide Without;
  }

  class LockEntry {
    var lockName: map<string, string>
    var counter: map<string, nat>
    var queue: seq<string>
    ghost var calls: Calls

    ghost predicate Valid()
      reads this
    {
      && Agree(calls.Open(), lockName, counter, multiset(queue))
      && InOrder(calls.Open(), FirstOccurrences(queue))
    }

    constructor ()
      ensures Valid() && calls == NoCalls
    {
      lockName, counter, queue, calls := map[], map[], [], NoCalls;
    }

    method AddThreadId(thread: string, name: string)
      requires Valid()
      modifies this
      ensures Valid() && calls == Then(old(calls), Add(thread, name))
    {
      hide FirstOccurrences, InOrder, Agree, Step, Calls.Open;
      AgreeAdd(calls.Open(), lockName, counter, multiset(queue), thread, name, calls.Count());
      AddInOrder(calls, queue, thread, name);
      counter := counter[thread := (if thread in counter then counter[thread] else 0) + 1];
      queue := queue + [thread];
      if thread !in lockName {
        lockName := lockName[thread := name];
      }
      calls := Then(calls, Add(thread, name));
    }

    method RemoveThreadId(thread: string)
      requires Valid()
      modifies this
      ensures Valid() && calls == Then(old(calls), Remove(thread))
      ensures thread !in old(counter) ==>
                counter == old(counter) && queue == old(queue) && lockName == old(lockName)
    {
      hide FirstOccurrences, InOrder, Agree, Step, Calls.Open;
      RemoveInOrder(calls, queue, thread);
      ghost var open := calls.Open();
      ghost var i := calls.Count();
      AgreeRemove(open, lockName, counter, queue, thread, i);
      calls := Then(calls, Remove(thread));
      if thread !in counter {
        return;
      }
      var left := counter[thread] - 1;
      if left == 0 {
        counter := counter - {thread};
        lockName := lockName - {thread};
        queue := Without(queue, thread);
      } else {
        counter := counter[thread := left];
      }
    }

    method HasNoThreads() returns (none: bool)
      requires Valid()
      ensures none <==> forall t :: calls.Holds(t) == 0
    {
      none := queue == [];
      if none {
        forall t ensures calls.Holds(t) == 0 { OpenIsHolds(calls, t); }
      } else {
        FirstOccurrencesMembers(queue, queue[0]);
        OpenIsHolds(calls, queue[0]);
      }
    }

    method GetFirstLockName() returns (r: Option<string>)
      requires Valid()
      ensures IsFirstName(calls, r)
    {
      if queue == [] {
        return None;
      }
      var t := queue[0];
      FirstOccurrencesMembers(queue, t);
      ghost var open, order := calls.Open(), FirstOccurrences(queue);
      forall u | u in open ensures open[t].start <= open[u].start {
        var k :| 0 <= k < |order| && order[k] == u;
      }
      r := Some(lockName[t]);
    }
  }

  /** No two periods start at the same call, so the answer is determined by the calls. */
  lemma FirstNameUnique(h: Calls, r1: Option<string>, r2: Option<string>)
    requires IsFirstName(h, r1) && IsFirstName(h, r2)
    ensures r1 == r2
  {
    var open := h.Open();
    if r1.Some? && r2.Some? {
      var t1 :| t1 in open && open[t1].name == r1.value && forall u :: u in open ==> open[t1].start <= open[u].start;
      var t2 :| t2 in open && open[t2].name == r2.value && forall u :: u in open ==> open[t2].start <= open[u].start;
      OpenIsHolds(h, t1);
      OpenIsHolds(h, t2);
    }
  }
}
