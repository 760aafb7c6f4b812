/** The two script caches every client shares: script text to SHA-1, and node to SHA-1s loaded there. */
module ScriptCaches {
  import opened Topology

  type Sha = string

  // ---------- A least-recently-used cache, most recent entry first ----------

  const CAPACITY: nat := 500

  function Keys(entries: seq<(string, Sha)>): (r: seq<string>)
    ensures |r| == |entries| && forall i :: 0 <= i < |r| ==> r[i] == entries[i].0
  {
    seq(|entries|, i requires 0 <= i < |entries| => entries[i].0)
  }

  function Drop(entries: seq<(string, Sha)>, key: string): (r: seq<(string, Sha)>)
    ensures forall e :: e in r ==> e in entries
    ensures Keys(r) == Without(Keys(entries), key)
  {
    if entries == [] then []
    else
      assert Keys(entries)[1..] == Keys(entries[1..]);
      var rest := Drop(entries[1..], key);
      if entries[0].0 == key then rest else
        var r := [entries[0]] + rest;
        assert Keys(r) == [entries[0].0] + Keys(rest);
        r
  }

  /** A hit moves its entry to the front. */
  function LruGet(entries: seq<(string, Sha)>, key: string, i: nat): (seq<(string, Sha)>)
    requires i < |entries| && entries[i].0 == key
  {
    [entries[i]] + Drop(entries, key)
  }

  /** A new entry goes to the front and pushes the last one out of a full cache. */
  function LruPut(entries: seq<(string, Sha)>, key: string, sha: Sha): (r: seq<(string, Sha)>) {
    [(key, sha)] + if |entries| >= CAPACITY then entries[..CAPACITY - 1] else entries
  }

  // ---------- Recency, told by the calls alone ----------

  datatype Uses = NoUse | Then(before: Uses, script: string) {
    function Count(): nat {
      if NoUse? then 0 else before.Count() + 1
    }

    /** When `s` was last used, counted from 1; 0 if never. */
    function LastUse(s: string): (n: nat)
      ensures n <= Count()
    {
      if NoUse? then 0 else if script == s then Count() else before.LastUse(s)
    }

    /** The scripts used so far, most recently used first. */
    function Recent(): seq<string> {
      if NoUse? then [] else [script] + Without(before.Recent(), script)
    }
  }

  function Without(q: seq<string>, s: string): (r: seq<string>)
    ensures forall u :: u in r <==> u in q && u != s
    ensures |r| <= |q|
  {
    if q == [] then []
    else if q[0] == s then Without(q[1..], s)
    else [q[0]] + Without(q[1..], s)
  }

  lemma {:induction false} WithoutConcat(a: seq<string>, b: seq<string>, s: string)
    ensures Without(a + b, s) == Without(a, s) + Without(b, s)
  {
    if a == [] {
      assert a + b == b;
    } else {
      assert (a + b)[1..] == a[1..] + b;
      WithoutConcat(a[1..], b, s);
    }
  }

  lemma {:induction false} WithoutAbsent(q: seq<string>, s: string)
    requires s !in q
    ensures Without(q, s) == q
  {
    if q != [] {
      WithoutAbsent(q[1..], s);
    }
  }

  lemma {:induction false} WithoutOnce(a: seq<string>, s: string, b: seq<string>)
    requires s !in a && s !in b
    ensures Without(a + [s] + b, s) == a + b
  {
    var whole := a + [s] + b;
    if a == [] {
      assert whole[1..] == b;
      WithoutAbsent(b, s);
    } else {
      assert whole[1..] == a[1..] + [s] + b;
      WithoutOnce(a[1..], s, b);
    }
  }

  ghost predicate Descending(h: Uses, q: seq<string>) {
    forall i, j :: 0 <= i < j < |q| ==> h.LastUse(q[i]) > h.LastUse(q[j])
  }

  lemma {:induction false} WithoutDescending(h: Uses, q: seq<string>, s: string)
    requires Descending(h, q)
    ensures Descending(h, Without(q, s))
  {
    if q != [] {
      var rest := q[1..];
      assert Descending(h, rest);
      WithoutDescending(h, rest, s);
      var r := Without(rest, s);
      forall j | 0 <= j < |r| ensures h.LastUse(q[0]) > h.LastUse(r[j]) {
        assert r[j] in rest;
        var k :| 0 <= k < |rest| && rest[k] == r[j];
        assert q[k + 1] == r[j];
      }
    }
  }

  lemma LaterUseKeepsOrder(h: Uses, rest: seq<string>)
    requires h.Then? && h.script !in rest && Descending(h.before, rest)
    ensures Descending(h, [h.script] + rest)
  {
    forall i | 0 <= i < |rest| ensures h.LastUse(rest[i]) == h.before.LastUse(rest[i]) {
      assert rest[i] in rest;
    }
  }

  /** The recency list holds exactly the scripts used, by descending time of last use. */
  lemma {:induction false} RecentByLastUse(h: Uses)
    ensures forall s :: s in h.Recent() <==> h.LastUse(s) > 0
    ensures Descending(h, h.Recent())
  {
    if h.Then? {
      RecentByLastUse(h.before);
      var rest := Without(h.before.Recent(), h.script);
      WithoutDescending(h.before, h.before.Recent(), h.script);
      LaterUseKeepsOrder(h, rest);
    }
  }

  function Newest(q: seq<string>): seq<string> {
    if |q| > CAPACITY then q[..CAPACITY] else q
  }

  lemma Regroup<T>(a: seq<T>, b: seq<T>, c: seq<T>)
    ensures a + b + c == a + (b + c)
  {}

  lemma NewestOf(kept: seq<string>, tail: seq<string>)
    requires |kept| <= CAPACITY && (tail != [] ==> |kept| == CAPACITY)
    ensures Newest(kept + tail) == kept
  {}

  /** Using a script among the newest again moves it to their front. */
  lemma UseAmongNewest(a: seq<string>, s: string, b: seq<string>, tail: seq<string>)
    requires s !in a && s !in b && s !in tail
    requires tail != [] ==> |a| + 1 + |b| == CAPACITY
    requires |a| + 1 + |b| <= CAPACITY
    ensures Newest([s] + Without(a + [s] + b + tail, s)) == [s] + Without(a + [s] + b, s)
  {
    hide Without, Newest;
    WithoutOnce(a, s, b);
    WithoutOnce(a, s, b + tail);
    Regroup(a + [s], b, tail);
    Regroup(a, b, tail);
    Regroup([s], a + b, tail);
    NewestOf([s] + (a + b), tail);
  }

  /** Using any other script pushes the oldest of a full set out. */
  lemma UseOfAnother(n: seq<string>, s: string, tail: seq<string>)
    requires s !in n && |n| <= CAPACITY
    requires tail != [] ==> |n| == CAPACITY
    ensures Newest([s] + Without(n + tail, s)) == [s] + if |n| >= CAPACITY then n[..CAPACITY - 1] else n
  {
    WithoutConcat(n, tail, s);
    WithoutAbsent(n, s);
    assert [s] + Without(n + tail, s) == [s] + n + Without(tail, s);
  }

  predicate Distinct(q: seq<string>) {
    forall i, j :: 0 <= i < j < |q| ==> q[i] != q[j]
  }

  lemma NewestAfterUse(q: seq<string>, s: string)
    requires Distinct(q)
    ensures var n := Newest(q);
            Newest([s] + Without(q, s)) ==
              if s in n then [s] + Without(n, s)
              else [s] + if |n| >= CAPACITY then n[..CAPACITY - 1] else n
  {
    var n := Newest(q);
    var tail := q[|n|..];
    assert q == n + tail;
    if s in n {
      var k :| 0 <= k < |n| && n[k] == s;
      assert n == n[..k] + [s] + n[k + 1..];
      UseAmongNewest(n[..k], s, n[k + 1..], tail);
    } else {
      UseOfAnother(n, s, tail);
    }
  }

  /** The cache stays the newest scripts in order of use, each under its own hash. */
  ghost predicate Mirrors(entries: seq<(string, Sha)>, h: Uses, sha1: string -> Sha) {
    && Keys(entries) == Newest(h.Recent())
    && forall e :: e in entries ==> e.1 == sha1(e.0)
  }

  lemma RecentDistinct(h: Uses)
    ensures Distinct(h.Recent())
  {
    RecentByLastUse(h);
  }

  lemma GetKeys(entries: seq<(string, Sha)>, s: string, i: nat)
    requires i < |entries| && entries[i].0 == s
    ensures Keys(LruGet(entries, s, i)) == [s] + Without(Keys(entries), s)
    ensures forall e :: e in LruGet(entries, s, i) ==> e in entries
    ensures s in Keys(entries)
  {
    hide Without, Drop;
    assert entries[i] in entries && Keys(entries)[i] == s;
    var rest := Drop(entries, s);
    assert Keys([entries[i]] + rest) == [s] + Keys(rest);
  }

  lemma GetMirrors(entries: seq<(string, Sha)>, h: Uses, sha1: string -> Sha, s: string, i: nat)
    requires Mirrors(entries, h, sha1) && i < |entries| && entries[i].0 == s
    ensures Mirrors(LruGet(entries, s, i), Then(h, s), sha1) && entries[i].1 == sha1(s)
  {
    RecentDistinct(h);
    NewestAfterUse(h.Recent(), s);
    GetKeys(entries, s, i);
    assert entries[i] in entries;
    hide Newest, Distinct, Without, LruGet, Keys;
  }

  lemma PutKeys(entries: seq<(string, Sha)>, s: string, sha: Sha)
    ensures Keys(LruPut(entries, s, sha))
            == [s] + if |entries| >= CAPACITY then Keys(entries)[..CAPACITY - 1] else Keys(entries)
    ensures forall e :: e in LruPut(entries, s, sha) ==> e == (s, sha) || e in entries
  {}

  lemma PutMirrors(entries: seq<(string, Sha)>, h: Uses, sha1: string -> Sha, s: string)
    requires Mirrors(entries, h, sha1) && s !in Keys(entries)
    ensures Mirrors(LruPut(entries, s, sha1(s)), Then(h, s), sha1)
  {
    RecentDistinct(h);
    NewestAfterUse(h.Recent(), s);
    PutKeys(entries, s, sha1(s));
    assert |Keys(entries)| == |entries|;
    hide Newest, Distinct, Without, LruPut, Keys;
  }

  /** In a list by descending last use, what lies beyond a prefix was used before everything in the prefix. */
  lemma OlderBeyond(h: Uses, q: seq<string>, n: nat, s: string, k: string)
    requires Descending(h, q) && n <= |q| && s in q[n..] && k in q[..n]
    ensures h.LastUse(s) < h.LastUse(k)
  {
    hide Uses.LastUse;
    var i :| 0 <= i < |q| - n && q[n..][i] == s;
    var j :| 0 <= j < n && q[..n][j] == k;
    assert q[n + i] == s && q[j] == k;
  }

  lemma NewestSplits(q: seq<string>)
    ensures |Newest(q)| <= |q| && |Newest(q)| <= CAPACITY
    ensures Newest(q) == q[..|Newest(q)|]
    ensures |q| > |Newest(q)| ==> |Newest(q)| == CAPACITY
  {}

  /** What mirroring means: no script twice, at most 500, each under its own hash, and none that was never used. */
  lemma MirrorsMeansUsed(entries: seq<(string, Sha)>, h: Uses, sha1: string -> Sha)
    requires Mirrors(entries, h, sha1)
    ensures |entries| <= CAPACITY && Distinct(Keys(entries))
    ensures forall e :: e in entries ==> e.1 == sha1(e.0) && h.LastUse(e.0) > 0
  {
    RecentByLastUse(h);
    NewestSplits(h.Recent());
    hide Uses.LastUse, Uses.Recent;
    forall e | e in entries ensures h.LastUse(e.0) > 0 {
      var i :| 0 <= i < |entries| && entries[i] == e;
      assert Keys(entries)[i] == e.0 && h.Recent()[i] == e.0;
    }
    RecentDistinct(h);
  }

  /** And whatever was used but is not kept was used before everything kept, and had to make room for it. */
  lemma MirrorsMeansNewest(entries: seq<(string, Sha)>, h: Uses, sha1: string -> Sha, s: string, k: string)
    requires Mirrors(entries, h, sha1) && h.LastUse(s) > 0 && s !in Keys(entries) && k in Keys(entries)
    ensures |entries| == CAPACITY && h.LastUse(s) < h.LastUse(k)
  {
    RecentByLastUse(h);
    var q, n := h.Recent(), |Keys(entries)|;
    NewestSplits(q);
    hide Uses.LastUse, Uses.Recent, Newest, Descending;
    assert q == q[..n] + q[n..];
    OlderBeyond(h, q, n, s, k);
  }

  // ---------- The service manager ----------

  function Shas(sha1: string -> Sha, scripts: seq<string>): set<Sha> {
    set s | s in scripts :: sha1(s)
  }

  lemma ShasSnoc(sha1: string -> Sha, scripts: seq<string>, s: string)
    ensures Shas(sha1, scripts + [s]) == Shas(sha1, scripts) + {sha1(s)}
  {}

  class ServiceManager {
    const sha1: string -> Sha
    var shaCache: seq<(string, Sha)>
    var scriptShaCache: map<Server, set<Sha>>
    ghost var uses: Uses

    ghost predicate Valid()
      reads this
    {
      Mirrors(shaCache, uses, sha1)
    }

    constructor (sha1: string -> Sha)
      ensures Valid() && scriptShaCache == map[] && this.sha1 == sha1
    {
      this.sha1 := sha1;
      shaCache, scriptShaCache, uses := [], map[], NoUse;
    }

    /** Caching never changes the answer. */
    method CalcSha(script: string) returns (sha: Sha)
      requires Valid()
      modifies this`shaCache, this`uses
      ensures Valid() && uses == Then(old(uses), script)
      ensures sha == sha1(script)
    {
      var i := 0;
      while i < |shaCache| && shaCache[i].0 != script
        invariant i <= |shaCache| && script !in Keys(shaCache)[..i]
      {
        i := i + 1;
      }
      if i < |shaCache| {
        GetMirrors(shaCache, uses, sha1, script, i);
        sha := shaCache[i].1;
        shaCache := LruGet(shaCache, script, i);
      } else {
        assert Keys(shaCache)[..i] == Keys(shaCache);
        PutMirrors(shaCache, uses, sha1, script);
        sha := sha1(script);
        shaCache := LruPut(shaCache, script, sha);
      }
      uses := Then(uses, script);
    }

    method IsCached(server: Server, script: string) returns (cached: bool)
      requires Valid()
      modifies this`shaCache, this`uses
      ensures Valid() && uses == Then(old(uses), script)
      ensures cached <==> server in scriptShaCache && sha1(script) in scriptShaCache[server]
    {
      var sha := CalcSha(script);
      cached := server in scriptShaCache && sha in scriptShaCache[server];
    }

    method CacheScripts(server: Server, scripts: seq<string>)
      requires Valid()
      modifies this
      ensures Valid()
      ensures scriptShaCache == Commit(old(scriptShaCache), server, Shas(sha1, scripts))
      ensures scriptShaCache.Keys == old(scriptShaCache).Keys + {server}
      ensures forall s :: s in old(scriptShaCache) && s != server ==> scriptShaCache[s] == old(scriptShaCache)[s]
      ensures forall sha :: sha in scriptShaCache[server] <==>
                || (server in old(scriptShaCache) && sha in old(scriptShaCache)[server])
                || (exists i :: 0 <= i < |scripts| && sha == sha1(scripts[i]))
    {
      hide Mirrors;
      var shas: set<Sha> := {};
      var i := 0;
      while i < |scripts|
        invariant Valid() && i <= |scripts| && scriptShaCache == old(scriptShaCache)
        invariant shas == Shas(sha1, scripts[..i])
      {
        var sha := CalcSha(scripts[i]);
        shas := shas + {sha};
        ShasSnoc(sha1, scripts[..i], scripts[i]);
        assert scripts[..i + 1] == scripts[..i] + [scripts[i]];
        i := i + 1;
      }
      assert scripts[..i] == scripts;
      var known := if server in scriptShaCache then scriptShaCache[server] else {};
      scriptShaCache := scriptShaCache[server := known + shas];
    }

    /** Listener for cluster topology changes. */
    method ClearAllScriptCaches()
      requires Valid()
      modifies this`scriptShaCache
      ensures Valid() && scriptShaCache == map[]
    {
      scriptShaCache := map[];
    }

    /** Listener for the reconnection of one node. */
    method OnReconnect(server: Server)
      requires Valid()
      modifies this`scriptShaCache
      ensures Valid() && scriptShaCache == old(scriptShaCache) - {server}
    {
      scriptShaCache := scriptShaCache - {server};
    }
  }

  function Commit(cache: map<Server, set<Sha>>, server: Server, shas: set<Sha>): map<Server, set<Sha>> {
    cache[server := (if server in cache then cache[server] else {}) + shas]
  }
}
