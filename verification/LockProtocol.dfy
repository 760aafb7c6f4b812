/**
  The distributed lock's Lua scripts, as atomic steps over the keyspace of the lock's node.
  The Rust source of the lock is disabled (commented out) in this snapshot; the scripts in it are complete
  and are modelled as written.
*/
module LockProtocol {
  import opened HashTag

  // ---------- The Redis calls the scripts make ----------

  datatype Content = Hash(fields: map<string, int>) | Str(value: int)
  datatype Expiry = Never | At(time: int)
  datatype Entry = Entry(content: Content, expiry: Expiry)

  /** The latest deadline a key can have: a signed 64-bit number of milliseconds. */
  const LAST: int := 0x7FFF_FFFF_FFFF_FFFF

  /** A call that sets a key to expire in `ms` from `now` is accepted. */
  predicate Fits(now: int, ms: int) {
    ms <= LAST && now + ms <= LAST
  }

  /** A keyspace with its clock; a key is there until its expiry has passed. */
  datatype Keyspace = Keyspace(now: int, store: map<string, Entry>) {
    predicate Exists(key: string) {
      key in store && (store[key].expiry.At? ==> now <= store[key].expiry.time)
    }

    predicate HExists(key: string, field: string) {
      Exists(key) && store[key].content.Hash? && field in store[key].content.fields
    }

    function HGet(key: string, field: string): int {
      if HExists(key, field) then store[key].content.fields[field] else 0
    }

    /** HINCRBY creates the hash, without an expiry, when there is none. */
    function HIncrBy(key: string, field: string, delta: int): Keyspace {
      var fields := if Exists(key) && store[key].content.Hash? then store[key].content.fields else map[];
      var expiry := if Exists(key) then store[key].expiry else Never;
      this.(store := store[key := Entry(Hash(fields[field := HGet(key, field) + delta]), expiry)])
    }

    /** PEXPIRE with a time that is not positive deletes the key; it fails on a time that does not fit. */
    function PExpire(key: string, ms: int): Keyspace
      requires Fits(now, ms)
    {
      if !Exists(key) then this
      else if ms <= 0 then Del(key)
      else this.(store := store[key := store[key].(expiry := At(now + ms))])
    }

    function PTtl(key: string): int
      requires Exists(key)
    {
      if store[key].expiry.At? then store[key].expiry.time - now else -1
    }

    function Del(key: string): Keyspace {
      this.(store := store - {key})
    }

    /** SET with PX fails on a time that is not positive or does not fit. */
    function SetPx(key: string, value: int, ms: int): Keyspace
      requires ms > 0 && Fits(now, ms)
    {
      this.(store := store[key := Entry(Str(value), At(now + ms))])
    }
  }

  /** What a script returns: nil, an integer, or the error of a failing call inside it. */
  datatype Reply = Nil | Int(n: int) | Error

  // ---------- The lock, without keys and hashes ----------

  datatype Holder = Free | Held(owner: string, count: int, expiry: Expiry)
  datatype Latch = Latch(verdict: int, expiry: int)

  /** The lock, the verdicts remembered per unlock request, and the number of unlock messages published. */
  datatype Lock = Lock(now: int, holder: Holder, latches: map<string, Latch>, published: nat) {
    predicate HeldBy(owner: string) {
      holder.Held? && holder.owner == owner
    }

    ghost predicate Good() {
      && (holder.Held? ==> holder.count >= 1 && (holder.expiry.At? ==> now <= holder.expiry.time))
      && (forall r :: r in latches ==> now <= latches[r].expiry && latches[r].verdict in {0, 1})
    }
  }

  datatype Request =
    | Acquire(owner: string, lease: nat)
    | Unlock(owner: string, request: string, lease: nat, latchMs: int)
    | ForceUnlock
    | DeleteLatch(request: string)
    | Wait(ms: nat)

  /** The owner's count and its lease; one that does not fit leaves the expiry as it was, or the new key without one. */
  function Leased(l: Lock, owner: string, count: int, lease: nat): Holder {
    if !Fits(l.now, lease) then Held(owner, count, if l.holder.Held? then l.holder.expiry else Never)
    else if lease == 0 then Free
    else Held(owner, count, At(l.now + lease))
  }

  /** The unlock of the holder ends with a latch: nothing in it fails. */
  predicate LeavesLatch(l: Lock, lease: nat, latchMs: int)
    requires l.holder.Held?
  {
    latchMs > 0 && Fits(l.now, latchMs) && (l.holder.count <= 1 || Fits(l.now, lease))
  }

  /** One request, as one atomic step. */
  function Serve(l: Lock, q: Request): (Lock, Reply) {
    match q
    case Acquire(owner, lease) =>
      if l.holder.Held? && l.holder.owner != owner then
        (l, Int(if l.holder.expiry.At? then l.holder.expiry.time - l.now else -1))
      else
        (l.(holder := Leased(l, owner, if l.holder.Held? then l.holder.count + 1 else 1, lease)),
         if Fits(l.now, lease) then Nil else Error)
    case Unlock(owner, request, lease, latchMs) =>
      if request in l.latches then (l, Int(l.latches[request].verdict))
      else if !l.HeldBy(owner) then (l, Nil)
      else
        var full := l.holder.count <= 1;
        var l' := if full then l.(holder := Free, published := l.published + 1)
                  else l.(holder := Leased(l, owner, l.holder.count - 1, lease));
        var verdict := if full then 1 else 0;
        if !LeavesLatch(l, lease, latchMs) then (l', Error)
        else (l'.(latches := l.latches[request := Latch(verdict, l.now + latchMs)]), Int(verdict))
    case ForceUnlock =>
      if l.holder.Free? then (l, Int(0)) else (l.(holder := Free, published := l.published + 1), Int(1))
    case DeleteLatch(request) =>
      (l.(latches := l.latches - {request}), Int(if request in l.latches then 1 else 0))
    case Wait(ms) =>
      var now := l.now + ms;
      (Lock(now, if l.holder.Held? && l.holder.expiry.At? && l.holder.expiry.time < now then Free else l.holder,
            map r | r in l.latches && now <= l.latches[r].expiry :: l.latches[r], l.published), Nil)
  }

  // ---------- The scripts realize the steps ----------

  ghost predicate StoresHolder(db: Keyspace, name: string, holder: Holder) {
    && (db.Exists(name) <==> holder.Held?)
    && (holder.Held? ==> db.store[name] == Entry(Hash(map[holder.owner := holder.count]), holder.expiry))
  }

  ghost predicate StoresLatches(db: Keyspace, name: string, latches: map<string, Latch>) {
    && (forall r :: db.Exists(LatchName(name, r)) <==> r in latches)
    && (forall r :: r in latches ==>
          db.store[LatchName(name, r)] == Entry(Str(latches[r].verdict), At(latches[r].expiry)))
  }

  /** The keyspace of lock `name` holds exactly what the abstract lock says. */
  ghost predicate Stores(db: Keyspace, published: nat, name: string, l: Lock) {
    && l.Good() && db.now == l.now && published == l.published
    && StoresHolder(db, name, l.holder) && StoresLatches(db, name, l.latches)
  }

  ghost predicate SameBut(db: Keyspace, db': Keyspace, key: string) {
    && db.now == db'.now
    && forall k :: k != key ==> (k in db.store <==> k in db'.store) && (k in db.store ==> db.store[k] == db'.store[k])
  }

  /** Writing the lock key leaves the latches, and writing a latch leaves the lock and the other latches. */
  lemma WritesApart(db: Keyspace, db': Keyspace, name: string, l: Lock, request: string)
    requires StoresHolder(db, name, l.holder) && StoresLatches(db, name, l.latches)
    ensures SameBut(db, db', name) ==> StoresLatches(db', name, l.latches)
    ensures SameBut(db, db', LatchName(name, request)) ==> StoresHolder(db', name, l.holder)
  {
    forall r ensures LatchName(name, r) != name { LockKeysDistinct(name, r, r); }
  }

  lemma LatchSet(db: Keyspace, name: string, latches: map<string, Latch>, request: string, verdict: int, ms: int)
    requires StoresLatches(db, name, latches) && ms > 0 && Fits(db.now, ms)
    ensures StoresLatches(db.SetPx(LatchName(name, request), verdict, ms), name,
                          latches[request := Latch(verdict, db.now + ms)])
  {
    forall r ensures LatchName(name, r) == LatchName(name, request) ==> r == request {
      LockKeysDistinct(name, r, request);
    }
  }

  lemma LatchDeleted(db: Keyspace, name: string, latches: map<string, Latch>, request: string)
    requires StoresLatches(db, name, latches)
    ensures StoresLatches(db.Del(LatchName(name, request)), name, latches - {request})
  {
    forall r ensures LatchName(name, r) == LatchName(name, request) ==> r == request {
      LockKeysDistinct(name, r, request);
    }
  }

  /** HINCRBY, then PEXPIRE unless it fails, on the owner's field sets the lock to the leased count. */
  lemma Counted(db: Keyspace, name: string, l: Lock, owner: string, delta: int, lease: nat)
    requires StoresHolder(db, name, l.holder) && db.now == l.now
    requires l.holder.Held? ==> l.holder.owner == owner
    ensures var count := (if l.holder.Held? then l.holder.count else 0) + delta;
            var db' := db.HIncrBy(name, owner, delta);
            var leased := if Fits(db.now, lease) then db'.PExpire(name, lease) else db';
            && db'.HGet(name, owner) == count
            && StoresHolder(leased, name, Leased(l, owner, count, lease))
            && StoresHolder(db'.Del(name), name, Free)
            && SameBut(db, leased, name) && SameBut(db, db'.Del(name), name)
  {
    var count := (if l.holder.Held? then l.holder.count else 0) + delta;
    var db' := db.HIncrBy(name, owner, delta);
    assert db'.store[name].content == Hash(map[owner := count]);
  }

  /** What the unlock script has made of the lock key once it has counted down. */
  function Downed(counted: Keyspace, name: string, owner: string, lease: nat): Keyspace {
    if counted.HGet(name, owner) <= 0 then counted.Del(name)
    else if Fits(counted.now, lease) then counted.PExpire(name, lease)
    else counted
  }

  /** Counting down, then leasing or deleting, then remembering the verdict, is the unlock step of the holder. */
  lemma Released(db: Keyspace, published: nat, name: string, l: Lock, owner: string, request: string, lease: nat,
      ms: int)
    requires Stores(db, published, name, l) && l.HeldBy(owner) && request !in l.latches
    ensures var counted := db.HIncrBy(name, owner, -1);
            var full := counted.HGet(name, owner) <= 0;
            var released := Downed(counted, name, owner, lease);
            var (l', reply) := Serve(l, Unlock(owner, request, lease, ms));
            var latched := LeavesLatch(l, lease, ms);
            && counted.now == released.now == l.now && (full <==> l.holder.count <= 1)
            && Stores(if latched then released.SetPx(LatchName(name, request), if full then 1 else 0, ms) else released,
                      if full then published + 1 else published, name, l')
            && reply == if latched then Int(if full then 1 else 0) else Error
  {
    hide StoresLatches, Keyspace.HIncrBy, Keyspace.PExpire, Keyspace.Del, Keyspace.SetPx;
    Counted(db, name, l, owner, -1, lease);
    var counted := db.HIncrBy(name, owner, -1);
    var full := counted.HGet(name, owner) <= 0;
    var released := Downed(counted, name, owner, lease);
    CountedClock(db, name, owner);
    WritesApart(db, released, name, l, request);
    var l1 := Serve(l, Unlock(owner, request, lease, 0)).0;
    assert Stores(released, if full then published + 1 else published, name, l1);
    if LeavesLatch(l, lease, ms) {
      LatchSet(released, name, l.latches, request, if full then 1 else 0, ms);
      LatchWriteKeeps(released, name, l1, request, if full then 1 else 0, ms);
    }
  }

  lemma CountedClock(db: Keyspace, name: string, owner: string)
    ensures db.HIncrBy(name, owner, -1).now == db.now
  {}

  lemma LatchWriteKeeps(db: Keyspace, name: string, l: Lock, request: string, verdict: int, ms: int)
    requires StoresHolder(db, name, l.holder) && StoresLatches(db, name, l.latches) && ms > 0 && Fits(db.now, ms)
    ensures StoresHolder(db.SetPx(LatchName(name, request), verdict, ms), name, l.holder)
    ensures db.SetPx(LatchName(name, request), verdict, ms).now == db.now
  {
    WritesApart(db, db.SetPx(LatchName(name, request), verdict, ms), name, l, request);
  }

  class LockNode {
    const name: string
    var db: Keyspace
    var published: nat
    ghost var lock: Lock

    ghost predicate Valid()
      reads this
    {
      Stores(db, published, name, lock)
    }

    constructor (name: string)
      ensures Valid() && lock == Lock(0, Free, map[], 0) && this.name == name
    {
      this.name := name;
      db, published := Keyspace(0, map[]), 0;
      lock := Lock(0, Free, map[], 0);
    }

    method TryAcquire(owner: string, lease: nat) returns (reply: Reply)
      requires Valid()
      modifies this
      ensures Valid() && (lock, reply) == Serve(old(lock), Acquire(owner, lease))
      ensures reply == Nil && lease > 0 ==>
                db.Exists(name) && db.HExists(name, owner) && db.store[name].expiry == At(old(db).now + lease)
    {
      hide StoresLatches, Keyspace.HIncrBy, Keyspace.PExpire;
      if !db.Exists(name) || db.HExists(name, owner) {
        ghost var counted := db.HIncrBy(name, owner, 1);
        Counted(db, name, lock, owner, 1, lease);
        WritesApart(db, if Fits(db.now, lease) then counted.PExpire(name, lease) else counted, name, lock, "");
        lock := Serve(lock, Acquire(owner, lease)).0;
        db := db.HIncrBy(name, owner, 1);
        if !Fits(db.now, lease) {
          return Error;
        }
        db := db.PExpire(name, lease);
        return Nil;
      }
      reply := Int(db.PTtl(name));
    }

    method UnlockInner(owner: string, request: string, lease: nat, latchMs: int) returns (reply: Reply)
      requires Valid()
      modifies this
      ensures Valid() && (lock, reply) == Serve(old(lock), Unlock(owner, request, lease, latchMs))
    {
      var latch := LatchName(name, request);
      if db.Exists(latch) {
        return Int(db.store[latch].content.value);
      }
      if !db.HExists(name, owner) {
        return Nil;
      }
      hide StoresLatches, Keyspace.HIncrBy, Keyspace.PExpire, Keyspace.Del, Keyspace.SetPx, Serve;
      Released(db, published, name, lock, owner, request, lease, latchMs);
      lock := Serve(lock, Unlock(owner, request, lease, latchMs)).0;
      db := db.HIncrBy(name, owner, -1);
      var counter := db.HGet(name, owner);
      var verdict := 0;
      if counter > 0 {
        if !Fits(db.now, lease) {
          return Error;
        }
        db := db.PExpire(name, lease);
      } else {
        db := db.Del(name);
        published := published + 1;
        verdict := 1;
      }
      if latchMs <= 0 || !Fits(db.now, latchMs) {
        return Error;
      }
      db := db.SetPx(latch, verdict, latchMs);
      reply := Int(verdict);
    }

    method ForceUnlockInner() returns (reply: Reply)
      requires Valid()
      modifies this
      ensures Valid() && (lock, reply) == Serve(old(lock), ForceUnlock)
    {
      hide StoresLatches;
      if db.Exists(name) {
        WritesApart(db, db.Del(name), name, lock, "");
        db := db.Del(name);
        published := published + 1;
        lock := Serve(lock, ForceUnlock).0;
        return Int(1);
      }
      reply := Int(0);
    }

    method DelLatch(request: string) returns (reply: Reply)
      requires Valid()
      modifies this
      ensures Valid() && (lock, reply) == Serve(old(lock), DeleteLatch(request))
    {
      var latch := LatchName(name, request);
      reply := Int(if db.Exists(latch) then 1 else 0);
      LatchDeleted(db, name, lock.latches, request);
      WritesApart(db, db.Del(latch), name, lock, request);
      lock := Serve(lock, DeleteLatch(request)).0;
      db := db.Del(latch);
    }

    method Pass(ms: nat)
      requires Valid()
      modifies this
      ensures Valid() && lock == Serve(old(lock), Wait(ms)).0
    {
      lock := Serve(lock, Wait(ms)).0;
      db := db.(now := db.now + ms);
    }
  }

  // ---------- Whole runs: any requests of any clients, in any order ----------

  datatype Run = Start | Then(before: Run, request: Request)

  /** The lock after a run, beginning with an unheld one. */
  function After(run: Run): Lock {
    if run.Start? then Lock(0, Free, map[], 0) else Serve(After(run.before), run.request).0
  }

  function ReplyOf(run: Run): Reply
    requires run.Then?
  {
    Serve(After(run.before), run.request).1
  }

  /** The last request was an acquire that succeeded. */
  predicate Gained(run: Run)
    requires run.Then?
  {
    run.request.Acquire? && ReplyOf(run) == Nil
  }

  /** The last request was an acquire, not refused, of a lease that does not fit: it failed after it had counted. */
  predicate Overlong(run: Run)
    requires run.Then?
  {
    var l := After(run.before);
    run.request.Acquire? && (l.holder.Free? || l.HeldBy(run.request.owner)) && !Fits(l.now, run.request.lease)
  }

  /** The last request lowered the holder's count; a replayed unlock does not. */
  predicate Lost(run: Run)
    requires run.Then?
  {
    var l := After(run.before);
    run.request.Unlock? && l.HeldBy(run.request.owner) && run.request.request !in l.latches
  }

  /** Successful acquires, failed ones that counted, and effective unlocks since the lock key was last created. */
  function Gains(run: Run): nat {
    if run.Start? || After(run).holder.Free? then 0
    else Gains(run.before) + if Gained(run) then 1 else 0
  }

  function Faults(run: Run): nat {
    if run.Start? || After(run).holder.Free? then 0
    else Faults(run.before) + if Overlong(run) then 1 else 0
  }

  function Losses(run: Run): nat {
    if run.Start? || After(run).holder.Free? then 0
    else Losses(run.before) + if Lost(run) then 1 else 0
  }

  /** Since the lock key was last created only `owner` gained or lost holds. */
  predicate OnlyBy(run: Run, owner: string) {
    run.Start? || After(run).holder.Free? ||
    (OnlyBy(run.before, owner) && (Gained(run) || Overlong(run) || Lost(run) ==> run.request.owner == owner))
  }

  /** What one request does to the holder's count, and to a lock without an expiry. */
  lemma ServeCounts(l: Lock, q: Request)
    requires l.Good()
    ensures var (l', r) := Serve(l, q);
            var up := q.Acquire? && (l.holder.Free? || l.HeldBy(q.owner));
            var down := q.Unlock? && l.HeldBy(q.owner) && q.request !in l.latches;
            && l'.Good()
            && (q.Acquire? ==> (r == Nil <==> up && Fits(l.now, q.lease)))
            && (l'.holder.Held? ==>
                  && l'.holder.count >= 1
                  && l'.holder.count == (if l.holder.Held? then l.holder.count else 0)
                                        + (if up then 1 else 0) - (if down then 1 else 0)
                  && (up || (l.holder.Held? && l'.holder.owner == l.holder.owner))
                  && (up || down ==> q.owner == l'.holder.owner)
                  && (l'.holder.expiry.Never? ==>
                        (l.holder.Held? && l.holder.expiry.Never?) || (up && !Fits(l.now, q.lease))))
  {}

  /**
    In every reachable state the lock is free or has one owner, whose count is at least one and is the acquires, failed
    ones that counted included, less the unlocks since the key was created, all of them that owner's. A lock without an
    expiry had such a failed acquire.
  */
  lemma {:induction false} HoldsCounted(run: Run)
    ensures After(run).Good()
    ensures var l := After(run);
            if l.holder.Free? then Gains(run) == Faults(run) == Losses(run) == 0
            else
              && l.holder.count >= 1 && l.holder.count == Gains(run) + Faults(run) - Losses(run)
              && OnlyBy(run, l.holder.owner)
              && (l.holder.expiry.Never? ==> Faults(run) > 0)
  {
    if run.Then? {
      HoldsCounted(run.before);
      ServeCounts(After(run.before), run.request);
      hide Serve, Lock.Good;
    }
  }

  /** Throughout the run the holder's count is its successful acquires less its unlocks. */
  predicate AlwaysConserved(run: Run) {
    && (After(run).holder.Held? ==> After(run).holder.count == Gains(run) - Losses(run))
    && (run.Then? ==> AlwaysConserved(run.before))
  }

  predicate NoneOverlong(run: Run) {
    run.Then? ==> !Overlong(run) && NoneOverlong(run.before)
  }

  /** Holds are conserved throughout exactly as long as no acquire counts with a lease beyond the last deadline. */
  lemma {:induction false} HoldsConservedIff(run: Run)
    ensures AlwaysConserved(run) <==> NoneOverlong(run)
    ensures NoneOverlong(run) ==> Faults(run) == 0 && !(After(run).holder.Held? && After(run).holder.expiry.Never?)
  {
    HoldsCounted(run);
    if run.Then? {
      HoldsConservedIff(run.before);
      hide Serve;
      if Overlong(run) {
        OverlongHolds(run);
      }
    }
  }

  lemma OverlongHolds(run: Run)
    requires run.Then? && Overlong(run)
    ensures After(run).holder.Held? && Faults(run) >= 1
  {}

  /** The longest lease the lock's interface takes: an error for its caller, and a lock that no waiting ever frees. */
  lemma OverlongLeaseSticks(l: Lock, owner: string, other: string, ms: nat)
    requires l.holder.Free? && l.now >= 0 && owner != other
    ensures var (l1, r) := Serve(l, Acquire(owner, 0xFFFF_FFFF_FFFF_FFFF));
            r == Error && l1.holder == Held(owner, 1, Never)
            && Serve(Serve(l1, Wait(ms)).0, Acquire(other, 1)).1 == Int(-1)
  {}

  /** `tail` requests after `run`. */
  function Extend(run: Run, tail: seq<Request>): Run
    decreases |tail|
  {
    if tail == [] then run else Extend(Then(run, tail[0]), tail[1..])
  }

  ghost predicate NeverFree(run: Run, tail: seq<Request>)
    decreases |tail|
  {
    After(run).holder.Held? && (tail != [] ==> NeverFree(Then(run, tail[0]), tail[1..]))
  }

  /** As long as the key is not deleted and does not expire, nobody but its owner acquires. */
  lemma {:induction false} MutualExclusion(run: Run, tail: seq<Request>, thief: string, lease: nat)
    requires NeverFree(run, tail)
    ensures After(Extend(run, tail)).holder.Held?
    ensures After(Extend(run, tail)).holder.owner == After(run).holder.owner
    ensures var reply := ReplyOf(Then(Extend(run, tail), Acquire(thief, lease)));
            && (reply.Int? <==> thief != After(run).holder.owner)
            && (reply == Nil <==> thief == After(run).holder.owner && Fits(After(Extend(run, tail)).now, lease))
    decreases |tail|
  {
    if tail != [] {
      MutualExclusion(Then(run, tail[0]), tail[1..], thief, lease);
    }
  }

  /** The time a refused acquire is told is exact: it is refused through that millisecond; -1 means for good. */
  lemma RefusedUntilTtl(l: Lock, owner: string, lease: nat, ms: nat)
    requires l.Good() && Serve(l, Acquire(owner, lease)).1.Int?
    ensures var ttl := Serve(l, Acquire(owner, lease)).1.n;
            && ttl >= -1 && (ttl == -1 <==> l.holder.expiry.Never?)
            && (Serve(Serve(l, Wait(ms)).0, Acquire(owner, lease)).1.Int? <==> ttl == -1 || ms <= ttl)
  {}

  // ---------- The lease ----------

  /** Only clocks, other clients, and latches: nothing in `tail` touches a hold of `owner`. */
  ghost predicate Elsewhere(tail: seq<Request>, owner: string) {
    forall q :: q in tail ==>
      !q.ForceUnlock? && (q.Acquire? || q.Unlock? ==> q.owner != owner)
  }

  /** A lock with an expiry is its owner's until then, whatever others do, and nobody's after that. */
  lemma {:induction false} HeldUntilExpiry(run: Run, tail: seq<Request>, owner: string)
    requires After(run).HeldBy(owner) && After(run).holder.expiry.At? && Elsewhere(tail, owner)
    requires After(Extend(run, tail)).now <= After(run).holder.expiry.time
    ensures After(Extend(run, tail)).holder == After(run).holder
    decreases |tail|
  {
    if tail != [] {
      assert tail[0] in tail;
      TimePasses(Then(run, tail[0]), tail[1..]);
      HeldUntilExpiry(Then(run, tail[0]), tail[1..], owner);
    }
  }

  /**
    The lock is `owner`'s to the end of the millisecond `lease` from now. Until then `other` is refused, whatever all
    but the owner ask in between, and told the time left; left alone, the lock is free right after.
  */
  ghost predicate LeasedFor(
    run: Run, owner: string, lease: nat, tail: seq<Request>, ms: nat, other: string, lease': nat)
  {
    var later, waited := Extend(run, tail), Then(run, Wait(ms));
    var left := After(run).now + lease - After(later).now;
    && After(run).HeldBy(owner)
    && (Elsewhere(tail, owner) && other != owner && left >= 0 ==>
          After(later).HeldBy(owner) && ReplyOf(Then(later, Acquire(other, lease'))) == Int(left))
    && (other != owner ==> (ReplyOf(Then(waited, Acquire(other, lease'))).Int? <==> ms <= lease))
    && (ms > lease ==> After(waited).holder.Free?)
  }

  lemma ExpiryIsLease(
    run: Run, owner: string, lease: nat, tail: seq<Request>, ms: nat, other: string, lease': nat)
    requires After(run).HeldBy(owner) && After(run).holder.expiry == At(After(run).now + lease)
    ensures LeasedFor(run, owner, lease, tail, ms, other, lease')
  {
    if Elsewhere(tail, owner) && After(Extend(run, tail)).now <= After(run).now + lease {
      HeldUntilExpiry(run, tail, owner);
    }
  }

  /** A successful acquire, of a free lock or by its holder again, gives its owner the lock for the lease asked for. */
  lemma AcquiredForLease(
    run: Run, owner: string, lease: nat, tail: seq<Request>, ms: nat, other: string, lease': nat)
    requires lease > 0 && ReplyOf(Then(run, Acquire(owner, lease))) == Nil
    ensures LeasedFor(Then(run, Acquire(owner, lease)), owner, lease, tail, ms, other, lease')
  {
    ExpiryIsLease(Then(run, Acquire(owner, lease)), owner, lease, tail, ms, other, lease');
  }

  /** So does an unlock that leaves its sender a hold, latched or not; a lease that does not fit changes no expiry. */
  lemma UnlockedForLease(
    run: Run, owner: string, request: string, lease: nat, latchMs: int, tail: seq<Request>, ms: nat, other: string,
    lease': nat)
    requires After(run).HeldBy(owner) && After(run).holder.count >= 2 && request !in After(run).latches && lease > 0
    ensures var next := Then(run, Unlock(owner, request, lease, latchMs));
            if Fits(After(run).now, lease) then LeasedFor(next, owner, lease, tail, ms, other, lease')
            else After(next).HeldBy(owner) && After(next).holder.expiry == After(run).holder.expiry
  {
    if Fits(After(run).now, lease) {
      ExpiryIsLease(Then(run, Unlock(owner, request, lease, latchMs)), owner, lease, tail, ms, other, lease');
    }
  }

  // ---------- What an unlock tells ----------

  /**
    The first delivery of an unlock answers nil exactly if its sender holds nothing, and then does nothing. Otherwise
    it takes one hold; 1 says that it was the last one, whose waiters are then told, and 0 that holds are left, unless
    its lease of zero has ended them all. An error leaves no verdict.
  */
  lemma UnlockTells(run: Run, owner: string, request: string, lease: nat, ms: int)
    requires request !in After(run).latches
    ensures var l, l', r := After(run), After(Then(run, Unlock(owner, request, lease, ms))),
                            ReplyOf(Then(run, Unlock(owner, request, lease, ms)));
            && (r == Nil <==> !l.HeldBy(owner)) && (r == Nil ==> l' == l)
            && (r != Nil && l.holder.count == 1 ==>
                  && l'.holder.Free? && l'.published == l.published + 1
                  && (r == Int(1) || (r == Error && !LeavesLatch(l, lease, ms))))
            && (r != Nil && l.holder.count > 1 ==>
                  && (if lease > 0 || !Fits(l.now, 0) then l'.HeldBy(owner) && l'.holder.count == l.holder.count - 1
                      else l'.holder.Free?)
                  && l'.published == l.published
                  && (r == Int(0) || (r == Error && !LeavesLatch(l, lease, ms))))
            && (r == Error ==> l'.latches == l.latches)
            && (r.Int? ==> l'.latches == l.latches[request := Latch(r.n, l.now + ms)])
  {
    HoldsCounted(run);
  }

  /** Waiters are told once for every release, by the last unlock or by force, and at no other time. */
  lemma ToldWhenReleased(run: Run)
    requires run.Then?
    ensures var l, q := After(run.before), run.request;
            var lastHold := q.Unlock? && l.HeldBy(q.owner) && l.holder.count == 1 && q.request !in l.latches;
            After(run).published
            == l.published + if lastHold || (q.ForceUnlock? && l.holder.Held?) then 1 else 0
  {
    HoldsCounted(run.before);
  }

  /** Forcing answers 1 exactly if the lock was held, and anybody can acquire it then; verdicts stay remembered. */
  lemma ForcedIsFree(run: Run, anyone: string, lease: nat)
    ensures var forced := Then(run, ForceUnlock);
            && ReplyOf(forced) == Int(if After(run).holder.Held? then 1 else 0)
            && After(forced).latches == After(run).latches && After(forced).now == After(run).now
            && (ReplyOf(Then(forced, Acquire(anyone, lease))) == Nil <==> Fits(After(run).now, lease))
            && (lease > 0 && Fits(After(run).now, lease) ==>
                  After(Then(forced, Acquire(anyone, lease))).holder.count == 1)
  {}

  /** A deleted latch no longer guards its request: a redelivery takes effect exactly if its sender holds the lock. */
  lemma DeletedLatchForgets(run: Run, request: string, owner: string, lease: nat, ms: int)
    ensures var deleted := Then(run, DeleteLatch(request));
            && ReplyOf(deleted) == Int(if request in After(run).latches then 1 else 0)
            && After(deleted).holder == After(run).holder && After(deleted).published == After(run).published
            && (forall r :: r != request ==>
                  && (r in After(deleted).latches <==> r in After(run).latches)
                  && (r in After(run).latches ==> After(deleted).latches[r] == After(run).latches[r]))
            && (After(Then(deleted, Unlock(owner, request, lease, ms))) != After(deleted)
                <==> After(run).HeldBy(owner))
  {
    HarmlessIff(After(Then(run, DeleteLatch(request))), owner, request, lease, ms);
  }

  // ---------- Redelivered unlocks ----------

  lemma {:induction false} TimePasses(run: Run, tail: seq<Request>)
    ensures After(Extend(run, tail)).now >= After(run).now
    decreases |tail|
  {
    if tail != [] {
      ClockNeverBack(After(run), tail[0]);
      hide Serve;
      TimePasses(Then(run, tail[0]), tail[1..]);
    }
  }

  lemma ClockNeverBack(l: Lock, q: Request)
    ensures Serve(l, q).0.now >= l.now
  {}

  lemma LatchKept(l: Lock, q: Request, request: string)
    requires request in l.latches && q != DeleteLatch(request)
    requires Serve(l, q).0.now <= l.latches[request].expiry
    ensures request in Serve(l, q).0.latches && Serve(l, q).0.latches[request] == l.latches[request]
  {}

  lemma {:induction false} LatchLasts(run: Run, tail: seq<Request>, request: string)
    requires request in After(run).latches
    requires DeleteLatch(request) !in tail
    requires After(Extend(run, tail)).now <= After(run).latches[request].expiry
    ensures request in After(Extend(run, tail)).latches
    ensures After(Extend(run, tail)).latches[request] == After(run).latches[request]
    decreases |tail|
  {
    hide Serve;
    if tail != [] {
      var next := Then(run, tail[0]);
      TimePasses(next, tail[1..]);
      assert tail[0] in tail;
      LatchKept(After(run), tail[0], request);
      LatchLasts(next, tail[1..], request);
    }
  }

  /**
    Once an unlock has answered 0 or 1, every redelivery of it gives the same answer and changes nothing,
    whatever other requests come between, until its latch expires or is deleted.
  */
  lemma UnlockIdempotent(run: Run, owner: string, request: string, lease: nat, ms: int, tail: seq<Request>,
      lease': nat, ms': int)
    requires ReplyOf(Then(run, Unlock(owner, request, lease, ms))).Int?
    requires DeleteLatch(request) !in tail
    requires var first := Then(run, Unlock(owner, request, lease, ms));
             After(Extend(first, tail)).now <= After(first).latches[request].expiry
    ensures var first := Then(run, Unlock(owner, request, lease, ms));
            var later := Extend(first, tail);
            Serve(After(later), Unlock(owner, request, lease', ms')) == (After(later), ReplyOf(first))
  {
    LatchLasts(Then(run, Unlock(owner, request, lease, ms)), tail, request);
  }

  /** A delivery is without effect exactly when its latch is live or its sender does not hold the lock. */
  lemma HarmlessIff(l: Lock, owner: string, request: string, lease: nat, ms: int)
    ensures Serve(l, Unlock(owner, request, lease, ms)).0 == l <==> request in l.latches || !l.HeldBy(owner)
  {
    if request !in l.latches && l.HeldBy(owner) {
      assert Serve(l, Unlock(owner, request, lease, ms)).0.holder != l.holder;
    }
  }

  ghost predicate OtherRequests(tail: seq<Request>, request: string) {
    forall q :: q in tail ==> q != DeleteLatch(request) && (q.Unlock? ==> q.request != request)
  }

  lemma LatchStep(l: Lock, q: Request, request: string)
    requires l.Good() && q != DeleteLatch(request) && (q.Unlock? ==> q.request != request)
    ensures var l' := Serve(l, q).0;
            && (request in l'.latches <==> request in l.latches && l'.now <= l.latches[request].expiry)
            && (request in l'.latches ==> l'.latches[request] == l.latches[request])
  {}

  /** Left to itself a latch lasts exactly until it expires, and none appears. */
  lemma {:induction false} LatchAtEnd(run: Run, tail: seq<Request>, request: string)
    requires OtherRequests(tail, request)
    ensures var l, l' := After(run), After(Extend(run, tail));
            && (request in l'.latches <==> request in l.latches && l'.now <= l.latches[request].expiry)
    decreases |tail|
  {
    HoldsCounted(run);
    if tail != [] {
      assert tail[0] in tail;
      LatchStep(After(run), tail[0], request);
      hide Serve, Lock.Good;
      LatchAtEnd(Then(run, tail[0]), tail[1..], request);
      TimePasses(Then(run, tail[0]), tail[1..]);
    }
  }

  /**
    A first delivery that took effect, anything but this request's deliveries and deletions after it, then its
    redelivery: that is without effect exactly if the first left a latch with time that has not run out, or its sender
    no longer holds the lock.
  */
  lemma RedeliveryHarmlessIff(
    run: Run, owner: string, request: string, lease: nat, ms: int, tail: seq<Request>, lease': nat, ms': int)
    requires After(run).HeldBy(owner) && request !in After(run).latches && OtherRequests(tail, request)
    ensures var later := After(Extend(Then(run, Unlock(owner, request, lease, ms)), tail));
            Serve(later, Unlock(owner, request, lease', ms')).0 == later
            <==> (LeavesLatch(After(run), lease, ms) && later.now <= After(run).now + ms) || !later.HeldBy(owner)
  {
    var first := Then(run, Unlock(owner, request, lease, ms));
    FirstLeavesLatchIff(After(run), owner, request, lease, ms);
    hide Serve, Lock.HeldBy;
    LatchAtEnd(first, tail, request);
    HarmlessIff(After(Extend(first, tail)), owner, request, lease', ms');
  }

  lemma FirstLeavesLatchIff(l: Lock, owner: string, request: string, lease: nat, ms: int)
    requires l.HeldBy(owner) && request !in l.latches
    ensures var l' := Serve(l, Unlock(owner, request, lease, ms)).0;
            && (request in l'.latches <==> LeavesLatch(l, lease, ms))
            && (request in l'.latches ==> l'.latches[request].expiry == l.now + ms)
  {}

  /** Redelivered at once, an unlock counts down again exactly if it got no latch and left its sender a hold. */
  lemma SecondDeliveryHarmlessIff(l: Lock, owner: string, request: string, lease: nat, ms: int)
    requires l.Good() && l.HeldBy(owner) && request !in l.latches
    ensures var l' := Serve(l, Unlock(owner, request, lease, ms)).0;
            Serve(l', Unlock(owner, request, lease, ms)).0 == l'
            <==> LeavesLatch(l, lease, ms) || l.holder.count <= 1 || (lease == 0 && Fits(l.now, 0))
  {
    HarmlessIff(Serve(l, Unlock(owner, request, lease, ms)).0, owner, request, lease, ms);
  }

  /** Without a latch two deliveries take two holds, and both report an error. */
  lemma NoLatchUnlocksTwice(l: Lock, owner: string, request: string, lease: nat, ms: int)
    requires l.HeldBy(owner) && l.holder.count >= 2 && lease > 0 && !LeavesLatch(l, lease, ms) && request !in l.latches
    requires l.holder.count == 2 ==> ms <= 0
    ensures var (l1, r1) := Serve(l, Unlock(owner, request, lease, ms));
            var (l2, r2) := Serve(l1, Unlock(owner, request, lease, ms));
            && r1 == r2 == Error
            && (l.holder.count == 2 ==> l2.holder.Free? && l2.published == l.published + 1)
            && (l.holder.count > 2 ==> l2.HeldBy(owner) && l2.holder.count == l.holder.count - 2)
  {}

  const U32: nat := 0x1_0000_0000
  const U64: nat := 0x1_0000_0000_0000_0000

  /** The latch time of an unlock: 64-bit milliseconds, at least 1, then cut to a signed 32-bit number. */
  function LatchTime(commandTimeout: nat, delay: nat, attempts: nat): int {
    var ms := (commandTimeout + delay) * attempts % U64;
    var low := (if ms < 1 then 1 else ms) % U32;
    if low < U32 / 2 then low else low - U32
  }

  /** An unlock gets a latch exactly if the configured times, cut to 64 then to 32 bits, are zero or stay positive. */
  lemma LatchTimePositive(commandTimeout: nat, delay: nat, attempts: nat)
    ensures var p := (commandTimeout + delay) * attempts % U64;
            LatchTime(commandTimeout, delay, attempts) > 0 <==> p == 0 || 0 < p % U32 < U32 / 2
  {}

  /**
    The latch time is the configured time, at least one millisecond, cut to a signed 32-bit number: the only one in its
    range that agrees with it modulo 2^32. So a time below 2^31 milliseconds is kept.
  */
  lemma LatchTimeIs(commandTimeout: nat, delay: nat, attempts: nat)
    ensures var product, t := (commandTimeout + delay) * attempts, LatchTime(commandTimeout, delay, attempts);
            var ms := if product % U64 == 0 then 1 else product % U64;
            && -0x8000_0000 <= t < 0x8000_0000 && (exists k: int :: ms == t + k * U32)
            && (0 < product < 0x8000_0000 ==> t == product)
  {
    var product, t := (commandTimeout + delay) * attempts, LatchTime(commandTimeout, delay, attempts);
    var ms := if product % U64 == 0 then 1 else product % U64;
    var k := (ms - t) / U32;
    assert ms == ms / U32 * U32 + ms % U32;
    assert ms == t + (if ms % U32 < U32 / 2 then ms / U32 else ms / U32 + 1) * U32;
  }

  /** A command timeout of 2^31 milliseconds, tried once, leaves no time for the latch; so does one of 2^32. */
  lemma LatchTimeCanFail()
    ensures LatchTime(0x8000_0000, 0, 1) == -0x8000_0000 && LatchTime(0x1_0000_0000, 0, 1) == 0
  {}
}
