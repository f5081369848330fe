/** The in-memory cache: a lazily expiring map, refined against the history of its writes. */
module Cache {
  import opened Options

  datatype Item = Item(value: string, expiresAt: int)

  /** One call, with the clock it read. */
  datatype Call =
    | Get(key: string, at: int)
    | Set(key: string, value: string, ttl: int, at: int)
    | Del(key: string, at: int)

  // What the code does

  function Lookup(storage: map<string, Item>, key: string, now: int): Option<string> {
    if key in storage && now <= storage[key].expiresAt then Some(storage[key].value) else None
  }

  /** `get` drops an entry that it finds expired. */
  function AfterGet(storage: map<string, Item>, key: string, now: int): map<string, Item> {
    if key in storage && now > storage[key].expiresAt then storage - {key} else storage
  }

  function Perform(storage: map<string, Item>, c: Call): map<string, Item> {
    match c
    case Get(key, at) => AfterGet(storage, key, at)
    case Set(key, value, ttl, at) => storage[key := Item(value, at + ttl * 1000)]
    case Del(key, _) => storage - {key}
  }

  function Replay(h: seq<Call>): map<string, Item> {
    if h == [] then map[] else Perform(Replay(h[..|h| - 1]), h[|h| - 1])
  }

  // What a cache means

  /** The last `set` or `del` of a key. */
  function LastWrite(h: seq<Call>, key: string): Option<Call> {
    if h == [] then None
    else
      var c := h[|h| - 1];
      if !c.Get? && c.key == key then Some(c) else LastWrite(h[..|h| - 1], key)
  }

  /** A value is there until its time to live, counted from its own `set`, is over. */
  function Answer(h: seq<Call>, key: string, t: int): Option<string> {
    match LastWrite(h, key)
    case Some(Set(_, value, ttl, at)) => if t <= at + 1000 * ttl then Some(value) else None
    case _ => None
  }

  ghost predicate Monotone(h: seq<Call>, now: int) {
    && (forall i, j :: 0 <= i < j < |h| ==> h[i].at <= h[j].at)
    && (forall i :: 0 <= i < |h| ==> h[i].at <= now)
  }

  /** The storage holds a key's last write, or that write can no longer be seen. */
  ghost predicate Agrees(storage: map<string, Item>, h: seq<Call>, key: string, now: int) {
    if key in storage then
      && LastWrite(h, key).Some? && LastWrite(h, key).value.Set?
      && var c := LastWrite(h, key).value; storage[key] == Item(c.value, c.at + 1000 * c.ttl)
    else
      forall t :: now <= t ==> Answer(h, key, t) == None
  }

  lemma {:induction false} ReplayAgrees(h: seq<Call>, key: string, now: int)
    requires Monotone(h, now)
    ensures Agrees(Replay(h), h, key, now)
  {
    if h != [] {
      var init, c := h[..|h| - 1], h[|h| - 1];
      ReplayAgrees(init, key, c.at);
      if key !in Replay(h) && (c.Get? || c.key != key) {
        forall t | now <= t
          ensures Answer(h, key, t) == None
        {
          assert key !in Replay(init) ==> Answer(init, key, t) == None;
        }
      }
    }
  }

  /** Refinement: the code answers exactly what the history says, at every later time. */
  lemma {:induction false} CacheRefinesHistory(h: seq<Call>, key: string, t: int)
    requires Monotone(h, t)
    ensures Lookup(Replay(h), key, t) == Answer(h, key, t)
  {
    ReplayAgrees(h, key, t);
    if key !in Replay(h) {
      assert Answer(h, key, t) == None;
    }
  }

  lemma {:induction false} GetsAreNotWrites(h1: seq<Call>, g: Call, h2: seq<Call>, key: string)
    requires g.Get?
    ensures LastWrite(h1 + [g] + h2, key) == LastWrite(h1 + h2, key)
  {
    if h2 == [] {
      assert (h1 + [g] + h2)[..|h1|] == h1 && h1 + h2 == h1;
    } else {
      var init := h2[..|h2| - 1];
      GetsAreNotWrites(h1, g, init, key);
      assert (h1 + [g] + h2)[..|h1 + [g] + h2| - 1] == h1 + [g] + init;
      assert (h1 + h2)[..|h1 + h2| - 1] == h1 + init;
    }
  }

  /** Nobody can tell whether an earlier `get` took place: its lazy deletion is not observable. */
  lemma LazyDeletionUnobservable(h1: seq<Call>, g: Call, h2: seq<Call>, key: string, t: int)
    requires g.Get? && Monotone(h1 + [g] + h2, t)
    ensures Lookup(Replay(h1 + [g] + h2), key, t) == Lookup(Replay(h1 + h2), key, t)
  {
    var with, without := h1 + [g] + h2, h1 + h2;
    forall i, j | 0 <= i < j < |without|
      ensures without[i].at <= without[j].at
    {
      var i', j' := if i < |h1| then i else i + 1, if j < |h1| then j else j + 1;
      assert without[i] == with[i'] && without[j] == with[j'];
    }
    forall i | 0 <= i < |without|
      ensures without[i].at <= t
    {
      assert without[i] == with[if i < |h1| then i else i + 1];
    }
    CacheRefinesHistory(with, key, t);
    CacheRefinesHistory(without, key, t);
    GetsAreNotWrites(h1, g, h2, key);
  }

  // Locks

  /** An expiry of 0 is falsy in the source and counts as no lock. */
  predicate Held(locks: map<string, int>, key: string, now: int) {
    key in locks && locks[key] != 0 && now < locks[key]
  }

  function AfterAcquire(locks: map<string, int>, key: string, ttl: int, now: int): map<string, int> {
    if Held(locks, key, now) then locks else locks[key := now + ttl * 1000]
  }

  class MemoryCache {
    var storage: map<string, Item>
    var locks: map<string, int>
    ghost var history: seq<Call>

    ghost predicate Valid()
      reads this
    {
      storage == Replay(history)
    }

    constructor ()
      ensures Valid() && history == [] && locks == map[]
    {
      storage, locks, history := map[], map[], [];
    }

    method Read(key: string, now: int) returns (value: Option<string>)
      requires Valid() && Monotone(history, now)
      modifies this`storage, this`history
      ensures Valid() && history == old(history) + [Get(key, now)]
      ensures value == Answer(old(history), key, now)
    {
      CacheRefinesHistory(history, key, now);
      history := history + [Get(key, now)];
      if key !in storage {
        return None;
      }
      var item := storage[key];
      if now > item.expiresAt {
        storage := storage - {key};
        return None;
      }
      return Some(item.value);
    }

    method Write(key: string, value: string, ttlSeconds: int, now: int)
      requires Valid()
      modifies this`storage, this`history
      ensures Valid() && history == old(history) + [Set(key, value, ttlSeconds, now)]
      ensures Lookup(storage, key, now) == if ttlSeconds >= 0 then Some(value) else None
    {
      var expiresAt := now + ttlSeconds * 1000;
      storage := storage[key := Item(value, expiresAt)];
      history := history + [Set(key, value, ttlSeconds, now)];
    }

    method Delete(key: string, now: int)
      requires Valid()
      modifies this`storage, this`history
      ensures Valid() && history == old(history) + [Del(key, now)]
      ensures key !in storage && forall k :: k != key ==> Lookup(storage, k, now) == old(Lookup(storage, k, now))
    {
      storage := storage - {key};
      history := history + [Del(key, now)];
    }

    method AcquireLock(lockKey: string, ttlSeconds: int, now: int) returns (acquired: bool)
      modifies this`locks
      ensures acquired == !old(Held(locks, lockKey, now))
      ensures locks == AfterAcquire(old(locks), lockKey, ttlSeconds, now)
    {
      if lockKey in locks && locks[lockKey] != 0 && now < locks[lockKey] {
        return false;
      }
      locks := locks[lockKey := now + ttlSeconds * 1000];
      return true;
    }

    method ReleaseLock(lockKey: string)
      modifies this`locks
      ensures locks == old(locks) - {lockKey}
    {
      locks := locks - {lockKey};
    }
  }
}
