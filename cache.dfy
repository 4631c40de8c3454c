/** The key-value store with expiry behind CacheService (Redis): `get`, `set`,
    the atomic set-if-absent `setNx` used as a lock, and `del`. Time is an
    explicit parameter `now` in seconds; a key whose expiry is not in the
    future is treated as absent, as Redis does. */
module Cache {
  import opened Shared

  /** Audit metadata the idempotency guard stores under its lock key. */
  datatype AuditMeta = AuditMeta(timestamp: int, path: Option<string>, httpMethod: Option<string>, ip: Option<string>)

  /** A stored value: a plain string, or an object (kept as a value; its JSON
      text is never empty). */
  datatype Value = Text(text: string) | Audit(meta: AuditMeta)

  datatype Entry = Entry(value: Value, expiresAt: int)

  /** The key is held: present and not yet expired at `now`. */
  predicate Live(entries: map<string, Entry>, key: string, now: int)
  {
    key in entries && now < entries[key].expiresAt
  }

  /** `SET key value EX ttl NX` as a value: whether this call created the key,
      and the store afterwards. */
  function Acquire(entries: map<string, Entry>, key: string, value: Value, ttl: int, now: int)
    : (r: (bool, map<string, Entry>))
    requires ttl > 0
    ensures r.0 <==> !Live(entries, key, now)
    ensures Live(r.1, key, now)
    ensures r.0 ==> r.1[key] == Entry(value, now + ttl)
    ensures !r.0 ==> r.1 == entries
    ensures forall k :: k != key ==> (k in r.1 <==> k in entries) && (k in entries ==> r.1[k] == entries[k])
  {
    if Live(entries, key, now) then (false, entries)
    else (true, entries[key := Entry(value, now + ttl)])
  }

  /** Two acquisitions of one key, the second inside the expiry window the
      first would set: at most one of them succeeds, and when the key was free
      the first one does and the second leaves the store as it found it. */
  lemma AcquireExclusive(entries: map<string, Entry>, key: string, v1: Value, v2: Value,
                         ttl1: int, ttl2: int, t1: int, t2: int)
    requires ttl1 > 0 && ttl2 > 0 && t1 <= t2 < t1 + ttl1
    ensures var first := Acquire(entries, key, v1, ttl1, t1);
            var second := Acquire(first.1, key, v2, ttl2, t2);
            !(first.0 && second.0) &&
            (!Live(entries, key, t1) ==> first.0 && !second.0 && second.1 == first.1)
  {
  }

  /** After `del(k)` the key is free, so the next set-if-absent acquires it. */
  lemma DeleteFreesKey(entries: map<string, Entry>, key: string, value: Value, ttl: int, now: int)
    requires ttl > 0
    ensures Acquire(entries - {key}, key, value, ttl, now).0
  {
  }

  class CacheService {
    /** The Redis keyspace, expired keys included until overwritten or deleted. */
    var entries: map<string, Entry>
    /** Whether Redis answers; when it does not, every command is rejected. */
    var reachable: bool

    constructor (entries: map<string, Entry>, reachable: bool)
      ensures this.entries == entries && this.reachable == reachable
    {
      this.entries := entries;
      this.reachable := reachable;
    }

    /** GET: the stored value, or None when the key is absent, expired, or
        holds the empty string (which the `!value` test treats as missing). */
    method Get(key: string, now: int) returns (r: Result<Option<Value>>)
      ensures !reachable ==> r == Err(StoreFailure)
      ensures reachable && !Live(entries, key, now) ==> r == Ok(None)
      ensures reachable && Live(entries, key, now) ==>
                r == (if entries[key].value == Text("") then Ok(None) else Ok(Some(entries[key].value)))
    {
      if !reachable {
        return Err(StoreFailure);
      }
      if !Live(entries, key, now) {
        return Ok(None);
      }
      var stored := entries[key].value;
      if stored == Text("") {
        return Ok(None);
      }
      r := Ok(Some(stored));
    }

    /** SET key value EX ttl: overwrites unconditionally with a fresh expiry.
        Redis refuses a non-positive expiry. */
    method Set(key: string, value: Value, ttlSeconds: int, now: int) returns (r: Result<()>)
      modifies this
      ensures reachable == old(reachable)
      ensures r.Ok? <==> old(reachable) && ttlSeconds > 0
      ensures r.Ok? ==> entries == old(entries)[key := Entry(value, now + ttlSeconds)]
      ensures r.Err? ==> r.error == StoreFailure && entries == old(entries)
    {
      if !reachable || ttlSeconds <= 0 {
        return Err(StoreFailure);
      }
      entries := entries[key := Entry(value, now + ttlSeconds)];
      r := Ok(());
    }

    /** SET key value EX ttl NX, the atomic lock. A store error is rethrown,
        never turned into true or false. */
    method SetNx(key: string, value: Value, ttlSeconds: int, now: int) returns (r: Result<bool>)
      modifies this
      ensures reachable == old(reachable)
      ensures r.Err? <==> !old(reachable) || ttlSeconds <= 0
      ensures r.Err? ==> r.error == StoreFailure && entries == old(entries)
      ensures r.Ok? ==> (r.value, entries) == Acquire(old(entries), key, value, ttlSeconds, now)
      ensures r.Ok? ==> (r.value <==> !Live(old(entries), key, now))
      ensures r == Ok(false) ==> entries == old(entries)
    {
      if !reachable || ttlSeconds <= 0 {
        return Err(StoreFailure);
      }
      if Live(entries, key, now) {
        return Ok(false);
      }
      entries := entries[key := Entry(value, now + ttlSeconds)];
      r := Ok(true);
    }

    /** DEL key: the key is absent afterwards. */
    method Del(key: string) returns (r: Result<()>)
      modifies this
      ensures reachable == old(reachable)
      ensures r.Ok? <==> old(reachable)
      ensures r.Ok? ==> entries == old(entries) - {key} && key !in entries
      ensures r.Err? ==> r.error == StoreFailure && entries == old(entries)
    {
      if !reachable {
        return Err(StoreFailure);
      }
      entries := entries - {key};
      r := Ok(());
    }
  }
}
