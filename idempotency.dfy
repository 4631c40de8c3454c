/** IdempotencyGuard: turns a client-supplied key into a request-level
    duplicate filter on top of the cache's atomic set-if-absent. The lock is
    never released on success; it expires after the TTL, so the key defines a
    replay window. */
module Idempotency {
  import opened Shared
  import opened Cache

  /** The parts of an HTTP request the guard reads. A header or body key that
      is missing is None; JavaScript treats the empty string as missing too. */
  datatype Request = Request(
    headerKey: Option<string>,   // headers['x-idempotency-key']
    bodyKey: Option<string>,     // body.idempotencyKey
    url: Option<string>,
    httpMethod: Option<string>,
    ip: Option<string>)

  const LockPrefix: string := "IDEMPOTENCY:"
  const LockTtlSeconds: int := 60 * 60 * 24

  /** `header || body`: a usable header key wins, otherwise the body key; an
      empty key counts as no key. */
  function ClientKey(req: Request): (k: Option<string>)
    ensures k.Some? ==> k.value != ""
    ensures k.Some? ==> k == req.headerKey || k == req.bodyKey
    ensures req.headerKey.Some? && req.headerKey.value != "" ==> k == req.headerKey
    ensures k.None? <==> (req.headerKey.None? || req.headerKey == Some(""))
                         && (req.bodyKey.None? || req.bodyKey == Some(""))
  {
    if req.headerKey.Some? && req.headerKey.value != "" then req.headerKey
    else if req.bodyKey.Some? && req.bodyKey.value != "" then req.bodyKey
    else None
  }

  /** The cache key that holds a client key's lock. */
  function LockKey(key: string): (lk: string)
    ensures |lk| == |LockPrefix| + |key|
    ensures lk[..|LockPrefix|] == LockPrefix && lk[|LockPrefix|..] == key
  {
    LockPrefix + key
  }

  /** Distinct client keys never share a lock. */
  lemma LockKeyInjective(a: string, b: string)
    requires LockKey(a) == LockKey(b)
    ensures a == b
  {
    assert a == LockKey(a)[|LockPrefix|..];
  }

  /** The audit record stored under the lock: when, where from and what. */
  function AuditFor(req: Request, now: int): (m: AuditMeta)
    ensures m.path == req.url && m.httpMethod == req.httpMethod && m.ip == req.ip && m.timestamp == now
  {
    AuditMeta(now, req.url, req.httpMethod, req.ip)
  }

  /** The guard's decision against a reachable store, as a value: the verdict
      and the store afterwards. */
  function Admit(entries: map<string, Entry>, req: Request, now: int): (r: (Result<bool>, map<string, Entry>))
    ensures ClientKey(req).None? ==> r == (Ok(true), entries)
    ensures ClientKey(req).Some? ==>
              var lk := LockKey(ClientKey(req).value);
              (r.0 == Ok(true) <==> !Live(entries, lk, now)) &&
              (r.0 != Ok(true) ==> r.0 == Err(Conflict) && r.1 == entries) &&
              (r.0 == Ok(true) ==> r.1 == entries[lk := Entry(Audit(AuditFor(req, now)), now + LockTtlSeconds)])
  {
    match ClientKey(req)
    case None => (Ok(true), entries)
    case Some(key) =>
      var (acquired, after) := Acquire(entries, LockKey(key), Audit(AuditFor(req, now)), LockTtlSeconds, now);
      (if acquired then Ok(true) else Err(Conflict), after)
  }

  /** A request admitted with a key makes every later request carrying the
      same key a Conflict until the TTL has run out, whatever happens in
      between to other keys. */
  lemma ReplayWithinWindowIsConflict(entries: map<string, Entry>, first: Request, second: Request, t1: int, t2: int)
    requires ClientKey(first).Some? && ClientKey(second) == ClientKey(first)
    requires Admit(entries, first, t1).0 == Ok(true)
    requires t1 <= t2 < t1 + LockTtlSeconds
    ensures Admit(Admit(entries, first, t1).1, second, t2) == (Err(Conflict), Admit(entries, first, t1).1)
  {
  }

  /** Once the window has passed, the same key is admitted again. */
  lemma ReplayAfterWindowIsAdmitted(entries: map<string, Entry>, first: Request, second: Request, t1: int, t2: int)
    requires ClientKey(first).Some? && ClientKey(second) == ClientKey(first)
    requires Admit(entries, first, t1).0 == Ok(true)
    requires t2 >= t1 + LockTtlSeconds
    ensures Admit(Admit(entries, first, t1).1, second, t2).0 == Ok(true)
  {
  }

  class IdempotencyGuard {
    const cache: CacheService

    constructor (cache: CacheService)
      ensures this.cache == cache
    {
      this.cache := cache;
    }

    /** canActivate: no key lets the request through without touching the
        cache; otherwise the lock is taken for 24 hours (and never released),
        and a key already held is a Conflict. A store error propagates. */
    method CanActivate(req: Request, now: int) returns (r: Result<bool>)
      modifies cache
      ensures cache.reachable == old(cache.reachable)
      ensures ClientKey(req).None? ==> r == Ok(true) && cache.entries == old(cache.entries)
      ensures ClientKey(req).Some? && !old(cache.reachable) ==>
                r == Err(StoreFailure) && cache.entries == old(cache.entries)
      ensures ClientKey(req).Some? && old(cache.reachable) ==>
                (r, cache.entries) == Admit(old(cache.entries), req, now)
    {
      var key := ClientKey(req);
      if key.None? {
        return Ok(true);
      }
      var cacheKey := LockKey(key.value);
      var metadata := AuditFor(req, now);
      var acquired := cache.SetNx(cacheKey, Audit(metadata), LockTtlSeconds, now);
      if acquired.Err? {
        return Err(acquired.error);
      }
      if !acquired.value {
        return Err(Conflict);
      }
      r := Ok(true);
    }
  }
}
