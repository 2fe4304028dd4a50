/**
 * The cache-aside percentage lookup: read the cached percentage; on a true miss
 * ask the external provider, write its value back with a time-to-live, and use
 * it. A failed or unparsable cache read, an empty provider answer and a failed
 * cache write all end in PercentageUnavailable.
 */
module Gateway {
  import opened Wrappers
  import opened Errors

  /** The one key the percentage is cached under. */
  const CacheKey := "external_percentage"
  /** The time-to-live of a written entry, in seconds. */
  const CacheTtlSeconds: nat := 1800
  /** The value the stub external service always returns. */
  const StubPercentage: real := 10.0

  const ReadFailedPrefix := "Failed to retrieve cached percentage: "
  const WriteFailedPrefix := "Failed to cache percentage value: "
  const NoPercentageMessage := "Percentage service failed and no cache available."

  /**
   * The string stored under the key, seen through Double.parseDouble: a number,
   * or text it rejects, carried as the message of the exception it raises.
   */
  datatype CachedValue = Number(percentage: real) | Unparsable(parseError: string)

  /** A cache entry and the time-to-live it was written with. */
  datatype CacheEntry = CacheEntry(value: CachedValue, ttlSeconds: nat)

  type Cache = map<string, CacheEntry>

  /** Whether the cache server answers a read, or the read throws with a message. */
  datatype CacheRead = Reachable | ReadFailure(message: string)

  /** Whether a write succeeds, or throws with a message. */
  datatype CacheWrite = Stored | WriteFailure(message: string)

  /** A call on a collaborator: a cache read, the external service, a cache write with expiry. */
  datatype Call = Get(key: string) | ExternalCall | Setex(key: string, seconds: nat, value: real)

  /** What the stub external service yields: always a value, never nothing. */
  const StubProvider: Option<real> := Some(StubPercentage)

  /** The entry a successful write leaves in the cache. */
  function Written(cache: Cache, value: real): Cache {
    cache[CacheKey := CacheEntry(Number(value), CacheTtlSeconds)]
  }

  /**
   * getCachedPercentage: the cached number on a hit, nothing on a true miss, and
   * PercentageUnavailable when the read throws or the stored text does not parse.
   */
  function CachedPercentage(cache: Cache, read: CacheRead): (r: Result<Option<real>, ServiceException>)
    ensures r == Success(None) <==> read.Reachable? && CacheKey !in cache
    ensures (r.Success? && r.value.Some?) <==> read.Reachable? && CacheKey in cache && cache[CacheKey].value.Number?
    ensures r.Success? && r.value.Some? ==> r.value.value == cache[CacheKey].value.percentage
    ensures r.Failure? ==> r.error.PercentageUnavailable?
    ensures read.ReadFailure? ==> r == Failure(PercentageUnavailable(ReadFailedPrefix + read.message))
    ensures read.Reachable? && CacheKey in cache && cache[CacheKey].value.Unparsable? ==>
              r == Failure(PercentageUnavailable(ReadFailedPrefix + cache[CacheKey].value.parseError))
  {
    match read
    case ReadFailure(m) => Failure(PercentageUnavailable(ReadFailedPrefix + m))
    case Reachable =>
      if CacheKey !in cache then Success(None)
      else
        match cache[CacheKey].value
        case Number(p) => Success(Some(p))
        case Unparsable(m) => Failure(PercentageUnavailable(ReadFailedPrefix + m))
  }

  /** The cache after a write attempt, and whether the attempt threw. */
  datatype WriteBack = WriteBack(cache: Cache, outcome: Outcome<ServiceException>)

  /**
   * cachePercentage: the value under the key with a 1800-second expiry; a failed
   * write leaves the cache as it was and becomes PercentageUnavailable.
   */
  function CachePercentage(cache: Cache, value: real, write: CacheWrite): (r: WriteBack)
    ensures write.Stored? ==> r == WriteBack(Written(cache, value), Pass)
    ensures write.WriteFailure? ==> r == WriteBack(cache, Fail(PercentageUnavailable(WriteFailedPrefix + write.message)))
  {
    match write
    case Stored => WriteBack(Written(cache, value), Pass)
    case WriteFailure(m) => WriteBack(cache, Fail(PercentageUnavailable(WriteFailedPrefix + m)))
  }

  /** The percentage or the failure, the cache afterwards, and the calls made in order. */
  datatype Resolution = Resolution(percentage: Result<real, ServiceException>, cache: Cache, calls: seq<Call>)

  /**
   * The lookup of calculateWithPercentage: the cached value if there is one;
   * otherwise the provider's value, written back before it is used.
   */
  function Resolve(cache: Cache, read: CacheRead, provider: Option<real>, write: CacheWrite): (r: Resolution)
    // one read first, then at most one external call, then at most one write: no retries
    ensures 1 <= |r.calls| <= 3 && r.calls[0] == Get(CacheKey)
    ensures |r.calls| >= 2 ==> r.calls[1] == ExternalCall
    ensures |r.calls| == 3 ==> r.calls[2].Setex? && r.calls[2].key == CacheKey && r.calls[2].seconds == CacheTtlSeconds
    // the provider is consulted exactly on a true miss, the cache written exactly when it answers
    ensures |r.calls| >= 2 <==> read.Reachable? && CacheKey !in cache
    ensures |r.calls| == 3 <==> read.Reachable? && CacheKey !in cache && provider.Some?
    ensures |r.calls| == 3 ==> r.calls[2].value == provider.value
    ensures r.percentage.Failure? ==> r.percentage.error.PercentageUnavailable?
    // the cache changes only by a successful write of the value that is returned
    ensures r.cache == cache || (r.percentage.Success? && r.cache == Written(cache, r.percentage.value))
  {
    match CachedPercentage(cache, read)
    case Failure(e) => Resolution(Failure(e), cache, [Get(CacheKey)])
    case Success(Some(p)) => Resolution(Success(p), cache, [Get(CacheKey)])
    case Success(None) =>
      match provider
      case None =>
        Resolution(Failure(PercentageUnavailable(NoPercentageMessage)), cache, [Get(CacheKey), ExternalCall])
      case Some(p) =>
        var w := CachePercentage(cache, p, write);
        var result := if w.outcome.Pass? then Success(p) else Failure(w.outcome.error);
        Resolution(result, w.cache, [Get(CacheKey), ExternalCall, Setex(CacheKey, CacheTtlSeconds, p)])
  }

  /** A hit: the cached number is used; one read, no external call, no write. */
  lemma ResolveHit(cache: Cache, p: real, provider: Option<real>, write: CacheWrite)
    requires CacheKey in cache && cache[CacheKey].value == Number(p)
    ensures Resolve(cache, Reachable, provider, write) == Resolution(Success(p), cache, [Get(CacheKey)])
  {
  }

  /**
   * A failed read or unparsable cached text: PercentageUnavailable, with no
   * fall-through to the provider and the cache untouched.
   */
  lemma ResolveCacheFault(cache: Cache, read: CacheRead, provider: Option<real>, write: CacheWrite)
    requires read.ReadFailure? || (CacheKey in cache && cache[CacheKey].value.Unparsable?)
    ensures var r := Resolve(cache, read, provider, write);
      && r.calls == [Get(CacheKey)] && r.cache == cache
      && r.percentage.Failure? && r.percentage.error.PercentageUnavailable?
      && r.percentage.error.message == ReadFailedPrefix
           + (if read.ReadFailure? then read.message else cache[CacheKey].value.parseError)
  {
  }

  /**
   * A true miss: the provider is called once; an empty answer fails without a
   * write, a failed write fails although a value was obtained, and otherwise the
   * value is written with its time-to-live and returned.
   */
  lemma ResolveMiss(cache: Cache, provider: Option<real>, write: CacheWrite)
    requires CacheKey !in cache
    ensures var r := Resolve(cache, Reachable, provider, write);
      && (provider.None? ==> r == Resolution(Failure(PercentageUnavailable(NoPercentageMessage)), cache, [Get(CacheKey), ExternalCall]))
      && (provider.Some? && write.WriteFailure? ==>
            r.percentage == Failure(PercentageUnavailable(WriteFailedPrefix + write.message)) && r.cache == cache)
      && (provider.Some? && write.Stored? ==>
            r.percentage == Success(provider.value) && r.cache == Written(cache, provider.value)
            && r.cache[CacheKey] == CacheEntry(Number(provider.value), 1800))
  {
  }

  /** The lookup succeeds exactly on a hit, or on a miss the provider answers and the write accepts. */
  lemma ResolveSucceedsIff(cache: Cache, read: CacheRead, provider: Option<real>, write: CacheWrite)
    ensures Resolve(cache, read, provider, write).percentage.Success? <==>
      read.Reachable? &&
      (if CacheKey in cache then cache[CacheKey].value.Number? else provider.Some? && write.Stored?)
  {
  }

  /**
   * Cache-aside at work: after a miss resolved from the provider, the next
   * lookup that reaches the cache is a hit on the same value, with no external
   * call and no write, whatever the provider would now say.
   */
  lemma MissThenHit(cache: Cache, provider: Option<real>, provider2: Option<real>, write2: CacheWrite)
    requires CacheKey !in cache && provider.Some?
    ensures var first := Resolve(cache, Reachable, provider, Stored);
      Resolve(first.cache, Reachable, provider2, write2) == Resolution(Success(provider.value), first.cache, [Get(CacheKey)])
  {
    var first := Resolve(cache, Reachable, provider, Stored);
    assert first.cache == Written(cache, provider.value);
    ResolveHit(first.cache, provider.value, provider2, write2);
  }

  /** With the stub provider a miss never comes back empty: it yields 10.0 unless the write fails. */
  lemma StubMiss(cache: Cache, write: CacheWrite)
    requires CacheKey !in cache
    ensures var r := Resolve(cache, Reachable, StubProvider, write);
      r.percentage.Success? <==> write.Stored?
    ensures write.Stored? ==> Resolve(cache, Reachable, StubProvider, write).percentage == Success(10.0)
  {
  }
}
