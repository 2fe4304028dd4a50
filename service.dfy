/**
 * The percentage service: a calculation that takes its percentage from the
 * cache-aside lookup and records its outcome in the audit store, and the paged
 * history query over that store.
 *
 * The audit write is synchronous: the service calls its own @Async method on
 * itself, which bypasses the asynchronous proxy, so the write runs inside the
 * calculation's try block and a failing write surfaces to the caller.
 */
module Service {
  import opened Wrappers
  import opened Errors
  import opened CalculationRequest
  import opened Audit
  import opened Gateway
  import opened Paging

  /** The endpoint every calculation is audited under. */
  const CalculateEndpoint := "/api/calculate"

  /** CalculationResponse: the sum, the sum with the percentage applied, and the percentage used. */
  datatype CalculationResponse = CalculationResponse(sum: real, resultWithPercentage: real, appliedPercentage: real)

  /** The response for a sum and a percentage: the sum grown by `p` percent of itself. */
  function ApplyPercentage(sum: real, p: real): (r: CalculationResponse)
    ensures r.sum == sum && r.appliedPercentage == p
    ensures (r.resultWithPercentage - sum) * 100.0 == sum * p
    ensures sum >= 0.0 && p >= 0.0 ==> r.resultWithPercentage >= sum
  {
    CalculationResponse(sum, sum + sum * (p / 100.0), p)
  }

  /** The test's example: 10 + 20 with 10% gives 30, 33 and 10. */
  lemma ApplyPercentageExample()
    ensures ApplyPercentage(10.0 + 20.0, 10.0) == CalculationResponse(30.0, 33.0, 10.0)
  {
  }

  /** Everything the service changes: the cache and the audit store. */
  datatype ServiceState = ServiceState(cache: Cache, store: Store)

  /**
   * What the collaborators do during one calculation: the cache read, the
   * provider's answer, the cache write, the first audit save and the save
   * attempted after it if it fails on the success path, and the current time.
   */
  datatype Environment = Environment(
    read: CacheRead, provider: Option<real>, write: CacheWrite,
    firstSave: SaveOutcome, secondSave: SaveOutcome, now: Timestamp)

  /** The result, the state afterwards, and the calls on the cache and provider. */
  datatype Calculation = Calculation(result: Result<CalculationResponse, ServiceException>, state: ServiceState, calls: seq<Call>)

  /**
   * calculateWithPercentage as written. `requestText` and `showResponse` are the
   * request's and the response's toString.
   */
  function Calculate(s: ServiceState, request: CalculationRequest, requestText: string,
                     showResponse: CalculationResponse -> string, env: Environment): (c: Calculation)
    requires Present(request)
    // the audit never touches the cache, nor calls the cache or provider
    ensures var res := Resolve(s.cache, env.read, env.provider, env.write);
      c.state.cache == res.cache && c.calls == res.calls
    // the store only grows, by at most one record
    ensures s.store.records <= c.state.store.records
    ensures |c.state.store.records| <= |s.store.records| + 1
    // a PercentageUnavailable reaches the caller exactly when the lookup failed and its audit was stored
    ensures (c.result.Failure? && c.result.error.PercentageUnavailable?) <==>
      Resolve(s.cache, env.read, env.provider, env.write).percentage.Failure? && env.firstSave.Accepted?
  {
    var res := Resolve(s.cache, env.read, env.provider, env.write);
    match res.percentage
    case Success(p) =>
      var response := ApplyPercentage(Sum(request), p);
      var saved := Save(s.store, env.now, CalculateEndpoint, requestText, showResponse(response), env.firstSave);
      if saved.outcome.Pass? then
        Calculation(Success(response), ServiceState(res.cache, saved.store), res.calls)
      else
        // the save's own exception is caught by the generic catch, audited once more and rethrown
        var e := saved.outcome.error;
        var retry := Save(s.store, env.now, CalculateEndpoint, requestText, e.message, env.secondSave);
        Calculation(Failure(if retry.outcome.Pass? then e else retry.outcome.error), ServiceState(res.cache, retry.store), res.calls)
    case Failure(e) =>
      var saved := Save(s.store, env.now, CalculateEndpoint, requestText, e.message, env.firstSave);
      Calculation(Failure(if saved.outcome.Pass? then e else saved.outcome.error), ServiceState(res.cache, saved.store), res.calls)
  }

  /**
   * When the store accepts the first save, exactly one record is appended: the
   * endpoint, the request text, and the response text or the error message; the
   * lookup's outcome reaches the caller unchanged.
   */
  lemma CalculateAuditsOnce(s: ServiceState, request: CalculationRequest, requestText: string,
                            showResponse: CalculationResponse -> string, env: Environment)
    requires Present(request) && env.firstSave.Accepted?
    ensures var c := Calculate(s, request, requestText, showResponse, env);
      var res := Resolve(s.cache, env.read, env.provider, env.write);
      && (res.percentage.Success? ==> c.result == Success(ApplyPercentage(Sum(request), res.percentage.value)))
      && (res.percentage.Failure? ==> c.result == Failure(res.percentage.error))
      && c.state.store.nextId == s.store.nextId + 1
      && c.state.store.records == s.store.records + [CallHistory(s.store.nextId, env.now, CalculateEndpoint, requestText,
           if c.result.Success? then showResponse(c.result.value) else c.result.error.message)]
  {
  }

  /**
   * When the store rejects the first save the caller gets an unexpected error,
   * even on a resolved percentage. On the success path the rejection is audited
   * by a second save; on the failure path the PercentageUnavailable is lost.
   */
  lemma CalculateStoreRejects(s: ServiceState, request: CalculationRequest, requestText: string,
                              showResponse: CalculationResponse -> string, env: Environment)
    requires Present(request) && env.firstSave.Rejected?
    ensures var c := Calculate(s, request, requestText, showResponse, env);
      var res := Resolve(s.cache, env.read, env.provider, env.write);
      var m := env.firstSave.message;
      && c.result.Failure? && c.result.error.Unexpected?
      && (res.percentage.Failure? ==> c.result.error == Unexpected(m) && c.state.store == s.store)
      && (res.percentage.Success? && env.secondSave.Accepted? ==>
            c.result.error == Unexpected(m)
            && c.state.store.records == s.store.records + [CallHistory(s.store.nextId, env.now, CalculateEndpoint, requestText, m)])
      && (res.percentage.Success? && env.secondSave.Rejected? ==>
            c.result.error == Unexpected(env.secondSave.message) && c.state.store == s.store)
  {
  }

  /** A calculation keeps the store's identities unique and ascending. */
  lemma CalculatePreservesWellFormed(s: ServiceState, request: CalculationRequest, requestText: string,
                                     showResponse: CalculationResponse -> string, env: Environment)
    requires Present(request) && WellFormed(s.store)
    ensures WellFormed(Calculate(s, request, requestText, showResponse, env).state.store)
  {
    var res := Resolve(s.cache, env.read, env.provider, env.write);
    match res.percentage
    case Success(p) =>
      var response := ApplyPercentage(Sum(request), p);
      SavePreservesWellFormed(s.store, env.now, CalculateEndpoint, requestText, showResponse(response), env.firstSave);
      var saved := Save(s.store, env.now, CalculateEndpoint, requestText, showResponse(response), env.firstSave);
      if saved.outcome.Fail? {
        SavePreservesWellFormed(s.store, env.now, CalculateEndpoint, requestText, saved.outcome.error.message, env.secondSave);
      }
    case Failure(e) =>
      SavePreservesWellFormed(s.store, env.now, CalculateEndpoint, requestText, e.message, env.firstSave);
  }

  /**
   * The unit test's scenario: the cache holds 10.0, the request is 10 and 20.
   * The response is 30, 33, 10; the cache is read once and nothing else is
   * called; one record is audited under /api/calculate.
   */
  lemma CalculateCacheHitExample(s: ServiceState, requestText: string, showResponse: CalculationResponse -> string,
                                 provider: Option<real>, write: CacheWrite, second: SaveOutcome, now: Timestamp)
    requires CacheKey in s.cache && s.cache[CacheKey].value == Number(10.0)
    ensures var c := Calculate(s, CalculationRequest(Some(10.0), Some(20.0)), requestText, showResponse,
                               Environment(Reachable, provider, write, Accepted, second, now));
      && c.result == Success(CalculationResponse(30.0, 33.0, 10.0))
      && c.calls == [Get(CacheKey)]
      && c.state.cache == s.cache
      && |c.state.store.records| == |s.store.records| + 1
      && c.state.store.records[|s.store.records|].endpoint == "/api/calculate"
  {
    ResolveHit(s.cache, 10.0, provider, write);
    ApplyPercentageExample();
  }

  /**
   * Two calculations on an empty cache with the stub provider: the first calls
   * the provider and caches 10.0 for 1800 seconds; the second is served from
   * the cache with the same percentage and no external call.
   */
  lemma MissThenHitCalculations(s: ServiceState, request: CalculationRequest, requestText: string,
                                showResponse: CalculationResponse -> string, env1: Environment, env2: Environment)
    requires Present(request) && CacheKey !in s.cache
    requires env1.read == Reachable && env1.provider == StubProvider && env1.write == Stored && env1.firstSave.Accepted?
    requires env2.read == Reachable && env2.firstSave.Accepted?
    ensures var c1 := Calculate(s, request, requestText, showResponse, env1);
      var c2 := Calculate(c1.state, request, requestText, showResponse, env2);
      && c1.calls == [Get(CacheKey), ExternalCall, Setex(CacheKey, 1800, 10.0)]
      && c1.state.cache[CacheKey] == CacheEntry(Number(10.0), 1800)
      && c1.result == Success(ApplyPercentage(Sum(request), 10.0))
      && c2.calls == [Get(CacheKey)]
      && c2.result == c1.result
      && c2.state.cache == c1.state.cache
  {
    var c1 := Calculate(s, request, requestText, showResponse, env1);
    assert c1.state.cache == Written(s.cache, 10.0);
    MissThenHit(s.cache, StubProvider, env2.provider, env2.write);
  }

  // ---------------------------------------------------------------------------
  // The audit write as the @Async annotation and logCallAsync's Javadoc describe it:
  // asynchronous and best effort.
  // ---------------------------------------------------------------------------

  /**
   * calculateWithPercentage with the audit write dispatched and its failure
   * swallowed, as the @Async annotation intends: the caller sees the lookup's
   * outcome whatever the store does.
   */
  function CalculateIntended(s: ServiceState, request: CalculationRequest, requestText: string,
                             showResponse: CalculationResponse -> string, env: Environment): (c: Calculation)
    requires Present(request)
    ensures var res := Resolve(s.cache, env.read, env.provider, env.write);
      && c.state.cache == res.cache && c.calls == res.calls
      && (res.percentage.Success? ==> c.result == Success(ApplyPercentage(Sum(request), res.percentage.value)))
      && (res.percentage.Failure? ==> c.result == Failure(res.percentage.error))
    ensures |c.state.store.records| == |s.store.records| + (if env.firstSave.Accepted? then 1 else 0)
  {
    var res := Resolve(s.cache, env.read, env.provider, env.write);
    match res.percentage
    case Success(p) =>
      var response := ApplyPercentage(Sum(request), p);
      var saved := Save(s.store, env.now, CalculateEndpoint, requestText, showResponse(response), env.firstSave);
      Calculation(Success(response), ServiceState(res.cache, saved.store), res.calls)
    case Failure(e) =>
      var saved := Save(s.store, env.now, CalculateEndpoint, requestText, e.message, env.firstSave);
      Calculation(Failure(e), ServiceState(res.cache, saved.store), res.calls)
  }

  /** With the audit best effort, no store behaviour can change what the caller receives. */
  lemma IntendedIgnoresStore(s: ServiceState, request: CalculationRequest, requestText: string,
                             showResponse: CalculationResponse -> string, env: Environment,
                             first: SaveOutcome, second: SaveOutcome)
    requires Present(request)
    ensures CalculateIntended(s, request, requestText, showResponse, env).result
         == CalculateIntended(s, request, requestText, showResponse, env.(firstSave := first, secondSave := second)).result
  {
  }

  /** Whenever the store accepts the save, the code as written behaves as intended. */
  lemma IntendedAgreesWhenStored(s: ServiceState, request: CalculationRequest, requestText: string,
                                 showResponse: CalculationResponse -> string, env: Environment)
    requires Present(request) && env.firstSave.Accepted?
    ensures Calculate(s, request, requestText, showResponse, env) == CalculateIntended(s, request, requestText, showResponse, env)
  {
    CalculateAuditsOnce(s, request, requestText, showResponse, env);
  }

  /**
   * The discrepancy: a cache hit and a store that rejects the first save. The
   * percentage was resolved, yet the code as written fails the calculation.
   */
  lemma StoreRejectionFailsCalculation(showResponse: CalculationResponse -> string)
    ensures var s := ServiceState(map[CacheKey := CacheEntry(Number(10.0), 1800)], Store([], 1));
      var request := CalculationRequest(Some(10.0), Some(20.0));
      var env := Environment(Reachable, None, Stored, Rejected("connection refused"), Accepted, 0);
      && Calculate(s, request, "req", showResponse, env).result == Failure(Unexpected("connection refused"))
      && CalculateIntended(s, request, "req", showResponse, env).result == Success(CalculationResponse(30.0, 33.0, 10.0))
  {
    var s := ServiceState(map[CacheKey := CacheEntry(Number(10.0), 1800)], Store([], 1));
    ResolveHit(s.cache, 10.0, None, Stored);
    ApplyPercentageExample();
  }

  // ---------------------------------------------------------------------------
  // History
  // ---------------------------------------------------------------------------

  /** getCallHistory: the requested page of the stored records, each mapped to its response form. */
  function HistoryPage(records: seq<CallHistory>, pageable: PageRequest): (p: Page<CallHistoryResponse>)
    requires pageable.pageSize >= 1
    ensures p.number == pageable.pageNumber && p.size == pageable.pageSize && p.totalElements == |records|
    ensures |p.content| == |FindPage(records, pageable).content| <= pageable.pageSize
    ensures forall i :: 0 <= i < |p.content| ==>
      Offset(pageable) + i < |records| && p.content[i] == ToCallHistoryResponse(records[Offset(pageable) + i])
  {
    PageSizeBound(records, pageable);
    MapPage(ToCallHistoryResponse, FindPage(records, pageable))
  }

  /** A page of a well-formed store lists its records in ascending identity order. */
  lemma HistoryPageSortedById(records: seq<CallHistory>, pageable: PageRequest)
    requires pageable.pageSize >= 1 && IdsAscending(records)
    ensures var p := HistoryPage(records, pageable);
      forall i, j :: 0 <= i < j < |p.content| ==> p.content[i].id < p.content[j].id
  {
    var p := HistoryPage(records, pageable);
    forall i, j | 0 <= i < j < |p.content| ensures p.content[i].id < p.content[j].id {
      assert p.content[i].id == records[Offset(pageable) + i].id;
      assert p.content[j].id == records[Offset(pageable) + j].id;
    }
  }

  // ---------------------------------------------------------------------------
  // The service object
  // ---------------------------------------------------------------------------

  /** PercentageServiceImpl, holding the cache and the audit store it writes to. */
  class PercentageServiceImpl {
    /** The entries of the cache server. */
    var cache: Cache
    /** The audit store's records, in insertion order. */
    var history: seq<CallHistory>
    /** The identity the audit store assigns to its next record. */
    var nextId: nat

    ghost predicate Valid()
      reads this
    {
      WellFormed(Store(history, nextId))
    }

    function State(): ServiceState
      reads this
    {
      ServiceState(cache, Store(history, nextId))
    }

    constructor (cache0: Cache, history0: seq<CallHistory>, nextId0: nat)
      requires WellFormed(Store(history0, nextId0))
      ensures Valid()
      ensures cache == cache0 && history == history0 && nextId == nextId0
    {
      cache := cache0;
      history := history0;
      nextId := nextId0;
    }

    /** getCachedPercentage: a read of the cache; nothing changes. */
    method GetCachedPercentage(read: CacheRead) returns (r: Result<Option<real>, ServiceException>)
      ensures r == CachedPercentage(cache, read)
    {
      match read {
        case ReadFailure(m) =>
          r := Failure(PercentageUnavailable(ReadFailedPrefix + m));
        case Reachable =>
          if CacheKey in cache {
            match cache[CacheKey].value {
              case Number(p) => r := Success(Some(p));
              case Unparsable(m) => r := Failure(PercentageUnavailable(ReadFailedPrefix + m));
            }
          } else {
            r := Success(None);
          }
      }
    }

    /** cachePercentage: setex of the value with a 1800-second expiry. */
    method CachePercentage(value: real, write: CacheWrite) returns (r: Outcome<ServiceException>)
      modifies this`cache
      ensures WriteBack(cache, r) == Gateway.CachePercentage(old(cache), value, write)
    {
      match write {
        case Stored =>
          cache := cache[CacheKey := CacheEntry(Number(value), CacheTtlSeconds)];
          r := Pass;
        case WriteFailure(m) =>
          r := Fail(PercentageUnavailable(WriteFailedPrefix + m));
      }
    }

    /** logCallAsync: saves one record built from its arguments, synchronously. */
    method LogCallAsync(endpoint: string, params: string, responseOrError: string, now: Timestamp, outcome: SaveOutcome)
      returns (r: Outcome<ServiceException>)
      requires Valid()
      modifies this`history, this`nextId
      ensures Valid()
      ensures Saved(Store(history, nextId), r) == Save(old(Store(history, nextId)), now, endpoint, params, responseOrError, outcome)
    {
      SavePreservesWellFormed(Store(history, nextId), now, endpoint, params, responseOrError, outcome);
      match outcome {
        case Accepted =>
          history := history + [CallHistory(nextId, now, endpoint, params, responseOrError)];
          nextId := nextId + 1;
          r := Pass;
        case Rejected(m) =>
          r := Fail(Unexpected(m));
      }
    }

    /**
     * calculateWithPercentage: the lookup (cache, then provider and write-back),
     * the response, and the audit write of the outcome.
     */
    method CalculateWithPercentage(request: CalculationRequest, requestText: string,
                                   showResponse: CalculationResponse -> string, env: Environment)
      returns (r: Result<CalculationResponse, ServiceException>)
      requires Valid() && Present(request)
      modifies this
      ensures Valid()
      ensures r == Calculate(old(State()), request, requestText, showResponse, env).result
      ensures State() == Calculate(old(State()), request, requestText, showResponse, env).state
    {
      var sum := Sum(request);
      var cached := GetCachedPercentage(env.read);
      var percentage: real := 0.0;
      var failure: Option<ServiceException> := None;
      match cached {
        case Failure(e) =>
          failure := Some(e);
        case Success(Some(p)) =>
          percentage := p;
        case Success(None) =>
          // a true miss: the external service, then the write-back
          match env.provider {
            case None =>
              failure := Some(PercentageUnavailable(NoPercentageMessage));
            case Some(p) =>
              var written := CachePercentage(p, env.write);
              if written.Fail? {
                failure := Some(written.error);
              } else {
                percentage := p;
              }
          }
      }
      assert failure.None? <==> Resolve(old(cache), env.read, env.provider, env.write).percentage.Success?;
      assert failure.None? ==> percentage == Resolve(old(cache), env.read, env.provider, env.write).percentage.value;
      assert failure.Some? ==> failure.value == Resolve(old(cache), env.read, env.provider, env.write).percentage.error;
      assert cache == Resolve(old(cache), env.read, env.provider, env.write).cache;
      if failure.None? {
        var response := ApplyPercentage(sum, percentage);
        var logged := LogCallAsync(CalculateEndpoint, requestText, showResponse(response), env.now, env.firstSave);
        if logged.Pass? {
          r := Success(response);
        } else {
          // the generic catch: audit the save's failure, then rethrow it
          var e := logged.error;
          var retried := LogCallAsync(CalculateEndpoint, requestText, e.message, env.now, env.secondSave);
          r := Failure(if retried.Pass? then e else retried.error);
        }
      } else {
        var e := failure.value;
        var logged := LogCallAsync(CalculateEndpoint, requestText, e.message, env.now, env.firstSave);
        r := Failure(if logged.Pass? then e else logged.error);
      }
    }

    /**
     * getCallHistory: the requested page of the store, mapped; a failing
     * findAll propagates as an unexpected error. Nothing changes. The page is
     * in ascending identity order, as the sort by id asks.
     */
    method GetCallHistory(pageable: PageRequest, find: FindOutcome) returns (r: Result<Page<CallHistoryResponse>, ServiceException>)
      requires Valid() && pageable.pageSize >= 1
      ensures find.Found? ==> r == Success(HistoryPage(history, pageable))
      ensures find.FindFailure? ==> r == Failure(Unexpected(find.message))
      ensures r.Success? ==> forall i, j :: 0 <= i < j < |r.value.content| ==> r.value.content[i].id < r.value.content[j].id
    {
      HistoryPageSortedById(history, pageable);
      match find {
        case FindFailure(m) =>
          r := Failure(Unexpected(m));
        case Found =>
          var found := FindPage(history, pageable);
          r := Success(MapPage(ToCallHistoryResponse, found));
      }
    }
  }
}
