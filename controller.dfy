/**
 * The two endpoints: POST /api/calculate hands the request to the service and
 * answers 200 with its response; GET /api/history turns a 1-based page number
 * and a page size into a zero-based page request sorted by identity and
 * answers 200 with the paginated history. Every exception becomes a response
 * through the exception handler.
 */
module Controller {
  import opened Wrappers
  import opened Errors
  import opened Http
  import opened ExceptionHandler
  import opened CalculationRequest
  import opened Audit
  import opened Gateway
  import opened Paging
  import opened PaginationDtos
  import opened Service

  /** The default page number and page size of the history endpoint. */
  const DefaultPage: int := 1
  const DefaultSize: int := 10

  /**
   * calculate: `outcome` is what the service returns for `request`. A request
   * that fails validation never reaches the service: the rejection (with
   * message `rejection`) is not a PercentageUnavailableException, so the
   * catch-all handler answers it.
   */
  function Calculate(request: CalculationRequest, rejection: string,
                     outcome: Result<CalculationResponse, ServiceException>): (r: Response<CalculationResponse>)
    ensures Valid(request) && outcome.Success? ==> r == Response(StatusOk, Json(outcome.value))
    ensures Valid(request) && outcome.Failure? ==> r == Handle(outcome.error)
    ensures !Valid(request) ==> r == HandleGenericException(Unexpected(rejection))
    ensures r.status == StatusOk <==> Valid(request) && outcome.Success?
  {
    if !Valid(request) then HandleGenericException(Unexpected(rejection))
    else
      match outcome
      case Success(response) => Response(StatusOk, Json(response))
      case Failure(e) => Handle(e)
  }

  /** PageRequest.of(page - 1, size): the zero-based index of a 1-based page, and the size unchanged. */
  function PageRequestFor(page: int, size: int): (r: PageRequest)
    requires page >= 1 && size >= 1
    ensures r.pageNumber + 1 == page && r.pageSize == size
  {
    PageRequest(page - 1, size)
  }

  /**
   * history: absent parameters take their defaults; a page or size below 1 is
   * rejected (message `rejection`), and a failing findAll (`find`) throws; both
   * are answered by the catch-all handler.
   */
  function History(records: seq<CallHistory>, page: Option<int>, size: Option<int>, rejection: string, find: FindOutcome)
    : (r: Response<PaginatedResponse<CallHistoryResponse>>)
    ensures r.status == StatusOk <==> page.GetOr(DefaultPage) >= 1 && size.GetOr(DefaultSize) >= 1 && find.Found?
    ensures !(page.GetOr(DefaultPage) >= 1 && size.GetOr(DefaultSize) >= 1) ==>
      r == HandleGenericException(Unexpected(rejection))
    ensures page.GetOr(DefaultPage) >= 1 && size.GetOr(DefaultSize) >= 1 && find.FindFailure? ==>
      r == HandleGenericException(Unexpected(find.message))
    ensures r.status == StatusOk ==> r.body.Json?
  {
    var p := page.GetOr(DefaultPage);
    var s := size.GetOr(DefaultSize);
    if !(p >= 1 && s >= 1) then
      HandleGenericException(Unexpected(rejection))
    else
      match find
      case FindFailure(m) => HandleGenericException(Unexpected(m))
      case Found => Response(StatusOk, Json(PaginatedResponseOf(HistoryPage(records, PageRequestFor(p, s)))))
  }

  /**
   * A successful history answer reports back the page that was asked for, lists
   * the records of that page in store order, mapped, and counts exactly the
   * items it lists.
   */
  lemma HistoryPageRoundTrip(records: seq<CallHistory>, p: int, s: int, rejection: string)
    requires p >= 1 && s >= 1
    ensures var r := History(records, Some(p), Some(s), rejection, Found);
      && r.status == StatusOk
      && r.body.value.pagination.currentPage == p
      && r.body.value.pagination.totalItems == |records|
      && |r.body.value.data| == r.body.value.pagination.itemsPerPage <= s
      && (forall i :: 0 <= i < |r.body.value.data| ==>
            (p - 1) * s + i < |records| && r.body.value.data[i] == ToCallHistoryResponse(records[(p - 1) * s + i]))
  {
    var req := PageRequestFor(p, s);
    assert Offset(req) == (p - 1) * s;
  }

  /** Leaving both parameters out asks for page 1 with 10 items. */
  lemma HistoryDefaults(records: seq<CallHistory>, rejection: string, find: FindOutcome)
    ensures History(records, None, None, rejection, find) == History(records, Some(1), Some(10), rejection, find)
  {
  }

  /** The history answer is in ascending identity order when the store is well formed. */
  lemma HistorySortedById(store: Store, page: Option<int>, size: Option<int>, rejection: string, find: FindOutcome)
    requires WellFormed(store)
    ensures var r := History(store.records, page, size, rejection, find);
      r.status == StatusOk ==>
        forall i, j :: 0 <= i < j < |r.body.value.data| ==> r.body.value.data[i].id < r.body.value.data[j].id
  {
    var p, s := page.GetOr(DefaultPage), size.GetOr(DefaultSize);
    if p >= 1 && s >= 1 {
      HistoryPageSortedById(store.records, PageRequestFor(p, s));
    }
  }

  /**
   * Fifteen stored records, page 1 of size 10: the first ten records, with 15
   * items in total on 2 pages, on current page 1.
   */
  lemma HistoryFifteenRecords(records: seq<CallHistory>, rejection: string)
    requires |records| == 15
    ensures var r := History(records, Some(1), Some(10), rejection, Found);
      && r.status == StatusOk
      && r.body.value.data == seq(10, i requires 0 <= i < 10 => ToCallHistoryResponse(records[i]))
      && r.body.value.pagination == Pagination(1, 15, 2, 10)
  {
    HistoryPageRoundTrip(records, 1, 10, rejection);
  }

  /** The unit test's calculation, seen at the endpoint: 200 with 30, 33 and 10. */
  lemma CalculateEndpointExample(s: ServiceState, requestText: string, showResponse: CalculationResponse -> string,
                                 env: Environment, rejection: string)
    requires CacheKey in s.cache && s.cache[CacheKey].value == Number(10.0)
    requires env.read == Reachable && env.firstSave.Accepted?
    ensures var request := CalculationRequest(Some(10.0), Some(20.0));
      Calculate(request, rejection, Service.Calculate(s, request, requestText, showResponse, env).result)
        == Response(StatusOk, Json(CalculationResponse(30.0, 33.0, 10.0)))
  {
    CalculateCacheHitExample(s, requestText, showResponse, env.provider, env.write, env.secondSave, env.now);
  }

  /** A percentage that cannot be resolved reaches the client as 503 carrying the lookup's message. */
  lemma UnavailableIs503(s: ServiceState, request: CalculationRequest, requestText: string,
                         showResponse: CalculationResponse -> string, env: Environment, rejection: string)
    requires Valid(request) && env.firstSave.Accepted?
    requires Resolve(s.cache, env.read, env.provider, env.write).percentage.Failure?
    ensures var r := Calculate(request, rejection, Service.Calculate(s, request, requestText, showResponse, env).result);
      r == Response(StatusServiceUnavailable, Text(Resolve(s.cache, env.read, env.provider, env.write).percentage.error.message))
  {
    ValidIff(request);
    CalculateAuditsOnce(s, request, requestText, showResponse, env);
  }
}
