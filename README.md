# Percentage service: a Dafny model

This project models the core of a small REST service. The service adds two
non-negative numbers and raises the sum by a percentage. It gets the percentage
cache-aside: it reads a Redis key (`external_percentage`) first. On a true miss
it asks an external provider (a stub that always answers 10.0), writes the value
back with a 1800-second time-to-live, and uses it. Every calculation of a
request with both numbers present, successful or not, is recorded as a
call-history (audit) row when the store accepts the save. A rejected first
save fails the calculation; on the success path the generic catch then saves
one row carrying the store's error message, if the store accepts that second
save. The rows can be read back
through a paginated history endpoint. A global exception handler turns
`PercentageUnavailableException` into 503 and every other exception into 500.

Layout (one module per source component):

- `wrappers.dfy`, `errors.dfy`, `http.dfy`: `Option`/`Result`/`Outcome`, the two exception kinds, HTTP responses.
- `calculation_request.dfy`: the request body and its `@NotNull`/`@Min(0)` constraints.
- `exception_handler.dfy`: the two handlers, and Spring's choice between them.
- `paging.dfy`: the page view of a record sequence that a zero-based page request selects (Spring Data's `PageRequest`/`Page` semantics as used by the history query).
- `pagination.dfy`: `Pagination.of` and `PaginatedResponse.of`.
- `audit.dfy`: the call-history entity, the mapper's field copy, and the repository save.
- `gateway.dfy`: the cache-aside lookup as a function of the cache and the collaborators' outcomes, with a trace of the calls made.
- `service.dfy`: the specification of `calculateWithPercentage` and `getCallHistory`, and the class `PercentageServiceImpl`. The class holds the cache (a `map`) and the audit store (a `seq` of records plus the next identity). Its methods are proved to produce exactly the state and result of the specification functions.
- `controller.dfy`: the two endpoints.

The collaborators' behaviour is given to the model as inputs (`Service.Environment`):

- whether the cache read is reachable or throws;
- what the provider answers;
- whether the cache write succeeds;
- whether the store accepts each audit save;
- the current time.

The `toString` texts of the request and the response are parameters.

Where the code's annotations and Javadoc promise one thing and its control flow does another, the model follows the control flow:

- **The audit write is synchronous.** `logCallAsync` is annotated `@Async`, but it is called on `this` (PercentageServiceImpl.java:134,138,142), which bypasses Spring's proxy. The save therefore runs inside the `try`. A store that rejects the save on the success path makes the caller receive an unexpected error, after a second audit attempt made from the generic `catch`. On the failure path, a rejected save replaces the `PercentageUnavailableException` with the store's exception. So a call appends exactly one audit record with its own outcome when the store accepts the first save; when it rejects it, the only possible record is the one from the generic `catch`, carrying the store's error message (`Service.CalculateAuditsOnce`, `Service.CalculateStoreRejects`).
- **Rejected requests answer 500.** The handler class declares `@ExceptionHandler(Exception.class)` and nothing for validation exceptions. So a request body that fails validation, or a `page`/`size` below 1, reaches the catch-all handler and answers 500 with the prefixed message. The exception's message is an opaque parameter `rejection`.

## Model

| member | source | states |
|---|---|---|
| `ExceptionHandler.HandlePercentageException` | src/main/java/cl/tenpo/test/exception/GlobalExceptionHandler.java:45-48 | status 503, body exactly the exception's message |
| `ExceptionHandler.HandleGenericException` | src/main/java/cl/tenpo/test/exception/GlobalExceptionHandler.java:60-63 | status 500, body is "An unexpected error occurred: " followed by the whole message |
| `ExceptionHandler.Handle` | src/main/java/cl/tenpo/test/exception/GlobalExceptionHandler.java:45-63 | the most specific handler is chosen: 503 exactly for PercentageUnavailable, 500 exactly for any other exception |
| `ExceptionHandler.HandleRoundTrip` | src/main/java/cl/tenpo/test/exception/GlobalExceptionHandler.java:45-63 | the exception kind and its message can be read back from the response |
| `ExceptionHandler.HandleInjective` | src/main/java/cl/tenpo/test/exception/GlobalExceptionHandler.java:45-63 | two different exceptions never give the same response |
| `CalculationRequest.Violations` | src/main/java/cl/tenpo/test/dto/request/CalculationRequest.java:40-49 | each constraint fails exactly when its field is absent (`@NotNull`) or present and negative (`@Min(0)`) |
| `CalculationRequest.ValidIff` | src/main/java/cl/tenpo/test/dto/request/CalculationRequest.java:40-50 | a request is valid iff both numbers are present and both are at least 0 |
| `CalculationRequest.AbsentNumberViolatesOnce` | src/main/java/cl/tenpo/test/dto/request/CalculationRequest.java:40-49 | for every request, an absent number breaks its `@NotNull` constraint and not its `@Min`, because `@Min` accepts an absent value |
| `CalculationRequest.Sum` | src/main/java/cl/tenpo/test/service/impl/PercentageServiceImpl.java:111 | the sum of the two numbers, non-negative for a valid request |
| `Paging.FindPage` | src/main/java/cl/tenpo/test/service/impl/PercentageServiceImpl.java:171 | the page holds the records from offset number*size on, in order, min(size, remaining) of them; it keeps the number and size and reports the total |
| `Paging.MapPage` | src/main/java/cl/tenpo/test/service/impl/PercentageServiceImpl.java:172 | mapping a page maps each element in place and keeps number, size and total |
| `Paging.TotalPagesBounds` | src/main/java/cl/tenpo/test/dto/pagination/Pagination.java:68 | the page count is the total divided by the size, rounded up: the pages cover every element and the last page is not empty |
| `Paging.NonEmptyIff` | src/main/java/cl/tenpo/test/dto/pagination/Pagination.java:65-68 | a page has content exactly when its number is below the page count |
| `Paging.PageSizeBound` | src/main/java/cl/tenpo/test/dto/pagination/Pagination.java:65 | a page holds at most the requested size, and exactly that many when enough records follow its offset |
| `Paging.PagesUpToPrefix` | src/main/java/cl/tenpo/test/service/impl/PercentageServiceImpl.java:171 | the first k pages together are the first k*size records |
| `Paging.PagesPartition` | src/main/java/cl/tenpo/test/service/impl/PercentageServiceImpl.java:171 | all pages, in order, are exactly the stored records: nothing is lost or repeated |
| `PaginationDtos.PaginationOf` | src/main/java/cl/tenpo/test/dto/pagination/Pagination.java:63-70 | currentPage is the zero-based number plus 1 (so at least 1); itemsPerPage is the count of elements on the page; totalItems and totalPages are copied from the page |
| `PaginationDtos.PaginatedResponseOf` | src/main/java/cl/tenpo/test/dto/pagination/PaginatedResponse.java:54-59 | data is the page content in order, pagination is `Pagination.of` of the same page, and data's length equals itemsPerPage |
| `PaginationDtos.ItemsPerPageOfFoundPage` | src/main/java/cl/tenpo/test/dto/pagination/Pagination.java:48-68 | itemsPerPage is at most the requested size and smaller only on the last page; it is positive exactly when currentPage is at most totalPages |
| `Audit.ToCallHistoryResponse` | src/main/java/cl/tenpo/test/mapper/CallHistoryMapper.java:45 | every field is copied unchanged |
| `Audit.Save` | src/main/java/cl/tenpo/test/service/impl/PercentageServiceImpl.java:264-271 | an accepted save appends one record whose fields are the arguments, with the next identity; a rejected save stores nothing and throws an unexpected error with the store's message |
| `Audit.SavePreservesWellFormed` | src/main/java/cl/tenpo/test/entity/CallHistory.java:18-20 | store-assigned identities stay unique and ascending in insertion order |
| `Gateway.CachedPercentage` | src/main/java/cl/tenpo/test/service/impl/PercentageServiceImpl.java:231-245 | a hit gives the parsed number; a true miss gives nothing; a failed read or unparsable text gives PercentageUnavailable with the "Failed to retrieve cached percentage: " message |
| `Gateway.CachePercentage` | src/main/java/cl/tenpo/test/service/impl/PercentageServiceImpl.java:209-216 | a successful write puts the value under `external_percentage` with TTL 1800; a failed one leaves the cache unchanged and gives PercentageUnavailable with the "Failed to cache percentage value: " message |
| `Gateway.Resolve` | src/main/java/cl/tenpo/test/service/impl/PercentageServiceImpl.java:114-125 | one cache read, then the provider only on a true miss, then a write only when the provider answers, with no retries; every failure is PercentageUnavailable; the cache changes only by writing the value that is returned |
| `Gateway.ResolveHit` | src/main/java/cl/tenpo/test/service/impl/PercentageServiceImpl.java:114-125 | on a hit the cached value is used, with one `get`, no provider call and no write |
| `Gateway.ResolveCacheFault` | src/main/java/cl/tenpo/test/service/impl/PercentageServiceImpl.java:231-245 | a failed read or unparsable text is PercentageUnavailable, with no fall-through to the provider and the cache unchanged |
| `Gateway.ResolveMiss` | src/main/java/cl/tenpo/test/service/impl/PercentageServiceImpl.java:117-124 | on a miss: no answer fails without a write; a failed write fails even though a value was obtained; otherwise the value is cached for 1800 s and returned |
| `Gateway.ResolveSucceedsIff` | src/main/java/cl/tenpo/test/service/impl/PercentageServiceImpl.java:114-125 | the lookup succeeds exactly on a parsable hit, or on a miss where the provider answers and the write succeeds |
| `Gateway.MissThenHit` | src/main/java/cl/tenpo/test/service/impl/PercentageServiceImpl.java:117-124 | after a miss resolved from the provider, the next reachable lookup is a hit on the same value |
| `Gateway.StubMiss` | src/main/java/cl/tenpo/test/service/impl/PercentageServiceImpl.java:187-195 | the stub provider never answers nothing; with it a miss yields 10.0 unless the write fails |
| `Service.ApplyPercentage` | src/main/java/cl/tenpo/test/service/impl/PercentageServiceImpl.java:127-132 | the sum is kept, the applied percentage is p, and the result exceeds the sum by p percent of it |
| `Service.ApplyPercentageExample` | src/test/java/cl/tenpo/test/service/impl/PercentageServiceImplTest.java:52-54 | 10 and 20 with 10% give 30, 33 and 10 |
| `Service.Calculate` | src/main/java/cl/tenpo/test/service/impl/PercentageServiceImpl.java:109-145 | the cache and the calls are the lookup's; the store keeps its records and gains at most one; PercentageUnavailable reaches the caller exactly when the lookup failed and its audit save was accepted |
| `Service.CalculateAuditsOnce` | src/main/java/cl/tenpo/test/service/impl/PercentageServiceImpl.java:134-139 | with the save accepted: exactly one record (endpoint `/api/calculate`, the request text, the response text or the error message) is appended, and the outcome reaches the caller unchanged |
| `Service.CalculateStoreRejects` | src/main/java/cl/tenpo/test/service/impl/PercentageServiceImpl.java:134-143 | with the save rejected the caller gets an unexpected error; on the success path the rejection is audited by a second save |
| `Service.CalculatePreservesWellFormed` | src/main/java/cl/tenpo/test/service/impl/PercentageServiceImpl.java:134-142 | a calculation keeps the store's identities unique and ascending |
| `Service.CalculateCacheHitExample` | src/test/java/cl/tenpo/test/service/impl/PercentageServiceImplTest.java:41-59 | with 10.0 cached, 10 and 20 give 30, 33, 10; one `get` and no other call; one record under `/api/calculate` |
| `Service.MissThenHitCalculations` | src/main/java/cl/tenpo/test/service/impl/PercentageServiceImpl.java:114-134 | on an empty cache the stub's 10.0 is fetched and cached for 1800 s; the next calculation is served from the cache with the same result |
| `Service.CalculateIntended` | src/main/java/cl/tenpo/test/service/impl/PercentageServiceImpl.java:263-264 | with the audit best effort, the caller receives exactly the lookup's outcome and the store gains one record iff it accepts |
| `Service.IntendedIgnoresStore` | src/main/java/cl/tenpo/test/service/impl/PercentageServiceImpl.java:263-264 | with the audit best effort, no store behaviour changes what the caller receives |
| `Service.IntendedAgreesWhenStored` | src/main/java/cl/tenpo/test/service/impl/PercentageServiceImpl.java:134 | whenever the store accepts, the code as written and the intended behaviour coincide |
| `Service.StoreRejectionFailsCalculation` | src/main/java/cl/tenpo/test/service/impl/PercentageServiceImpl.java:134 | a cache hit with a rejecting store fails the calculation as written, while the intended behaviour answers 30, 33, 10 |
| `Service.HistoryPage` | src/main/java/cl/tenpo/test/service/impl/PercentageServiceImpl.java:169-175 | one mapped response per stored record of the requested page, in store order, with the page's number, size and the store's total |
| `Service.HistoryPageSortedById` | src/main/java/cl/tenpo/test/controller/PercentageController.java:156 | a page of a well-formed store is in ascending identity order |
| `Service.PercentageServiceImpl.constructor` | src/main/java/cl/tenpo/test/service/impl/PercentageServiceImpl.java:65-73 | the service starts over a given cache and a well-formed store |
| `Service.PercentageServiceImpl.GetCachedPercentage` | src/main/java/cl/tenpo/test/service/impl/PercentageServiceImpl.java:231-245 | returns `CachedPercentage` of the current cache and changes nothing |
| `Service.PercentageServiceImpl.CachePercentage` | src/main/java/cl/tenpo/test/service/impl/PercentageServiceImpl.java:209-216 | the new cache and the outcome are those of `Gateway.CachePercentage` on the old cache; only the cache may change |
| `Service.PercentageServiceImpl.LogCallAsync` | src/main/java/cl/tenpo/test/service/impl/PercentageServiceImpl.java:263-273 | the new store and the outcome are those of `Audit.Save` on the old store; only the store may change, and it stays well formed |
| `Service.PercentageServiceImpl.CalculateWithPercentage` | src/main/java/cl/tenpo/test/service/impl/PercentageServiceImpl.java:109-145 | the result and the whole new state (cache and store) are those of `Service.Calculate` on the old state |
| `Service.PercentageServiceImpl.GetCallHistory` | src/main/java/cl/tenpo/test/service/impl/PercentageServiceImpl.java:169-175 | when `findAll` answers, returns `HistoryPage` of the stored records; when it throws, the same exception as an unexpected error; changes nothing, so repeated calls on an unchanged store agree; on a valid service, a returned page is in ascending identity order |
| `Controller.Calculate` | src/main/java/cl/tenpo/test/controller/PercentageController.java:98-101 | a valid request answers 200 with exactly the service's response, or the handler's answer to its exception; an invalid one answers 500 through the catch-all handler |
| `Controller.PageRequestFor` | src/main/java/cl/tenpo/test/controller/PercentageController.java:156 | the zero-based index is page - 1 and the size is passed unchanged |
| `Controller.History` | src/main/java/cl/tenpo/test/controller/PercentageController.java:152-160 | 200 exactly when page and size (after defaults) are both at least 1 and `findAll` answers; a rejected parameter or a failing `findAll` gets the catch-all handler's 500 with its message |
| `Controller.HistoryPageRoundTrip` | src/main/java/cl/tenpo/test/controller/PercentageController.java:152-160 | currentPage equals the requested page; data are the mapped records from (page-1)*size on; data's length is itemsPerPage, at most size |
| `Controller.HistoryDefaults` | src/main/java/cl/tenpo/test/controller/PercentageController.java:153-154 | absent parameters mean page 1 and size 10, whatever `findAll` does |
| `Controller.HistorySortedById` | src/main/java/cl/tenpo/test/controller/PercentageController.java:156 | the history answer is in ascending identity order |
| `Controller.HistoryFifteenRecords` | src/main/java/cl/tenpo/test/controller/PercentageController.java:152-160 | 15 records, page 1, size 10: the first ten records, totalItems 15, totalPages 2, currentPage 1, itemsPerPage 10 |
| `Controller.CalculateEndpointExample` | src/main/java/cl/tenpo/test/controller/PercentageController.java:98-101 | the unit test's calculation answers 200 with 30, 33, 10 |
| `Controller.UnavailableIs503` | src/main/java/cl/tenpo/test/controller/PercentageController.java:100 | a lookup failure whose audit is stored reaches the client as 503 with the lookup's message |

## Findings

| source | as written | input that shows it | evidently intended | confidence | as-written member | corrected member |
|---|---|---|---|---|---|---|
| src/main/java/cl/tenpo/test/service/impl/PercentageServiceImpl.java:134 | `@Async` `logCallAsync` is called on `this`, so the audit save runs synchronously inside the `try`, and a store failure fails the calculation | 10.0 cached, request 10 and 20, the store rejects the first save with "connection refused": the caller receives an unexpected error (500) | the audit is best effort and never fails the calculation (the annotation and the method's documentation): the caller receives 30, 33, 10 | high; not executed | `Service.StoreRejectionFailsCalculation` | `Service.CalculateIntended` |

The class `Service.PercentageServiceImpl` follows the code as written. `Service.CalculateIntended` is the corrected behaviour, and `Service.IntendedAgreesWhenStored` shows that the two coincide whenever the store accepts the save.

## Left out

- Asynchronous dispatch and concurrency: the audit write is modelled as the synchronous call the self-invocation makes; concurrent requests are not modelled.
- Time-to-live expiry over wall-clock time: an entry records its TTL (1800) but never expires. A miss is an absent key, so a service may be started over any cache.
- The Redis client, connection setup and the JPA repository: the cache is a `map` and the store a `seq`. Their failures are the inputs `CacheRead`, `CacheWrite`, `SaveOutcome` (a save) and `FindOutcome` (the paged `findAll` of the history query). A record that is too long for its column is rejected like any other save.
- `double` arithmetic and the text formats of `String.valueOf` and `Double.parseDouble`: numbers are `real`. A cache entry is a parsable number or unparsable text, carrying the parser's exception message.
- `toString` of the request and the response: opaque parameters (`requestText`, `showResponse`).
- `LocalDateTime.now()`: one opaque timestamp per calculation, used for both save attempts.
- Exception messages are always strings; a `null` message (which Java renders as "null") is not distinguished.
- CalculationRequest.Violations: `@Min(0)` on a `Double` field is taken at its declared meaning, a present value of at least 0. Bean validation leaves `@Min` on floating-point types to the provider; a provider that compares the value truncated to a `long` accepts values in (−1, 0), so such a request would pass and could give a negative sum. The validator is not part of this model, and `CalculationRequest.Sum`'s non-negativity holds only under the declared meaning.
- Service.PercentageServiceImpl.CalculateWithPercentage: requires both numbers present. Line 111 unboxes them before the `try`, so a null would throw a NullPointerException with no audit record. That path is not modelled; validation in the controller excludes it.
- Controller.Calculate: does not call the stateful service itself. It takes the service's outcome for the request as a parameter.
- Controller.History: the message of the rejection of a page or size below 1 (from validation or from `PageRequest.of`) is opaque. Non-numeric parameters are not modelled.
- Service.PercentageServiceImpl.GetCallHistory: requires a page size of at least 1, as `PageRequest.of` does. The unit test's `Pageable.unpaged()` is not modelled.
- The sort by `id` is not modelled as a sort. The store assigns identities in insertion order, so sorting by identity leaves the records in store order (`Service.HistoryPageSortedById`).
- The integer widths of the pagination fields and of the `page`/`size` parameters: unbounded here. `page - 1` with `page >= 1` cannot overflow.
- Logging, Swagger annotations and the configuration class.
