/**
 * The audit store: call-history records, the response form the mapper copies
 * them into, and the append the service performs for every calculation.
 */
module Audit {
  import opened Wrappers
  import opened Errors

  /** The record's creation time (LocalDateTime.now()), supplied from outside. */
  type Timestamp = int

  /** CallHistory: one audit record; the store assigns `id`. */
  datatype CallHistory = CallHistory(id: nat, date: Timestamp, endpoint: string, parameters: string, responseOrError: string)

  /** CallHistoryResponse: the same fields as returned by the history endpoint. */
  datatype CallHistoryResponse = CallHistoryResponse(id: nat, date: Timestamp, endpoint: string, parameters: string, responseOrError: string)

  /** The mapper: a field-for-field copy. */
  function ToCallHistoryResponse(h: CallHistory): (r: CallHistoryResponse)
    ensures r.id == h.id && r.date == h.date && r.endpoint == h.endpoint
    ensures r.parameters == h.parameters && r.responseOrError == h.responseOrError
  {
    CallHistoryResponse(h.id, h.date, h.endpoint, h.parameters, h.responseOrError)
  }

  /** The stored records in insertion order, and the identity the store hands out next. */
  datatype Store = Store(records: seq<CallHistory>, nextId: nat)

  /** Identities increase in insertion order, so insertion order is ascending-id order. */
  ghost predicate IdsAscending(records: seq<CallHistory>) {
    forall i, j :: 0 <= i < j < |records| ==> records[i].id < records[j].id
  }

  /** Identities start at 1, increase, and are all below the next one to be handed out. */
  ghost predicate WellFormed(s: Store) {
    && IdsAscending(s.records)
    && (forall i :: 0 <= i < |s.records| ==> 1 <= s.records[i].id < s.nextId)
    && s.nextId >= 1
  }

  /** Whether the store accepts a save, or rejects it with an exception message. */
  datatype SaveOutcome = Accepted | Rejected(message: string)

  /** Whether the store answers a paged findAll, or throws with a message. */
  datatype FindOutcome = Found | FindFailure(message: string)

  /** The store after a save attempt, and whether the save threw. */
  datatype Saved = Saved(store: Store, outcome: Outcome<ServiceException>)

  /** The record a successful save of these fields stores. */
  function NewRecord(s: Store, date: Timestamp, endpoint: string, params: string, responseOrError: string): CallHistory {
    CallHistory(s.nextId, date, endpoint, params, responseOrError)
  }

  /**
   * callHistoryRepository.save of a record built from the arguments: appended
   * with the next identity when accepted; a rejection throws and stores nothing.
   */
  function Save(s: Store, date: Timestamp, endpoint: string, params: string, responseOrError: string, outcome: SaveOutcome): (r: Saved)
    ensures outcome.Accepted? ==> r.outcome == Pass && r.store.nextId == s.nextId + 1
    ensures outcome.Accepted? ==> r.store.records == s.records + [NewRecord(s, date, endpoint, params, responseOrError)]
    ensures outcome.Rejected? ==> r.store == s && r.outcome == Fail(Unexpected(outcome.message))
  {
    match outcome
    case Accepted =>
      Saved(Store(s.records + [NewRecord(s, date, endpoint, params, responseOrError)], s.nextId + 1), Pass)
    case Rejected(m) =>
      Saved(s, Fail(Unexpected(m)))
  }

  /** A save keeps identities unique and ascending. */
  lemma SavePreservesWellFormed(s: Store, date: Timestamp, endpoint: string, params: string, responseOrError: string, outcome: SaveOutcome)
    requires WellFormed(s)
    ensures WellFormed(Save(s, date, endpoint, params, responseOrError, outcome).store)
  {
    var t := Save(s, date, endpoint, params, responseOrError, outcome).store;
    if outcome.Accepted? {
      forall i, j | 0 <= i < j < |t.records| ensures t.records[i].id < t.records[j].id {
        if j < |s.records| {
          assert t.records[i] == s.records[i] && t.records[j] == s.records[j];
        } else {
          assert t.records[i] == s.records[i];
        }
      }
    }
  }
}
