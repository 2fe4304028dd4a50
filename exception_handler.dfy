/**
 * The application-wide exception handler: each exception kind becomes an HTTP
 * status and a plain-text body.
 */
module ExceptionHandler {
  import opened Wrappers
  import opened Errors
  import opened Http

  /** The text the generic handler puts before the exception's message. */
  const UnexpectedPrefix := "An unexpected error occurred: "

  /** handlePercentageException: 503, with the exception's message as the body. */
  function HandlePercentageException<T>(e: ServiceException): (r: Response<T>)
    requires e.PercentageUnavailable?
    ensures r.status == StatusServiceUnavailable
    ensures r.body == Text(e.message)
  {
    Response(StatusServiceUnavailable, Text(e.message))
  }

  /** handleGenericException: 500, with the message behind a fixed prefix. It accepts any exception. */
  function HandleGenericException<T>(e: ServiceException): (r: Response<T>)
    ensures r.status == StatusInternalServerError
    ensures r.body.Text? && |r.body.text| == |UnexpectedPrefix| + |e.message|
    ensures r.body.text[..|UnexpectedPrefix|] == UnexpectedPrefix
    ensures r.body.text[|UnexpectedPrefix|..] == e.message
  {
    Response(StatusInternalServerError, Text(UnexpectedPrefix + e.message))
  }

  /**
   * The handler Spring selects for an exception: the one declared for the most
   * specific exception type, so PercentageUnavailableException never reaches the
   * generic handler.
   */
  function Handle<T>(e: ServiceException): (r: Response<T>)
    ensures r.status == StatusServiceUnavailable <==> e.PercentageUnavailable?
    ensures r.status == StatusInternalServerError <==> e.Unexpected?
    ensures r.body.Text?
  {
    match e
    case PercentageUnavailable(_) => HandlePercentageException(e)
    case Unexpected(_) => HandleGenericException(e)
  }

  /** Reads back the exception an error response was produced from. */
  function ExceptionOf<T>(r: Response<T>): Option<ServiceException> {
    if r.status == StatusServiceUnavailable && r.body.Text? then
      Some(PercentageUnavailable(r.body.text))
    else if r.status == StatusInternalServerError && r.body.Text?
            && |UnexpectedPrefix| <= |r.body.text| && r.body.text[..|UnexpectedPrefix|] == UnexpectedPrefix then
      Some(Unexpected(r.body.text[|UnexpectedPrefix|..]))
    else
      None
  }

  /** No information is lost: the exception kind and its whole message are recoverable from the response. */
  lemma HandleRoundTrip<T>(e: ServiceException)
    ensures ExceptionOf(Handle<T>(e)) == Some(e)
  {
    match e
    case PercentageUnavailable(m) =>
    case Unexpected(m) =>
      var r := Handle<T>(e);
      assert r.body.text[|UnexpectedPrefix|..] == m;
  }

  /** Two different exceptions never produce the same response. */
  lemma HandleInjective<T>(e1: ServiceException, e2: ServiceException)
    requires Handle<T>(e1) == Handle<T>(e2)
    ensures e1 == e2
  {
    HandleRoundTrip<T>(e1);
    HandleRoundTrip<T>(e2);
  }
}
