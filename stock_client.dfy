/**
 * The stock availability check: one GET to the stock service and the
 * classification of its reply or exception.
 *
 * The HTTP transport is a parameter `remote`: a total function from the
 * request URL to what the transport produced for it, a reply with a status and
 * a body, or an exception.
 */
module StockClient {
  import opened Failures

  /** The query string put between the endpoint and the item. */
  const ITEM_QUERY: string := "?item="

  /** The prefix of the message of the generic error raised on a non-200 status. */
  const STATUS_ERROR_PREFIX: string := "error "

  /** What the transport produced for one request. */
  datatype Reply = Response(status: nat, body: string) | Threw(error: Failure)

  /** One call of checkAvailable: the requests it sent, in order, and its result. */
  datatype Invocation = Invocation(requests: seq<string>, result: Result<string>)

  /** The request URL: the endpoint, then `?item=`, then the item, each recoverable by position. */
  function RequestUrl(endpoint: string, item: string): (url: string)
    ensures |url| == |endpoint| + |ITEM_QUERY| + |item|
    ensures url[..|endpoint|] == endpoint
    ensures url[|endpoint|..|endpoint| + |ITEM_QUERY|] == ITEM_QUERY
    ensures url[|endpoint| + |ITEM_QUERY|..] == item
  {
    endpoint + ITEM_QUERY + item
  }

  /** Two items with the same endpoint are asked for with different URLs. */
  lemma RequestUrlDeterminesItem(endpoint: string, item1: string, item2: string)
    requires RequestUrl(endpoint, item1) == RequestUrl(endpoint, item2)
    ensures item1 == item2
  {
  }

  predicate IsDigit(c: char) {
    '0' <= c <= '9'
  }

  predicate AllDigits(s: string) {
    forall i :: 0 <= i < |s| ==> IsDigit(s[i])
  }

  function DigitChar(d: nat): (c: char)
    requires d < 10
    ensures IsDigit(c) && c as int - '0' as int == d
  {
    ('0' as int + d) as char
  }

  /** Decimal notation of a natural number, as Java formats an int with `%s`: digits only, no leading zero. */
  function Decimal(n: nat): (s: string)
    ensures 1 <= |s|
    ensures AllDigits(s)
    ensures s[0] == '0' ==> n == 0
    decreases n
  {
    if n < 10 then [DigitChar(n)] else Decimal(n / 10) + [DigitChar(n % 10)]
  }

  /** The number a string of decimal digits denotes. */
  function DigitsValue(s: string): nat
    requires AllDigits(s)
    decreases |s|
  {
    if s == [] then 0
    else DigitsValue(s[..|s| - 1]) * 10 + (s[|s| - 1] as int - '0' as int)
  }

  /** Reading back the decimal notation of `n` gives `n`. */
  lemma {:induction false} DecimalRoundTrip(n: nat)
    ensures DigitsValue(Decimal(n)) == n
    decreases n
  {
    var s := Decimal(n);
    if n < 10 {
      assert s[..|s| - 1] == [];
    } else {
      DecimalRoundTrip(n / 10);
      assert s[..|s| - 1] == Decimal(n / 10);
      assert s[|s| - 1] == DigitChar(n % 10);
    }
  }

  /** The message of the generic error raised for a reply whose status is not 200. */
  function StatusMessage(status: nat): string {
    STATUS_ERROR_PREFIX + Decimal(status)
  }

  /** The message names the status: after the prefix come exactly the digits of the status. */
  lemma StatusMessageNamesStatus(status: nat)
    ensures |StatusMessage(status)| > |STATUS_ERROR_PREFIX|
    ensures StatusMessage(status)[..|STATUS_ERROR_PREFIX|] == STATUS_ERROR_PREFIX
    ensures AllDigits(StatusMessage(status)[|STATUS_ERROR_PREFIX|..])
    ensures DigitsValue(StatusMessage(status)[|STATUS_ERROR_PREFIX|..]) == status
  {
    assert StatusMessage(status)[|STATUS_ERROR_PREFIX|..] == Decimal(status);
    DecimalRoundTrip(status);
  }

  /** Different statuses give different error messages. */
  lemma StatusMessagesDistinct(s1: nat, s2: nat)
    requires s1 != s2
    ensures StatusMessage(s1) != StatusMessage(s2)
  {
    StatusMessageNamesStatus(s1);
    StatusMessageNamesStatus(s2);
  }

  /**
   * The two catch clauses: a server error or an I/O error is wrapped in a
   * Retryable failure; any other exception is thrown again unchanged, and an
   * Error, which neither clause catches, leaves unchanged as well.
   */
  function Catch(e: Failure): (r: Result<string>)
    ensures r.Err?
    ensures IsTransient(e) ==> r.error == Retryable(e)
    ensures !IsTransient(e) ==> r.error == e
  {
    if IsTransient(e) then Err(Retryable(e)) else Err(e)
  }

  /**
   * What checkAvailable makes of the transport's answer: the body of a 200
   * reply; a generic "error <status>" for any other status, which the catch
   * clauses pass on unchanged; and the catch clauses applied to an exception.
   */
  function Classify(reply: Reply): (r: Result<string>)
    ensures reply.Response? && reply.status == 200 ==> r == Ok(reply.body)
    ensures reply.Response? && reply.status != 200 ==>
      r == Err(Other(RUNTIME_EXCEPTION, StatusMessage(reply.status)))
    ensures reply.Threw? && IsTransient(reply.error) ==> r == Err(Retryable(reply.error))
    ensures reply.Threw? && !IsTransient(reply.error) ==> r == Err(reply.error)
  {
    match reply
    case Response(status, body) =>
      if status != 200 then Catch(Other(RUNTIME_EXCEPTION, StatusMessage(status))) else Ok(body)
    case Threw(e) => Catch(e)
  }

  /** Only a 200 reply succeeds. */
  lemma ClassifyOkIff(reply: Reply)
    ensures Classify(reply).Ok? <==> reply.Response? && reply.status == 200
  {
  }

  /**
   * The result is a Retryable failure exactly when the transport threw a
   * server error, an I/O error, or (passed on unchanged) a Retryable failure;
   * a reply with any status is never retryable.
   */
  lemma ClassifyRetryableIff(reply: Reply)
    ensures (Classify(reply).Err? && Classify(reply).error.Retryable?) <==>
      (reply.Threw? && (IsTransient(reply.error) || reply.error.Retryable?))
  {
  }

  /** checkAvailable: exactly one request, to the item's URL, and the classification of its answer. */
  function CheckAvailable(endpoint: string, item: string, remote: string -> Reply): (inv: Invocation)
    ensures |inv.requests| == 1
    ensures inv.requests[0] == RequestUrl(endpoint, item)
    ensures inv.result == Classify(remote(RequestUrl(endpoint, item)))
  {
    var url := RequestUrl(endpoint, item);
    Invocation([url], Classify(remote(url)))
  }
}
