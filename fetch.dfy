/**
 * `get_emails` of the advanced, full and GUI scripts: build the query, then list
 * the matching messages under the retry policy, keeping only the first response.
 */
module Fetch {
  import opened Mail
  import opened QueryBuilder
  import opened Backoff

  /** The list call for one query, as an oracle from the attempt number. */
  function ListCall(list: (string, nat) -> CallOutcome<ListResponse>, query: string): nat -> CallOutcome<ListResponse> {
    (k: nat) => list(query, k)
  }

  /** `results.get('messages', [])` of a successful run, and `[]` when the run failed. */
  function MessagesOf(r: RetryOutcome<ListResponse>): seq<MessageRef> {
    match r.value
    case Some(response) => response.messages.GetOr([])
    case None => []
  }

  method GetEmails(list: (string, nat) -> CallOutcome<ListResponse>, sender: string,
                   start: Option<Date>, end: Option<Date>, maxRetries: int)
    returns (messages: seq<MessageRef>, calls: nat, waits: seq<nat>)
    ensures var r := Retry(ListCall(list, BuildQuery(sender, start, end)), maxRetries);
            messages == MessagesOf(r) && calls == r.calls && waits == r.waits
  {
    var query := BuildQuery(sender, start, end);
    var value;
    value, calls, waits := CallWithRetry(ListCall(list, query), maxRetries);
    match value {
      case Some(response) => messages := response.messages.GetOr([]);
      case None => messages := [];
    }
  }

  /**
   * A non-empty listing is the 'messages' of the first successful response: every
   * earlier call failed with 429/503, and the pages after the first are never asked for.
   * An empty listing is indistinguishable from a failed one.
   */
  lemma ListingIsFirstSuccessfulResponse(list: (string, nat) -> CallOutcome<ListResponse>, query: string, maxRetries: int)
    ensures var r := Retry(ListCall(list, query), maxRetries);
            MessagesOf(r) != [] ==>
              && 1 <= r.calls <= maxRetries
              && list(query, r.calls - 1).Success?
              && list(query, r.calls - 1).value.messages == Some(MessagesOf(r))
              && (forall j | 0 <= j < r.calls - 1 :: IsTransientFailure(list(query, j)))
  {
    var responses := ListCall(list, query);
    RetryShape(responses, maxRetries);
    if maxRetries > 0 {
      RetryFromShape(responses, maxRetries, 0);
      var r := Retry(responses, maxRetries);
      forall j | 0 <= j < r.calls - 1 ensures IsTransientFailure(list(query, j)) {
        assert responses(j) == list(query, j);
      }
      assert responses(r.calls - 1) == list(query, r.calls - 1);
    }
  }
}
