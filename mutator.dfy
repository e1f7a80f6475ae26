/**
 * `delete_or_archive_emails`. The advanced, full and GUI scripts visit every
 * listed message in order and give each its own bounded retry, so a failure
 * abandons only that message; the simple script makes one call per message and
 * lets the first failure escape, which ends the sweep. The remote calls are an
 * oracle from the message's position (and, with retries, the attempt number) to
 * what the call did.
 */
module Mutator {
  import opened Mail
  import opened Text
  import opened Backoff

  datatype Action = Delete | Archive | NoAction

  /** `action.lower() == 'delete'` and `== 'archive'`; any other action matches neither branch. */
  function ActionOf(action: string): (a: Action)
    ensures a == Delete <==> AsciiLower(action) == "delete"
    ensures a == Archive <==> AsciiLower(action) == "archive"
  {
    var lower := AsciiLower(action);
    if lower == "delete" then Delete else if lower == "archive" then Archive else NoAction
  }

  /** The literal actions the scripts pass are recognised as such. */
  lemma ActionNames()
    ensures ActionOf("delete") == Delete && ActionOf("archive") == Archive
  {
    AsciiLowerOfLower("delete");
    AsciiLowerOfLower("archive");
  }

  /** `messages().trash(id=…)` and `messages().modify(id=…, body={'removeLabelIds': ['INBOX']})`. */
  datatype RemoteCall = Trash(id: string) | RemoveInboxLabel(id: string)

  /** The call an action sends for a message; no call at all for an unknown action. */
  function RequestFor(action: Action, id: string): (r: Option<RemoteCall>)
    ensures r.None? <==> action == NoAction
    ensures r.Some? ==> r.value.id == id
  {
    match action
    case Delete => Some(Trash(id))
    case Archive => Some(RemoveInboxLabel(id))
    case NoAction => None
  }

  /**
   * What each attempt at message `i` does. For an unknown action the `try` block
   * holds no call and runs into `break`, which counts as a success.
   */
  function AttemptsAt(action: Action, i: nat, mutate: (nat, nat) -> CallOutcome<()>): nat -> CallOutcome<()> {
    if action == NoAction then (k: nat) => Success(()) else (k: nat) => mutate(i, k)
  }

  /** One visited message: the call its attempts send, and how its retries went. */
  datatype Handled = Handled(request: Option<RemoteCall>, outcome: RetryOutcome<()>)

  function HandleAt(messages: seq<MessageRef>, i: nat, action: Action, maxRetries: int,
                    mutate: (nat, nat) -> CallOutcome<()>): Handled
    requires i < |messages|
  {
    Handled(RequestFor(action, messages[i].id), Retry(AttemptsAt(action, i, mutate), maxRetries))
  }

  /** The sweep with retries: every message, in order, handled on its own. */
  function Sweep(messages: seq<MessageRef>, action: Action, maxRetries: int,
                 mutate: (nat, nat) -> CallOutcome<()>): seq<Handled>
  {
    seq(|messages|, i requires 0 <= i < |messages| => HandleAt(messages, i, action, maxRetries, mutate))
  }

  /** The sweep a run asks for: choice '2' deletes, '3' archives, any other choice none. */
  function MutationFor(choice: string, messages: seq<MessageRef>, maxRetries: int,
                       mutate: (nat, nat) -> CallOutcome<()>): (r: seq<Handled>)
    ensures choice != "2" && choice != "3" ==> r == []
    ensures choice == "2" || choice == "3" ==>
              && |r| == |messages|
              && forall i | 0 <= i < |messages| ::
                   r[i].request == Some(if choice == "2" then Trash(messages[i].id) else RemoveInboxLabel(messages[i].id))
  {
    if choice == "2" then Sweep(messages, Delete, maxRetries, mutate)
    else if choice == "3" then Sweep(messages, Archive, maxRetries, mutate)
    else []
  }

  /** `delete_or_archive_emails` of the advanced, full and GUI scripts. */
  method DeleteOrArchive(messages: seq<MessageRef>, action: string, maxRetries: int,
                         mutate: (nat, nat) -> CallOutcome<()>)
    returns (handled: seq<Handled>)
    ensures handled == Sweep(messages, ActionOf(action), maxRetries, mutate)
  {
    var act := ActionOf(action);
    handled := [];
    for i := 0 to |messages|
      invariant |handled| == i
      invariant forall j | 0 <= j < i :: handled[j] == HandleAt(messages, j, act, maxRetries, mutate)
    {
      var request := RequestFor(act, messages[i].id);
      var value, calls, waits := CallWithRetry(AttemptsAt(act, i, mutate), maxRetries);
      handled := handled + [Handled(request, RetryOutcome(value, calls, waits))];
    }
  }

  /**
   * `f"{action.capitalize()}ing {i}/{total} emails"` for each message whose call went
   * through, `i` being its position in the listing.
   */
  function DoneNotes(word: string, handled: seq<Handled>, total: nat): seq<string> {
    if handled == [] then []
    else
      var last := handled[|handled| - 1];
      DoneNotes(word, handled[..|handled| - 1], total) +
        (if last.outcome.value.Some? then [word + "ing " + Decimal(|handled|) + "/" + Decimal(total) + " emails"] else [])
  }

  /** The progress lines posted inside the sweep's loop. */
  method ReportDone(word: string, handled: seq<Handled>) returns (notes: seq<string>)
    ensures notes == DoneNotes(word, handled, |handled|)
  {
    notes := [];
    for i := 0 to |handled|
      invariant notes == DoneNotes(word, handled[..i], |handled|)
    {
      assert handled[..i + 1][..i] == handled[..i];
      if handled[i].outcome.value.Some? {
        notes := notes + [word + "ing " + Decimal(i + 1) + "/" + Decimal(|handled|) + " emails"];
      }
    }
    assert handled[..|handled|] == handled;
  }

  /** When every call of the sweep goes through, each message gets its own progress line, numbered in order. */
  lemma {:induction false} AllDoneReportsEveryMessage(word: string, handled: seq<Handled>, total: nat)
    requires forall i | 0 <= i < |handled| :: handled[i].outcome.value.Some?
    ensures var notes := DoneNotes(word, handled, total);
            |notes| == |handled| &&
            forall i | 0 <= i < |handled| :: notes[i] == word + "ing " + Decimal(i + 1) + "/" + Decimal(total) + " emails"
  {
    if handled != [] {
      AllDoneReportsEveryMessage(word, handled[..|handled| - 1], total);
    }
  }

  /** A message whose calls all failed gets no progress line. */
  lemma {:induction false} DoneNotesCountSuccesses(word: string, handled: seq<Handled>, total: nat)
    ensures |DoneNotes(word, handled, total)| <= |handled|
    ensures (forall i | 0 <= i < |handled| :: handled[i].outcome.value.None?) ==> DoneNotes(word, handled, total) == []
  {
    if handled != [] {
      DoneNotesCountSuccesses(word, handled[..|handled| - 1], total);
    }
  }

  /**
   * Every message is visited, in order, with the call its action names, and its
   * retries obey the policy: between one and `maxRetries` attempts, each failed one
   * a 429/503 followed by a wait of `2^attempt`, the last one deciding.
   */
  lemma SweepVisitsEveryMessage(messages: seq<MessageRef>, action: Action, maxRetries: int,
                                mutate: (nat, nat) -> CallOutcome<()>, i: nat)
    requires i < |messages| && maxRetries > 0
    ensures var h := Sweep(messages, action, maxRetries, mutate);
            && |h| == |messages|
            && h[i].request == RequestFor(action, messages[i].id)
            && 1 <= h[i].outcome.calls <= maxRetries
            && |h[i].outcome.waits| == h[i].outcome.calls - 1
            && (forall j | 0 <= j < |h[i].outcome.waits| :: h[i].outcome.waits[j] == Pow2(j))
            && (action != NoAction ==>
                  && (forall k | 0 <= k < h[i].outcome.calls - 1 :: IsTransientFailure(mutate(i, k)))
                  && (h[i].outcome.value.Some? <==> mutate(i, h[i].outcome.calls - 1).Success?))
  {
    var attempts := AttemptsAt(action, i, mutate);
    RetryShape(attempts, maxRetries);
    if action != NoAction {
      forall k: nat ensures attempts(k) == mutate(i, k) {
      }
    }
  }

  /**
   * Failures are isolated: how message `i` fares depends only on the outcomes of
   * its own calls, whatever happened to any other message.
   */
  lemma FailureIsIsolated(messages: seq<MessageRef>, action: Action, maxRetries: int,
                          m1: (nat, nat) -> CallOutcome<()>, m2: (nat, nat) -> CallOutcome<()>, i: nat)
    requires i < |messages|
    requires forall k :: m1(i, k) == m2(i, k)
    ensures Sweep(messages, action, maxRetries, m1)[i] == Sweep(messages, action, maxRetries, m2)[i]
  {
    var f, g := AttemptsAt(action, i, m1), AttemptsAt(action, i, m2);
    forall k: nat ensures f(k) == g(k) {
    }
    RetryFromSameResponses(f, g, maxRetries, 0);
  }

  /** A permanent failure on the first call abandons that message after one call and no wait. */
  lemma PermanentFailureAbandonsMessage(messages: seq<MessageRef>, action: Action, maxRetries: int,
                                        mutate: (nat, nat) -> CallOutcome<()>, i: nat)
    requires i < |messages| && maxRetries > 0 && action != NoAction
    requires mutate(i, 0).OtherError? || (mutate(i, 0).HttpStatus? && !IsTransient(mutate(i, 0).code))
    ensures Sweep(messages, action, maxRetries, mutate)[i].outcome == RetryOutcome(None, 1, [])
  {
    PermanentFailureStopsAtOnce(AttemptsAt(action, i, mutate), maxRetries);
  }

  /** An action other than delete or archive sends nothing and counts every message as done. */
  lemma UnknownActionSendsNothing(messages: seq<MessageRef>, action: string, maxRetries: int,
                                  mutate: (nat, nat) -> CallOutcome<()>)
    requires AsciiLower(action) != "delete" && AsciiLower(action) != "archive"
    requires maxRetries > 0
    ensures forall h | h in Sweep(messages, ActionOf(action), maxRetries, mutate) ::
              h == Handled(None, RetryOutcome(Some(()), 1, []))
  {
  }

  /** The simple script's sweep from message `i` on: the calls sent, and whether one raised. */
  function SimpleSweepFrom(messages: seq<MessageRef>, action: Action, mutate: nat -> CallOutcome<()>, i: nat)
    : (seq<RemoteCall>, bool)
    requires i <= |messages|
    decreases |messages| - i
  {
    if i == |messages| then ([], false)
    else
      match RequestFor(action, messages[i].id)
      case None => SimpleSweepFrom(messages, action, mutate, i + 1)
      case Some(call) =>
        if mutate(i).Success? then
          var rest := SimpleSweepFrom(messages, action, mutate, i + 1);
          ([call] + rest.0, rest.1)
        else ([call], true)
  }

  /** `delete_or_archive_emails` of the simple script; `crashed` is the escaping exception. */
  method SimpleDeleteOrArchive(messages: seq<MessageRef>, action: string, mutate: nat -> CallOutcome<()>)
    returns (sent: seq<RemoteCall>, crashed: bool)
    ensures (sent, crashed) == SimpleSweepFrom(messages, ActionOf(action), mutate, 0)
  {
    var act := ActionOf(action);
    sent, crashed := [], false;
    assert sent + SimpleSweepFrom(messages, act, mutate, 0).0 == SimpleSweepFrom(messages, act, mutate, 0).0;
    for i := 0 to |messages|
      invariant var rest := SimpleSweepFrom(messages, act, mutate, i);
                SimpleSweepFrom(messages, act, mutate, 0) == (sent + rest.0, rest.1)
    {
      var request := RequestFor(act, messages[i].id);
      if request.Some? {
        var rest := SimpleSweepFrom(messages, act, mutate, i + 1);
        if !mutate(i).Success? {
          sent := sent + [request.value];
          crashed := true;
          return;
        }
        assert sent + ([request.value] + rest.0) == (sent + [request.value]) + rest.0;
        sent := sent + [request.value];
      }
    }
    assert sent + [] == sent;
  }

  /**
   * The simple sweep sends the calls of a prefix of the messages, in order. All but
   * the last succeeded; it crashed exactly when the last one failed, and only a
   * crash leaves messages unvisited.
   */
  lemma {:induction false} SimpleSweepStopsAtFirstFailure(messages: seq<MessageRef>, action: Action,
                                                          mutate: nat -> CallOutcome<()>, i: nat)
    requires i <= |messages| && action != NoAction
    ensures var (sent, crashed) := SimpleSweepFrom(messages, action, mutate, i);
            && i + |sent| <= |messages|
            && (forall j | 0 <= j < |sent| :: Some(sent[j]) == RequestFor(action, messages[i + j].id))
            && (forall j | i <= j < i + |sent| - 1 :: mutate(j).Success?)
            && (crashed <==> |sent| > 0 && !mutate(i + |sent| - 1).Success?)
            && (!crashed ==> i + |sent| == |messages|)
    decreases |messages| - i
  {
    if i < |messages| {
      SimpleSweepStopsAtFirstFailure(messages, action, mutate, i + 1);
      var rest := SimpleSweepFrom(messages, action, mutate, i + 1);
      if mutate(i).Success? {
        var sent := SimpleSweepFrom(messages, action, mutate, i).0;
        assert sent == [RequestFor(action, messages[i].id).value] + rest.0;
        forall j | 0 <= j < |sent| ensures Some(sent[j]) == RequestFor(action, messages[i + j].id) {
          if j > 0 {
            assert sent[j] == rest.0[j - 1];
          }
        }
        assert |sent| == 1 + |rest.0|;
      }
    }
  }
}
