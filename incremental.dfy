/**
 * The filtering step of every script: walk the listed messages in order, and for
 * each id not already in the ledger fetch its details, keeping what the fetch
 * returned. `fetch` is the script's `get_email_details` with the remote call
 * already fixed; `None` is a failed fetch, which the full variants drop.
 */
module Incremental {
  import opened Mail

  /** The ids of a listing, in order. */
  function ListedIds(messages: seq<MessageRef>): (ids: seq<string>)
    ensures |ids| == |messages|
    ensures forall i | 0 <= i < |messages| :: ids[i] == messages[i].id
  {
    seq(|messages|, i requires 0 <= i < |messages| => messages[i].id)
  }

  /** The ids of the listing not in the ledger, in listing order. */
  function Candidates(messages: seq<MessageRef>, ledger: set<string>): seq<string> {
    if messages == [] then []
    else
      var last := messages[|messages| - 1].id;
      Candidates(messages[..|messages| - 1], ledger) + (if last in ledger then [] else [last])
  }

  /** One turn of the filter: the next listed id is requested unless the ledger has it. */
  lemma CandidatesStep(messages: seq<MessageRef>, ledger: set<string>, i: nat)
    requires i < |messages|
    ensures Candidates(messages[..i + 1], ledger)
            == Candidates(messages[..i], ledger) + (if messages[i].id in ledger then [] else [messages[i].id])
  {
    assert messages[..i + 1][..i] == messages[..i];
  }

  /** One fetch per requested id, in order. */
  function FetchAll<R>(fetch: string -> R, ids: seq<string>): (results: seq<R>)
    ensures |results| == |ids|
    ensures forall i | 0 <= i < |ids| :: results[i] == fetch(ids[i])
  {
    seq(|ids|, i requires 0 <= i < |ids| => fetch(ids[i]))
  }

  /** Fetching two stretches of ids one after the other is fetching them together. */
  lemma FetchAllAppend<R>(fetch: string -> R, a: seq<string>, b: seq<string>)
    ensures FetchAll(fetch, a + b) == FetchAll(fetch, a) + FetchAll(fetch, b)
  {
  }

  /**
   * The loop `for msg in messages: if msg['id'] not in existing_ids: …`: the ids it
   * requests and the details it keeps.
   */
  method CollectNew<T>(messages: seq<MessageRef>, ledger: set<string>, fetch: string -> Option<T>)
    returns (kept: seq<T>, requested: seq<string>)
    ensures requested == Candidates(messages, ledger)
    ensures kept == Present(FetchAll(fetch, requested))
  {
    kept, requested := [], [];
    for i := 0 to |messages|
      invariant requested == Candidates(messages[..i], ledger)
      invariant kept == Present(FetchAll(fetch, requested))
    {
      assert messages[..i + 1][..i] == messages[..i];
      var id := messages[i].id;
      if id !in ledger {
        var details := fetch(id);
        assert FetchAll(fetch, requested + [id]) == FetchAll(fetch, requested) + [details];
        requested := requested + [id];
        if details.Some? {
          kept := kept + [details.value];
        }
      }
    }
    assert messages[..|messages|] == messages;
  }

  /** The candidates are exactly the listed ids outside the ledger: a set difference, kept in listing order. */
  lemma {:induction false} CandidatesAreSetDifference(messages: seq<MessageRef>, ledger: set<string>)
    ensures forall id :: id in Candidates(messages, ledger) <==> id in ListedIds(messages) && id !in ledger
  {
    if messages != [] {
      var init := messages[..|messages| - 1];
      CandidatesAreSetDifference(init, ledger);
      assert ListedIds(messages) == ListedIds(init) + [messages[|messages| - 1].id];
    }
  }

  /** Filtering a listing piece by piece gives the same candidates as filtering it whole. */
  lemma {:induction false} CandidatesAppend(a: seq<MessageRef>, b: seq<MessageRef>, ledger: set<string>)
    ensures Candidates(a + b, ledger) == Candidates(a, ledger) + Candidates(b, ledger)
  {
    if b == [] {
      assert a + b == a;
    } else {
      assert (a + b)[..|a + b| - 1] == a + b[..|b| - 1];
      CandidatesAppend(a, b[..|b| - 1], ledger);
    }
  }

  /** With an empty ledger every listed id is requested, in listing order. */
  lemma {:induction false} EmptyLedgerRequestsEverything(messages: seq<MessageRef>)
    ensures Candidates(messages, {}) == ListedIds(messages)
  {
    if messages != [] {
      var init := messages[..|messages| - 1];
      EmptyLedgerRequestsEverything(init);
      assert ListedIds(messages) == ListedIds(init) + [messages[|messages| - 1].id];
    }
  }

  /** A ledger that holds every listed id leaves nothing to fetch. */
  lemma NothingNewOnceAllRecorded(messages: seq<MessageRef>, ledger: set<string>)
    requires forall i | 0 <= i < |messages| :: messages[i].id in ledger
    ensures Candidates(messages, ledger) == []
  {
    CandidatesAreSetDifference(messages, ledger);
  }

  /** Every kept value comes from a successful fetch of some requested id. */
  lemma {:induction false} PresentComesFromFetch<T>(fetch: string -> Option<T>, ids: seq<string>)
    ensures |Present(FetchAll(fetch, ids))| <= |ids|
    ensures forall x | x in Present(FetchAll(fetch, ids)) :: exists i | 0 <= i < |ids| :: fetch(ids[i]) == Some(x)
  {
    if ids != [] {
      var init := ids[..|ids| - 1];
      assert FetchAll(fetch, ids)[..|ids| - 1] == FetchAll(fetch, init);
      PresentComesFromFetch(fetch, init);
      forall x | x in Present(FetchAll(fetch, ids))
        ensures exists i | 0 <= i < |ids| :: fetch(ids[i]) == Some(x)
      {
        if x in Present(FetchAll(fetch, init)) {
          var i :| 0 <= i < |init| && fetch(init[i]) == Some(x);
          assert ids[i] == init[i];
        } else {
          assert fetch(ids[|ids| - 1]) == Some(x);
        }
      }
    }
  }

  /** When no fetch fails, every requested id yields a value, in the same order. */
  lemma {:induction false} NoFailureKeepsAll<T>(fetch: string -> Option<T>, ids: seq<string>)
    requires forall i | 0 <= i < |ids| :: fetch(ids[i]).Some?
    ensures var vals := Present(FetchAll(fetch, ids));
            |vals| == |ids| && forall i | 0 <= i < |ids| :: fetch(ids[i]) == Some(vals[i])
  {
    if ids != [] {
      var init := ids[..|ids| - 1];
      assert FetchAll(fetch, ids)[..|ids| - 1] == FetchAll(fetch, init);
      NoFailureKeepsAll(fetch, init);
    }
  }
}
