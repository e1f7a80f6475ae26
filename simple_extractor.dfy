/**
 * The simple script: one list call with the bare `from:` query, a body taken from
 * the first part only with strict UTF-8 decoding, the strict ledger reader, an
 * export of every fetched record, and a mutation sweep without retries. No step
 * catches an exception, so any failure ends the script (`Crash`).
 */
module SimpleExtractor {
  import opened Mail
  import opened Text
  import opened QueryBuilder
  import opened Ledger
  import opened Incremental
  import opened Mutator

  /** `messages().list(userId='me', q=…).execute()`, called once. */
  type ListOnce = string -> CallOutcome<ListResponse>

  /** `get_emails`: the query is `from:` and the sender, with no date bounds; a failed call escapes. */
  function SimpleQuery(sender: string): (q: string)
    ensures q == BuildQuery(sender, None, None)
  {
    "from:" + sender
  }

  method GetEmails(list: ListOnce, sender: string) returns (r: Result<seq<MessageRef>>)
    ensures list(BuildQuery(sender, None, None)).Success? ==>
              r == Ok(list(BuildQuery(sender, None, None)).value.messages.GetOr([]))
    ensures !list(BuildQuery(sender, None, None)).Success? ==> r == Crash
  {
    match list(SimpleQuery(sender)) {
      case Success(results) => r := Ok(results.messages.GetOr([]));
      case _ => r := Crash;
    }
  }

  /**
   * The text the body is decoded from: the data of `parts[0]` whatever its type
   * for a container (an empty parts list raises IndexError), the payload's own
   * data otherwise, '' where there is none.
   */
  function FirstPartData(payload: Part): (r: Result<string>)
    ensures r.Crash? <==> payload.Container? && payload.parts == []
    ensures payload.Container? && payload.parts != [] ==> r == Ok(payload.parts[0].data.GetOr(""))
    ensures payload.Leaf? ==> r == Ok(payload.data.GetOr(""))
  {
    match payload
    case Container(_, _, _, parts) => if parts == [] then Crash else Ok(parts[0].data.GetOr(""))
    case Leaf(_, _, data) => Ok(data.GetOr(""))
  }

  /** `base64.urlsafe_b64decode(data).decode('utf-8') if data else ''`, with strict decoding. */
  function BodyOf(decodeStrict: Decoder, data: string): (r: Result<string>)
    ensures data == "" ==> r == Ok("")
    ensures data != "" ==> (r.Crash? <==> decodeStrict(data).None?)
    ensures data != "" && r.Ok? ==> Some(r.value) == decodeStrict(data)
  {
    if data == "" then Ok("")
    else
      match decodeStrict(data)
      case Some(t) => Ok(t)
      case None => Crash
  }

  /** `get_email_details` of the simple script. */
  function SimpleDetails(decodeStrict: Decoder, get: GetCall, id: string): (r: Result<Email>)
    ensures !get(id).Success? ==> r.Crash?
    ensures r.Ok? ==> r.value.id == id
    ensures r.Ok? ==> r.value.subject == HeaderValue(get(id).value.headers, "Subject")
    ensures r.Ok? ==> r.value.sender == HeaderValue(get(id).value.headers, "From")
    ensures r.Ok? ==> r.value.date == HeaderValue(get(id).value.headers, "Date")
    ensures get(id).Success? ==>
              var data := FirstPartData(get(id).value.payload);
              r.Ok? <==> data.Ok? && BodyOf(decodeStrict, data.value).Ok?
    ensures r.Ok? ==> r.value.body == BodyOf(decodeStrict, FirstPartData(get(id).value.payload).value).value
  {
    match get(id)
    case Success(m) =>
      (match FirstPartData(m.payload)
       case Crash => Crash
       case Ok(data) =>
         match BodyOf(decodeStrict, data)
         case Crash => Crash
         case Ok(body) =>
           Ok(Email(id, HeaderValue(m.headers, "Date"), HeaderValue(m.headers, "From"),
                    HeaderValue(m.headers, "Subject"), body)))
    case _ => Crash
  }

  /**
   * The body is the first part's text whatever its type: a message whose first part
   * is HTML gets that HTML as its body, and later plain-text parts are never read.
   */
  lemma FirstPartWinsWhateverItsType(decodeStrict: Decoder, get: GetCall, id: string, text: string)
    requires get(id).Success? && get(id).value.payload.Container?
    requires var parts := get(id).value.payload.parts;
             parts != [] && parts[0].data.Some? && parts[0].data.value != "" &&
             decodeStrict(parts[0].data.value) == Some(text)
    ensures SimpleDetails(decodeStrict, get, id).Ok?
    ensures SimpleDetails(decodeStrict, get, id).value.body == text
  {
  }

  /** Every fetch succeeds, or the first failure ends the loop. */
  function Collected(results: seq<Result<Email>>): Result<seq<Email>> {
    if results == [] then Ok([])
    else
      var init := Collected(results[..|results| - 1]);
      var last := results[|results| - 1];
      if init.Crash? || last.Crash? then Crash else Ok(init.value + [last.value])
  }

  /** The loop succeeds exactly when every fetch does, and then keeps every record, in order. */
  lemma {:induction false} CollectedAllOrNothing(results: seq<Result<Email>>)
    ensures Collected(results).Ok? <==> forall i | 0 <= i < |results| :: results[i].Ok?
    ensures Collected(results).Ok? ==>
              |Collected(results).value| == |results| &&
              forall i | 0 <= i < |results| :: results[i] == Ok(Collected(results).value[i])
  {
    if results != [] {
      var init := results[..|results| - 1];
      CollectedAllOrNothing(init);
      assert forall i | 0 <= i < |init| :: init[i] == results[i];
    }
  }

  /** One more successful fetch extends the collected records. */
  lemma CollectedSnoc(results: seq<Result<Email>>, e: Email)
    requires Collected(results).Ok?
    ensures Collected(results + [Ok(e)]) == Ok(Collected(results).value + [e])
  {
    assert (results + [Ok(e)])[..|results|] == results;
  }

  /** A failed fetch anywhere makes the whole loop fail. */
  lemma CollectedCrash(results: seq<Result<Email>>, k: nat)
    requires k < |results| && results[k].Crash?
    ensures Collected(results).Crash?
  {
    CollectedAllOrNothing(results);
  }

  /** The loop of `main` that fetches every id missing from the ledger, with no `None` filtering. */
  method CollectAll(messages: seq<MessageRef>, ledger: set<string>, fetch: string -> Result<Email>)
    returns (r: Result<seq<Email>>)
    ensures r == Collected(FetchAll(fetch, Candidates(messages, ledger)))
  {
    var emails: seq<Email> := [];
    for i := 0 to |messages|
      invariant Collected(FetchAll(fetch, Candidates(messages[..i], ledger))) == Ok(emails)
    {
      var id := messages[i].id;
      if id in ledger {
        CollectSkips(messages, ledger, fetch, i);
      } else {
        match fetch(id) {
          case Crash =>
            CollectCrashes(messages, ledger, fetch, i);
            return Crash;
          case Ok(e) =>
            CollectKeeps(messages, ledger, fetch, i, emails);
            emails := emails + [e];
        }
      }
    }
    assert messages[..|messages|] == messages;
    return Ok(emails);
  }

  /** An id already in the ledger is skipped. */
  lemma CollectSkips(messages: seq<MessageRef>, ledger: set<string>, fetch: string -> Result<Email>, i: nat)
    requires i < |messages| && messages[i].id in ledger
    ensures FetchAll(fetch, Candidates(messages[..i + 1], ledger)) == FetchAll(fetch, Candidates(messages[..i], ledger))
  {
    CandidatesStep(messages, ledger, i);
  }

  /** A new id whose fetch succeeds adds its record. */
  lemma CollectKeeps(messages: seq<MessageRef>, ledger: set<string>, fetch: string -> Result<Email>, i: nat,
                     emails: seq<Email>)
    requires i < |messages| && messages[i].id !in ledger && fetch(messages[i].id).Ok?
    requires Collected(FetchAll(fetch, Candidates(messages[..i], ledger))) == Ok(emails)
    ensures Collected(FetchAll(fetch, Candidates(messages[..i + 1], ledger))) == Ok(emails + [fetch(messages[i].id).value])
  {
    var cands := Candidates(messages[..i], ledger);
    var id := messages[i].id;
    CandidatesStep(messages, ledger, i);
    FetchAllAppend(fetch, cands, [id]);
    CollectedSnoc(FetchAll(fetch, cands), fetch(id).value);
  }

  /** A fetch that raises makes the whole loop raise, whatever comes after it. */
  lemma CollectCrashes(messages: seq<MessageRef>, ledger: set<string>, fetch: string -> Result<Email>, i: nat)
    requires i < |messages| && messages[i].id !in ledger && fetch(messages[i].id).Crash?
    ensures Collected(FetchAll(fetch, Candidates(messages, ledger))) == Crash
  {
    var cands := Candidates(messages[..i], ledger);
    var id := messages[i].id;
    CandidatesStep(messages, ledger, i);
    CandidatesAppend(messages[..i + 1], messages[i + 1..], ledger);
    assert messages[..i + 1] + messages[i + 1..] == messages;
    var all := Candidates(messages, ledger);
    FetchAllAppend(fetch, cands + [id], Candidates(messages[i + 1..], ledger));
    assert FetchAll(fetch, all)[|cands|] == Crash;
    CollectedCrash(FetchAll(fetch, all), |cands|);
  }

  /** `f"emails_from_{sender.split('@')[0]}.csv"`, relative to the working directory. */
  function CsvName(sender: string): string {
    "emails_from_" + BeforeFirst(sender, '@') + ".csv"
  }

  /** What a run of `main` did, up to the sweep, which may still raise after the export. */
  datatype SimpleRun = SimpleRun(
    messages: seq<MessageRef>,
    exported: seq<Email>,
    diskAfter: Disk,
    sent: seq<RemoteCall>,
    sweepCrashed: bool)

  function SweepFor(choice: string, messages: seq<MessageRef>, mutate: nat -> CallOutcome<()>): (seq<RemoteCall>, bool) {
    if choice == "2" then SimpleSweepFrom(messages, Delete, mutate, 0)
    else if choice == "3" then SimpleSweepFrom(messages, Archive, mutate, 0)
    else ([], false)
  }

  /** `main` of the simple script; `Crash` is an exception escaping before anything is written. */
  function SimpleOutcome(sender: string, choice: string, decodeStrict: Decoder, list: ListOnce, get: GetCall,
                         mutate: nat -> CallOutcome<()>, disk: Disk): Result<SimpleRun>
  {
    var path := CsvName(sender);
    var listing := list(BuildQuery(sender, None, None));
    if !listing.Success? then Crash
    else
      var messages := listing.value.messages.GetOr([]);
      if messages == [] then Ok(SimpleRun(messages, [], disk, [], false))
      else
        match StrictLedgerOf(FileAt(disk, path))
        case Crash => Crash
        case Ok(ledger) =>
          match Collected(FetchAll(id => SimpleDetails(decodeStrict, get, id), Candidates(messages, ledger)))
          case Crash => Crash
          case Ok(emails) =>
            var diskAfter := DiskAfterExport(disk, path, emails);
            var sweep := SweepFor(choice, messages, mutate);
            Ok(SimpleRun(messages, emails, diskAfter, sweep.0, sweep.1))
  }

  /** `main`. */
  method RunMain(sender: string, choice: string, decodeStrict: Decoder, list: ListOnce, get: GetCall,
                 mutate: nat -> CallOutcome<()>, disk: Disk)
    returns (r: Result<SimpleRun>)
    ensures r == SimpleOutcome(sender, choice, decodeStrict, list, get, mutate, disk)
  {
    var path := CsvName(sender);
    var listed := GetEmails(list, sender);
    if listed.Crash? {
      return Crash;
    }
    var messages := listed.value;
    if messages == [] {
      return Ok(SimpleRun(messages, [], disk, [], false));
    }
    var ledger := ReadExistingIdsStrict(FileAt(disk, path));
    if ledger.Crash? {
      return Crash;
    }
    var collected := CollectAll(messages, ledger.value, id => SimpleDetails(decodeStrict, get, id));
    if collected.Crash? {
      return Crash;
    }
    var emails := collected.value;
    var diskAfter := disk;
    if emails != [] {
      var after, _ := ExportToCsv(FileAt(disk, path), [Cells(Fieldnames)], Somes(emails));
      PresentOfSomes(emails);
      diskAfter := disk[path := after];
    }
    var sent: seq<RemoteCall> := [];
    var crashed := false;
    ActionNames();
    if choice == "2" {
      sent, crashed := SimpleDeleteOrArchive(messages, "delete", mutate);
    } else if choice == "3" {
      sent, crashed := SimpleDeleteOrArchive(messages, "archive", mutate);
    }
    return Ok(SimpleRun(messages, emails, diskAfter, sent, crashed));
  }

  /** Every id missing from the ledger is fetched and exported, in listing order: nothing is filtered out. */
  lemma ExportsEveryCandidate(decodeStrict: Decoder, get: GetCall, messages: seq<MessageRef>, ledger: set<string>)
    ensures var cands := Candidates(messages, ledger);
            var r := Collected(FetchAll(id => SimpleDetails(decodeStrict, get, id), cands));
            r.Ok? ==> |r.value| == |cands| && forall i | 0 <= i < |cands| :: r.value[i].id == cands[i]
  {
    var cands := Candidates(messages, ledger);
    var fetch := id => SimpleDetails(decodeStrict, get, id);
    var r := Collected(FetchAll(fetch, cands));
    CollectedAllOrNothing(FetchAll(fetch, cands));
    if r.Ok? {
      forall i | 0 <= i < |cands| ensures r.value[i].id == cands[i] {
        assert FetchAll(fetch, cands)[i] == Ok(r.value[i]);
        assert SimpleDetails(decodeStrict, get, cands[i]) == Ok(r.value[i]);
      }
    }
  }

  /**
   * Exporting one record per missing id, in order, onto a clean ledger file keeps
   * the file clean and leaves every listed id in its ledger.
   */
  lemma ExportCoversListing(messages: seq<MessageRef>, disk: Disk, path: string, emails: seq<Email>)
    requires Clean(FileAt(disk, path))
    requires var cands := Candidates(messages, LedgerOf(FileAt(disk, path)));
             |emails| == |cands| && forall i | 0 <= i < |cands| :: emails[i].id == cands[i]
    ensures Clean(FileAt(DiskAfterExport(disk, path, emails), path))
    ensures forall i | 0 <= i < |messages| :: messages[i].id in LedgerOf(FileAt(DiskAfterExport(disk, path, emails), path))
  {
    var ledger := LedgerOf(FileAt(disk, path));
    var cands := Candidates(messages, ledger);
    var after := DiskAfterExport(disk, path, emails);
    CandidatesAreSetDifference(messages, ledger);
    if emails == [] {
      assert FileAt(after, path) == FileAt(disk, path);
      forall i | 0 <= i < |messages| ensures messages[i].id in ledger {
        assert messages[i].id in ListedIds(messages);
      }
    } else {
      AppendedRowsReadBack(FileAt(disk, path), emails);
      assert FileAt(after, path) == Some(Appended(FileAt(disk, path), [Cells(Fieldnames)], EmailRows(emails)));
      forall i | 0 <= i < |messages| ensures messages[i].id in LedgerOf(FileAt(after, path)) {
        assert messages[i].id in ListedIds(messages);
        if messages[i].id !in ledger {
          var k :| 0 <= k < |cands| && cands[k] == messages[i].id;
          assert emails[k] in emails;
        }
      }
    }
  }

  /**
   * The round trip of the simple script: after a run that raised nothing before the
   * sweep, on a clean ledger file, a second run against the same mailbox finds
   * nothing new and leaves the file as it was.
   */
  lemma RerunFindsNothingNew(sender: string, choice: string, decodeStrict: Decoder, list: ListOnce, get: GetCall,
                             mutate: nat -> CallOutcome<()>, disk: Disk)
    requires Clean(FileAt(disk, CsvName(sender)))
    requires SimpleOutcome(sender, choice, decodeStrict, list, get, mutate, disk).Ok?
    ensures var r := SimpleOutcome(sender, choice, decodeStrict, list, get, mutate, disk).value;
            var again := SimpleOutcome(sender, choice, decodeStrict, list, get, mutate, r.diskAfter);
            && again.Ok?
            && again.value.messages == r.messages
            && again.value.exported == []
            && again.value.diskAfter == r.diskAfter
  {
    var r := SimpleOutcome(sender, choice, decodeStrict, list, get, mutate, disk).value;
    var path := CsvName(sender);
    if r.messages != [] {
      CleanReadsStrictly(FileAt(disk, path));
      ExportsEveryCandidate(decodeStrict, get, r.messages, LedgerOf(FileAt(disk, path)));
      ExportCoversListing(r.messages, disk, path, r.exported);
      CleanReadsStrictly(FileAt(r.diskAfter, path));
      NothingNewOnceAllRecorded(r.messages, LedgerOf(FileAt(r.diskAfter, path)));
    }
  }
}
