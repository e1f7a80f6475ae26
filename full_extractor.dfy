/**
 * The command-line full script: `get_email_details` with the five-field record,
 * and `main`, which lists the sender's messages, fetches the ones the ledger does
 * not hold, appends them to `csv_directory/emails_from_<local part>.csv`, then
 * deletes or archives every listed message when asked to.
 */
module FullExtractor {
  import opened Mail
  import opened Text
  import opened QueryBuilder
  import opened Backoff
  import opened Fetch
  import opened MimeBody
  import opened Ledger
  import opened Incremental
  import opened Mutator
  import opened Inputs

  /**
   * `get_email_details` of the full and GUI scripts: `None` exactly when the get
   * call fails; otherwise the requested id, the first Subject, From and Date
   * headers (or '') and the plain-text body.
   */
  function EmailDetails(decode: Decoder, get: GetCall, id: string): (r: Option<Email>)
    ensures r.None? <==> !get(id).Success?
    ensures r.Some? ==> r.value.id == id
    ensures r.Some? ==> r.value.body == BodyText(decode, get(id).value.payload)
    ensures r.Some? ==> r.value.subject == HeaderValue(get(id).value.headers, "Subject")
    ensures r.Some? ==> r.value.sender == HeaderValue(get(id).value.headers, "From")
    ensures r.Some? ==> r.value.date == HeaderValue(get(id).value.headers, "Date")
  {
    match get(id)
    case Success(m) =>
      Some(Email(id, HeaderValue(m.headers, "Date"), HeaderValue(m.headers, "From"),
                 HeaderValue(m.headers, "Subject"), BodyText(decode, m.payload)))
    case _ => None
  }

  function Details(decode: Decoder, get: GetCall): string -> Option<Email> {
    id => EmailDetails(decode, get, id)
  }

  /** `os.path.join(csv_directory, f"emails_from_{sender.split('@')[0]}.csv")`. */
  function CsvPath(csvDirectory: string, sender: string): (path: string)
    ensures var name := "emails_from_" + BeforeFirst(sender, '@') + ".csv";
            csvDirectory <= path && |path| >= |name| && path[|path| - |name|..] == name
  {
    PathJoin(csvDirectory, "emails_from_" + BeforeFirst(sender, '@') + ".csv")
  }

  /** What a run of `main` did. */
  datatype Run = Run(
    csvPath: string,
    messages: seq<MessageRef>, listCalls: nat, listWaits: seq<nat>,
    ledgerRead: bool,
    requested: seq<string>,
    exported: seq<Email>,
    diskAfter: Disk,
    mutation: seq<Handled>)

  /** `main`, as a function of the inputs, the remote oracles and the disk; an invalid date escapes as a crash. */
  function MainOutcome(csvDirectory: string, sender: string, startText: string, endText: string, choice: string,
                       parseIso: IsoDateParser, decode: Decoder,
                       list: (string, nat) -> CallOutcome<ListResponse>, get: GetCall,
                       mutate: (nat, nat) -> CallOutcome<()>, disk: Disk): Result<Run>
  {
    var start, end := OptionalDate(startText, parseIso), OptionalDate(endText, parseIso);
    if start.None? || end.None? then Crash
    else
      var path := CsvPath(csvDirectory, sender);
      var listing := Retry(ListCall(list, BuildQuery(sender, start.value, end.value)), MaxRetries);
      var messages := MessagesOf(listing);
      if messages == [] then Ok(Run(path, messages, listing.calls, listing.waits, false, [], [], disk, []))
      else
        var requested := Candidates(messages, LedgerOf(FileAt(disk, path)));
        var exported := Present(FetchAll(Details(decode, get), requested));
        Ok(Run(path, messages, listing.calls, listing.waits, true, requested, exported,
               DiskAfterExport(disk, path, exported), MutationFor(choice, messages, MaxRetries, mutate)))
  }

  /** `main`. */
  method RunMain(csvDirectory: string, sender: string, startText: string, endText: string, choice: string,
                 parseIso: IsoDateParser, decode: Decoder,
                 list: (string, nat) -> CallOutcome<ListResponse>, get: GetCall,
                 mutate: (nat, nat) -> CallOutcome<()>, disk: Disk)
    returns (r: Result<Run>)
    ensures r == MainOutcome(csvDirectory, sender, startText, endText, choice, parseIso, decode, list, get, mutate, disk)
  {
    var start := OptionalDate(startText, parseIso);
    var end := OptionalDate(endText, parseIso);
    if start.None? || end.None? {
      return Crash;
    }
    var path := CsvPath(csvDirectory, sender);
    var messages, calls, waits := GetEmails(list, sender, start.value, end.value, MaxRetries);
    if messages == [] {
      return Ok(Run(path, messages, calls, waits, false, [], [], disk, []));
    }
    var ledger := ReadExistingIds(FileAt(disk, path));
    var newEmails, requested := CollectNew(messages, ledger, Details(decode, get));
    var diskAfter := disk;
    if newEmails != [] {
      var after, notes := ExportToCsv(FileAt(disk, path), [Cells(Fieldnames)], Somes(newEmails));
      PresentOfSomes(newEmails);
      diskAfter := disk[path := after];
    }
    var mutation: seq<Handled> := [];
    ActionNames();
    if choice == "2" {
      mutation := DeleteOrArchive(messages, "delete", MaxRetries, mutate);
    } else if choice == "3" {
      mutation := DeleteOrArchive(messages, "archive", MaxRetries, mutate);
    }
    return Ok(Run(path, messages, calls, waits, true, requested, newEmails, diskAfter, mutation));
  }

  /** An empty listing ends the run before the ledger is read: nothing is fetched, written or mutated. */
  lemma EmptyListingEndsRun(csvDirectory: string, sender: string, startText: string, endText: string, choice: string,
                            parseIso: IsoDateParser, decode: Decoder,
                            list: (string, nat) -> CallOutcome<ListResponse>, get: GetCall,
                            mutate: (nat, nat) -> CallOutcome<()>, disk: Disk)
    ensures var r := MainOutcome(csvDirectory, sender, startText, endText, choice, parseIso, decode, list, get, mutate, disk);
            r.Ok? && r.value.messages == [] ==>
              !r.value.ledgerRead && r.value.requested == [] && r.value.diskAfter == disk && r.value.mutation == []
  {
  }

  /**
   * Delete and archive act on the whole listing, whatever the ledger held and
   * whether or not anything was exported.
   */
  lemma MutationCoversWholeListing(csvDirectory: string, sender: string, startText: string, endText: string, choice: string,
                                   parseIso: IsoDateParser, decode: Decoder,
                                   list: (string, nat) -> CallOutcome<ListResponse>, get: GetCall,
                                   mutate: (nat, nat) -> CallOutcome<()>, disk: Disk)
    requires choice == "2" || choice == "3"
    ensures var r := MainOutcome(csvDirectory, sender, startText, endText, choice, parseIso, decode, list, get, mutate, disk);
            r.Ok? ==>
              && |r.value.mutation| == |r.value.messages|
              && forall i | 0 <= i < |r.value.messages| ::
                   r.value.mutation[i].request ==
                     Some(if choice == "2" then Trash(r.value.messages[i].id) else RemoveInboxLabel(r.value.messages[i].id))
  {
  }

  /** Every exported record is a requested id that the ledger did not hold, fetched successfully. */
  lemma ExportedAreNewRequestedIds(decode: Decoder, get: GetCall, messages: seq<MessageRef>, ledger: set<string>)
    ensures var requested := Candidates(messages, ledger);
            forall e | e in Present(FetchAll(Details(decode, get), requested)) ::
              e.id in requested && e.id in ListedIds(messages) && e.id !in ledger && get(e.id).Success?
  {
    var requested := Candidates(messages, ledger);
    PresentComesFromFetch(Details(decode, get), requested);
    CandidatesAreSetDifference(messages, ledger);
    forall e | e in Present(FetchAll(Details(decode, get), requested))
      ensures e.id in requested && get(e.id).Success?
    {
      var i :| 0 <= i < |requested| && Details(decode, get)(requested[i]) == Some(e);
      assert EmailDetails(decode, get, requested[i]) == Some(e);
    }
  }

  /** When every requested fetch succeeds, the ids of the exported records are exactly the requested ids. */
  lemma AllFetchedExportsAll(decode: Decoder, get: GetCall, requested: seq<string>)
    requires forall id | id in requested :: get(id).Success?
    ensures forall i | 0 <= i < |requested| :: requested[i] in IdsOf(Present(FetchAll(Details(decode, get), requested)))
  {
    var fetch := Details(decode, get);
    forall i | 0 <= i < |requested| ensures fetch(requested[i]).Some? {
      assert requested[i] in requested;
      assert fetch(requested[i]) == EmailDetails(decode, get, requested[i]);
    }
    NoFailureKeepsAll(fetch, requested);
    var kept := Present(FetchAll(fetch, requested));
    forall i | 0 <= i < |requested| ensures requested[i] in IdsOf(kept) {
      assert fetch(requested[i]) == Some(kept[i]);
      assert EmailDetails(decode, get, requested[i]) == Some(kept[i]);
      assert kept[i].id in IdsOf(kept);
    }
  }

  /**
   * The round trip of the ledger: after a run over a clean ledger file in which
   * every fetch succeeded, the file's ledger holds every listed id.
   */
  lemma LedgerCoversListingAfterRun(decode: Decoder, get: GetCall, messages: seq<MessageRef>, disk: Disk, path: string)
    requires Clean(FileAt(disk, path))
    requires forall id | id in Candidates(messages, LedgerOf(FileAt(disk, path))) :: get(id).Success?
    ensures var requested := Candidates(messages, LedgerOf(FileAt(disk, path)));
            var after := DiskAfterExport(disk, path, Present(FetchAll(Details(decode, get), requested)));
            && Clean(FileAt(after, path))
            && forall i | 0 <= i < |messages| :: messages[i].id in LedgerOf(FileAt(after, path))
  {
    var ledger := LedgerOf(FileAt(disk, path));
    var requested := Candidates(messages, ledger);
    var exported := Present(FetchAll(Details(decode, get), requested));
    var after := DiskAfterExport(disk, path, exported);
    CandidatesAreSetDifference(messages, ledger);
    AllFetchedExportsAll(decode, get, requested);
    if exported == [] {
      assert FileAt(after, path) == FileAt(disk, path);
      assert requested == [] by {
        NoFailureKeepsAll(Details(decode, get), requested);
      }
      forall i | 0 <= i < |messages| ensures messages[i].id in ledger {
        assert messages[i].id in ListedIds(messages);
      }
    } else {
      AppendedRowsReadBack(FileAt(disk, path), exported);
      assert FileAt(after, path) == Some(Appended(FileAt(disk, path), [Cells(Fieldnames)], EmailRows(exported)));
      forall i | 0 <= i < |messages| ensures messages[i].id in LedgerOf(FileAt(after, path)) {
        assert messages[i].id in ListedIds(messages);
        if messages[i].id !in ledger {
          var k :| 0 <= k < |requested| && requested[k] == messages[i].id;
        }
      }
    }
  }

  /**
   * Idempotence of `main`: run it again on the disk it left, against the same
   * mailbox, and when the first run's fetches all succeeded the second run finds
   * nothing new and leaves the disk as it was.
   */
  lemma RerunFindsNothingNew(csvDirectory: string, sender: string, startText: string, endText: string, choice: string,
                             parseIso: IsoDateParser, decode: Decoder,
                             list: (string, nat) -> CallOutcome<ListResponse>, get: GetCall,
                             mutate: (nat, nat) -> CallOutcome<()>, disk: Disk)
    requires Clean(FileAt(disk, CsvPath(csvDirectory, sender)))
    requires var r := MainOutcome(csvDirectory, sender, startText, endText, choice, parseIso, decode, list, get, mutate, disk);
             r.Ok? && forall id | id in r.value.requested :: get(id).Success?
    ensures var r := MainOutcome(csvDirectory, sender, startText, endText, choice, parseIso, decode, list, get, mutate, disk);
            var again := MainOutcome(csvDirectory, sender, startText, endText, choice, parseIso, decode, list, get, mutate, r.value.diskAfter);
            && again.Ok?
            && again.value.messages == r.value.messages
            && again.value.requested == []
            && again.value.exported == []
            && again.value.diskAfter == r.value.diskAfter
  {
    var r := MainOutcome(csvDirectory, sender, startText, endText, choice, parseIso, decode, list, get, mutate, disk);
    var path := CsvPath(csvDirectory, sender);
    var messages := r.value.messages;
    if messages != [] {
      LedgerCoversListingAfterRun(decode, get, messages, disk, path);
      NothingNewOnceAllRecorded(messages, LedgerOf(FileAt(r.value.diskAfter, path)));
    }
  }
}
