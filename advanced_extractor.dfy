/**
 * The advanced script's worker and the button that starts it. `process_emails_thread`
 * lists the sender's messages, fetches the ones its ledger does not hold, then either
 * appends their five-field summaries to a CSV headed by a banner (mode 'simple') or
 * runs the full extraction into a folder of its own (any other mode), and finally
 * deletes or archives every listed message when asked to. What the thread puts on its
 * progress queue is recorded as a sequence of `Event`s.
 */
module AdvancedExtractor {
  import opened Mail
  import opened Text
  import opened QueryBuilder
  import opened Backoff
  import opened Fetch
  import opened Ledger
  import opened Incremental
  import opened Mutator
  import opened Inputs
  import opened AdvancedDetails
  import opened AdvancedExtraction

  /** How a closing message box is shown: 'info' or 'success'. */
  datatype Kind = Info | Succeeded

  /** One item put on the progress queue, without its percentage. */
  datatype Event = Status(text: string) | Progress(text: string) | Complete(text: string, kind: Kind)

  function Progresses(notes: seq<string>): (events: seq<Event>)
    ensures |events| == |notes|
    ensures forall i | 0 <= i < |notes| :: events[i] == Progress(notes[i])
  {
    seq(|notes|, i requires 0 <= i < |notes| => Progress(notes[i]))
  }

  /** `os.path.join(csv_directory, f"emails_from_{sender.replace(' ', '_')}")`. */
  function FolderPath(csvDirectory: string, sender: string): string {
    PathJoin(csvDirectory, OutputName(sender))
  }

  /** The CSV the thread reads its ledger from: inside the folder in mode 'full', in the CSV directory otherwise. */
  function CsvPath(csvDirectory: string, sender: string, mode: string): string {
    PathJoin(if mode == "full" then FolderPath(csvDirectory, sender) else csvDirectory, CsvName(sender))
  }

  /** `get_email_details` with the remote call fixed. */
  function Detailed(decode: Decoder, bytes: ByteDecoder, get: GetCall): string -> Option<DetailedEmail> {
    id => DetailsOf(decode, bytes, get, id)
  }

  /** The five fields `export_to_csv` keeps of a detailed record. */
  function Summary(d: DetailedEmail): Email {
    Email(d.id, d.date, d.sender, d.subject, d.body)
  }

  function Summaries(ds: seq<DetailedEmail>): (es: seq<Email>)
    ensures |es| == |ds|
    ensures forall i | 0 <= i < |ds| :: es[i] == Summary(ds[i])
  {
    seq(|ds|, i requires 0 <= i < |ds| => Summary(ds[i]))
  }

  /** What `export_to_csv` writes before the rows of a file it creates: the banner, then the header. */
  function SimplePreamble(sender: string, count: nat): seq<Line> {
    [Cells(Banner(sender, count)), Cells(Fieldnames)]
  }

  /** `f"Processing {i}/{total} messages"`, once per listed message. */
  function ProcessingNotes(total: nat): (notes: seq<string>)
    ensures |notes| == total
  {
    seq(total, i requires 0 <= i < total => "Processing " + Decimal(i + 1) + "/" + Decimal(total) + " messages")
  }

  // ---------------------------------------------------------------- the export step

  /** What the export step left behind: the CSV files, the attachment files, the extraction, the events. */
  datatype Export = Export(disk: Disk, blobs: Blobs, extraction: Option<Extraction>, events: seq<Event>)

  /**
   * `if new_emails: …`: nothing new is reported as such; mode 'simple' appends the
   * summaries (with banner and header when the file is new); any other mode writes
   * the folder's CSV afresh, the attachment files, the page and the JSON dump.
   */
  function ExportStep(parse: HeaderDateParser, sender: string, mode: string, folder: string, path: string,
                      exported: seq<DetailedEmail>, disk: Disk, blobs: Blobs): Export
  {
    if exported == [] then Export(disk, blobs, None, [Complete("No new emails found", Info)])
    else if mode == "simple" then
      var summaries := Summaries(exported);
      Export(disk[path := Appended(FileAt(disk, path), SimplePreamble(sender, |exported|), EmailRows(summaries))],
             blobs, None,
             Progresses(ExportNotes(Somes(summaries), |exported|) + ["Export complete"]) +
             [Complete("Exported " + Decimal(|exported|) + " new emails to " + path, Succeeded)])
    else
      var x := ExtractionOf(parse, exported, sender, folder, blobs);
      Export(disk[x.csvPath := x.csv], x.blobs, Some(x),
             Progresses(ExtractionNotes(|exported|)) + [Complete("Full extraction completed for " + sender, Succeeded)])
  }

  method ExportNew(parse: HeaderDateParser, sender: string, mode: string, folder: string, path: string,
                   newEmails: seq<DetailedEmail>, disk: Disk, blobs: Blobs)
    returns (step: Export)
    ensures step == ExportStep(parse, sender, mode, folder, path, newEmails, disk, blobs)
  {
    if newEmails == [] {
      return Export(disk, blobs, None, [Complete("No new emails found", Info)]);
    }
    if mode == "simple" {
      var summaries := Summaries(newEmails);
      var after, notes := ExportToCsv(FileAt(disk, path), SimplePreamble(sender, |newEmails|), Somes(summaries));
      PresentOfSomes(summaries);
      step := Export(disk[path := after], blobs, None,
                       Progresses(notes + ["Export complete"]) +
                       [Complete("Exported " + Decimal(|newEmails|) + " new emails to " + path, Succeeded)]);
    } else {
      var x, notes := FullExtract(parse, newEmails, sender, folder, blobs);
      step := Export(disk[x.csvPath := x.csv], x.blobs, Some(x),
                       Progresses(notes) + [Complete("Full extraction completed for " + sender, Succeeded)]);
    }
  }

  // ---------------------------------------------------------------- the sweep's events

  /** The queue items of the sweep a choice asks for: its progress, its closing line and its message box. */
  function MutationEvents(choice: string, mutation: seq<Handled>): seq<Event> {
    if choice == "2" then
      Progresses(DoneNotes("Delete", mutation, |mutation|) + ["Delete complete"]) + [Complete("Emails deleted", Succeeded)]
    else if choice == "3" then
      Progresses(DoneNotes("Archive", mutation, |mutation|) + ["Archive complete"]) + [Complete("Emails archived", Succeeded)]
    else []
  }

  method MutateAsChosen(choice: string, messages: seq<MessageRef>, mutate: (nat, nat) -> CallOutcome<()>)
    returns (mutation: seq<Handled>, events: seq<Event>)
    ensures mutation == MutationFor(choice, messages, MaxRetries, mutate)
    ensures events == MutationEvents(choice, mutation)
  {
    mutation, events := [], [];
    ActionNames();
    if choice == "2" {
      mutation := DeleteOrArchive(messages, "delete", MaxRetries, mutate);
      var notes := ReportDone("Delete", mutation);
      events := Progresses(notes + ["Delete complete"]) + [Complete("Emails deleted", Succeeded)];
    } else if choice == "3" {
      mutation := DeleteOrArchive(messages, "archive", MaxRetries, mutate);
      var notes := ReportDone("Archive", mutation);
      events := Progresses(notes + ["Archive complete"]) + [Complete("Emails archived", Succeeded)];
    }
  }

  // ---------------------------------------------------------------- the thread

  /** What a run of `process_emails_thread` did. */
  datatype AdvancedRun = AdvancedRun(
    csvPath: string,
    messages: seq<MessageRef>, listCalls: nat, listWaits: seq<nat>,
    requested: seq<string>,
    exported: seq<DetailedEmail>,
    disk: Disk, blobs: Blobs, extraction: Option<Extraction>,
    mutation: seq<Handled>,
    events: seq<Event>)

  const Opening: seq<Event> := [Status("Authenticating..."), Status("Fetching emails...")]

  /** The queue items of a run with a non-empty listing, in the order the thread posts them. */
  function ListedEvents(total: nat, exportEvents: seq<Event>, choice: string, mutation: seq<Handled>): seq<Event> {
    Opening + Progresses(ProcessingNotes(total)) + exportEvents + MutationEvents(choice, mutation)
  }

  /** The run after a non-empty listing. */
  function ListedRun(sender: string, choice: string, mode: string, csvDirectory: string,
                     parse: HeaderDateParser, decode: Decoder, bytes: ByteDecoder, get: GetCall,
                     mutate: (nat, nat) -> CallOutcome<()>, disk: Disk, blobs: Blobs,
                     messages: seq<MessageRef>, calls: nat, waits: seq<nat>): AdvancedRun
  {
    var path := CsvPath(csvDirectory, sender, mode);
    var requested := Candidates(messages, LedgerOf(FileAt(disk, path)));
    var exported := Present(FetchAll(Detailed(decode, bytes, get), requested));
    var step := ExportStep(parse, sender, mode, FolderPath(csvDirectory, sender), path, exported, disk, blobs);
    var mutation := MutationFor(choice, messages, MaxRetries, mutate);
    AdvancedRun(path, messages, calls, waits, requested, exported, step.disk, step.blobs, step.extraction,
                mutation, ListedEvents(|messages|, step.events, choice, mutation))
  }

  /** `process_emails_thread`, as a function of the inputs, the remote oracles and the files. */
  function ThreadOutcome(sender: string, start: Option<Date>, end: Option<Date>, choice: string, mode: string,
                         csvDirectory: string, parse: HeaderDateParser, decode: Decoder, bytes: ByteDecoder,
                         list: (string, nat) -> CallOutcome<ListResponse>, get: GetCall,
                         mutate: (nat, nat) -> CallOutcome<()>, disk: Disk, blobs: Blobs): AdvancedRun
  {
    var listing := Retry(ListCall(list, BuildQuery(sender, start, end)), MaxRetries);
    var messages := MessagesOf(listing);
    if messages == [] then
      AdvancedRun(CsvPath(csvDirectory, sender, mode), messages, listing.calls, listing.waits, [], [], disk, blobs,
                  None, [], Opening + [Complete("No emails found from " + sender, Info)])
    else
      ListedRun(sender, choice, mode, csvDirectory, parse, decode, bytes, get, mutate, disk, blobs,
                messages, listing.calls, listing.waits)
  }

  method ProcessEmailsThread(sender: string, start: Option<Date>, end: Option<Date>, choice: string, mode: string,
                             csvDirectory: string, parse: HeaderDateParser, decode: Decoder, bytes: ByteDecoder,
                             list: (string, nat) -> CallOutcome<ListResponse>, get: GetCall,
                             mutate: (nat, nat) -> CallOutcome<()>, disk: Disk, blobs: Blobs)
    returns (run: AdvancedRun)
    ensures run == ThreadOutcome(sender, start, end, choice, mode, csvDirectory, parse, decode, bytes,
                                 list, get, mutate, disk, blobs)
  {
    var path := CsvPath(csvDirectory, sender, mode);
    var messages, calls, waits := GetEmails(list, sender, start, end, MaxRetries);
    if messages == [] {
      return AdvancedRun(path, messages, calls, waits, [], [], disk, blobs, None, [],
                         Opening + [Complete("No emails found from " + sender, Info)]);
    }
    run := ProcessListing(sender, choice, mode, csvDirectory, parse, decode, bytes, get, mutate, disk, blobs,
                          messages, calls, waits);
  }

  /** The part of the thread after a non-empty listing. */
  method ProcessListing(sender: string, choice: string, mode: string, csvDirectory: string,
                        parse: HeaderDateParser, decode: Decoder, bytes: ByteDecoder, get: GetCall,
                        mutate: (nat, nat) -> CallOutcome<()>, disk: Disk, blobs: Blobs,
                        messages: seq<MessageRef>, calls: nat, waits: seq<nat>)
    returns (run: AdvancedRun)
    ensures run == ListedRun(sender, choice, mode, csvDirectory, parse, decode, bytes, get, mutate, disk, blobs,
                             messages, calls, waits)
  {
    var folder := FolderPath(csvDirectory, sender);
    var path := CsvPath(csvDirectory, sender, mode);
    var ledger := ReadExistingIds(FileAt(disk, path));
    var newEmails, requested := CollectNew(messages, ledger, Detailed(decode, bytes, get));
    var events := Opening + Progresses(ProcessingNotes(|messages|));
    var step := ExportNew(parse, sender, mode, folder, path, newEmails, disk, blobs);
    var mutation, mutationEvents := MutateAsChosen(choice, messages, mutate);
    run := AdvancedRun(path, messages, calls, waits, requested, newEmails, step.disk, step.blobs,
                       step.extraction, mutation, events + step.events + mutationEvents);
  }

  /** The outcome of pressing the button: an error box, or the thread's run. */
  datatype Started = Refused(error: string) | Started(run: AdvancedRun)

  function StartOutcome(sender: string, startText: string, endText: string, choice: string, mode: string,
                        csvDirectory: string, parseIso: IsoDateParser, parse: HeaderDateParser,
                        decode: Decoder, bytes: ByteDecoder,
                        list: (string, nat) -> CallOutcome<ListResponse>, get: GetCall,
                        mutate: (nat, nat) -> CallOutcome<()>, disk: Disk, blobs: Blobs): (r: Started)
    ensures r == Refused("Please enter a sender email") <==> sender == ""
    ensures r == Refused("Invalid date format. Use YYYY-MM-DD") <==>
              sender != "" && (OptionalDate(startText, parseIso).None? || OptionalDate(endText, parseIso).None?)
    ensures r.Started? ==> r.run.csvPath == CsvPath(csvDirectory, sender, mode)
  {
    match Validate(sender, startText, endText, parseIso)
    case MissingSender => Refused("Please enter a sender email")
    case InvalidDate => Refused("Invalid date format. Use YYYY-MM-DD")
    case Accepted(s, start, end) =>
      Started(ThreadOutcome(s, start, end, choice, mode, csvDirectory, parse, decode, bytes, list, get, mutate, disk, blobs))
  }

  /**
   * A request with a sender and well-formed (or empty) dates starts the thread on
   * that sender and on the parsed bounds, an empty text giving no bound.
   */
  lemma AcceptedRequestStartsThread(sender: string, startText: string, endText: string, choice: string, mode: string,
                                    csvDirectory: string, parseIso: IsoDateParser, parse: HeaderDateParser,
                                    decode: Decoder, bytes: ByteDecoder,
                                    list: (string, nat) -> CallOutcome<ListResponse>, get: GetCall,
                                    mutate: (nat, nat) -> CallOutcome<()>, disk: Disk, blobs: Blobs)
    requires sender != ""
    requires OptionalDate(startText, parseIso).Some? && OptionalDate(endText, parseIso).Some?
    ensures StartOutcome(sender, startText, endText, choice, mode, csvDirectory, parseIso, parse, decode, bytes,
                         list, get, mutate, disk, blobs)
            == Started(ThreadOutcome(sender, OptionalDate(startText, parseIso).value, OptionalDate(endText, parseIso).value,
                                     choice, mode, csvDirectory, parse, decode, bytes, list, get, mutate, disk, blobs))
  {
  }

  /** `start_processing`; the thread is modelled as running to completion. */
  method StartProcessing(sender: string, startText: string, endText: string, choice: string, mode: string,
                         csvDirectory: string, parseIso: IsoDateParser, parse: HeaderDateParser,
                         decode: Decoder, bytes: ByteDecoder,
                         list: (string, nat) -> CallOutcome<ListResponse>, get: GetCall,
                         mutate: (nat, nat) -> CallOutcome<()>, disk: Disk, blobs: Blobs)
    returns (r: Started)
    ensures r == StartOutcome(sender, startText, endText, choice, mode, csvDirectory, parseIso, parse,
                              decode, bytes, list, get, mutate, disk, blobs)
  {
    if sender == "" {
      return Refused("Please enter a sender email");
    }
    var start := OptionalDate(startText, parseIso);
    var end := OptionalDate(endText, parseIso);
    if start.None? || end.None? {
      return Refused("Invalid date format. Use YYYY-MM-DD");
    }
    var run := ProcessEmailsThread(sender, start.value, end.value, choice, mode, csvDirectory, parse, decode, bytes,
                                   list, get, mutate, disk, blobs);
    return Started(run);
  }

  // ---------------------------------------------------------------- properties

  /** An empty listing ends the thread with one info box: nothing is read, fetched, written or mutated. */
  lemma EmptyListingOnlyReports(sender: string, start: Option<Date>, end: Option<Date>, choice: string, mode: string,
                                csvDirectory: string, parse: HeaderDateParser, decode: Decoder, bytes: ByteDecoder,
                                list: (string, nat) -> CallOutcome<ListResponse>, get: GetCall,
                                mutate: (nat, nat) -> CallOutcome<()>, disk: Disk, blobs: Blobs)
    ensures var run := ThreadOutcome(sender, start, end, choice, mode, csvDirectory, parse, decode, bytes,
                                     list, get, mutate, disk, blobs);
            run.messages == [] ==>
              && run.requested == [] && run.disk == disk && run.blobs == blobs
              && run.extraction.None? && run.mutation == []
              && run.events == [Status("Authenticating..."), Status("Fetching emails..."),
                                Complete("No emails found from " + sender, Info)]
  {
  }

  /**
   * Delete and archive act on every listed message, whatever the ledger held and
   * whether or not anything was exported.
   */
  lemma MutationCoversWholeListing(sender: string, start: Option<Date>, end: Option<Date>, choice: string, mode: string,
                                   csvDirectory: string, parse: HeaderDateParser, decode: Decoder, bytes: ByteDecoder,
                                   list: (string, nat) -> CallOutcome<ListResponse>, get: GetCall,
                                   mutate: (nat, nat) -> CallOutcome<()>, disk: Disk, blobs: Blobs)
    requires choice == "2" || choice == "3"
    ensures var run := ThreadOutcome(sender, start, end, choice, mode, csvDirectory, parse, decode, bytes,
                                     list, get, mutate, disk, blobs);
            && |run.mutation| == |run.messages|
            && forall i | 0 <= i < |run.messages| ::
                 run.mutation[i].request ==
                   Some(if choice == "2" then Trash(run.messages[i].id) else RemoveInboxLabel(run.messages[i].id))
  {
  }

  /** Every exported record is a listed message that the ledger did not hold, fetched successfully. */
  lemma ExportedAreNewListedMessages(decode: Decoder, bytes: ByteDecoder, get: GetCall,
                                     messages: seq<MessageRef>, ledger: set<string>)
    ensures var requested := Candidates(messages, ledger);
            forall d | d in Present(FetchAll(Detailed(decode, bytes, get), requested)) ::
              d.id in ListedIds(messages) && d.id !in ledger && get(d.id).Success?
  {
    var requested := Candidates(messages, ledger);
    var fetch := Detailed(decode, bytes, get);
    PresentComesFromFetch(fetch, requested);
    CandidatesAreSetDifference(messages, ledger);
    forall d: DetailedEmail | d in Present(FetchAll(fetch, requested))
      ensures d.id in requested && get(d.id).Success?
    {
      var i :| 0 <= i < |requested| && fetch(requested[i]) == Some(d);
      assert DetailsOf(decode, bytes, get, requested[i]) == Some(d);
    }
  }

  /** The export step always ends with its own message box. */
  lemma ExportEndsWithCompletion(parse: HeaderDateParser, sender: string, mode: string, folder: string, path: string,
                                 exported: seq<DetailedEmail>, disk: Disk, blobs: Blobs)
    ensures var events := ExportStep(parse, sender, mode, folder, path, exported, disk, blobs).events;
            events != [] && events[|events| - 1].Complete?
  {
    var step := ExportStep(parse, sender, mode, folder, path, exported, disk, blobs);
    if exported != [] {
      var last := if mode == "simple" then Complete("Exported " + Decimal(|exported|) + " new emails to " + path, Succeeded)
                  else Complete("Full extraction completed for " + sender, Succeeded);
      assert step.events == step.events[..|step.events| - 1] + [last];
    }
  }

  /**
   * The last `m` events are a sweep's: progress lines closed by a message box; and the
   * event just before them is a message box too.
   */
  predicate BoxThenSweep(events: seq<Event>, m: nat) {
    && 2 <= m < |events|
    && events[|events| - m - 1].Complete?
    && events[|events| - 1].Complete?
    && forall j | |events| - m <= j < |events| - 1 :: events[j].Progress?
  }

  /**
   * With delete or archive chosen, the export's message box (on which the window
   * re-enables its button) is posted before the sweep starts: after it come only the
   * sweep's progress lines and then the sweep's own box.
   */
  lemma ExportCompletesBeforeSweep(sender: string, start: Option<Date>, end: Option<Date>, choice: string, mode: string,
                                   csvDirectory: string, parse: HeaderDateParser, decode: Decoder, bytes: ByteDecoder,
                                   list: (string, nat) -> CallOutcome<ListResponse>, get: GetCall,
                                   mutate: (nat, nat) -> CallOutcome<()>, disk: Disk, blobs: Blobs)
    requires choice == "2" || choice == "3"
    ensures var run := ThreadOutcome(sender, start, end, choice, mode, csvDirectory, parse, decode, bytes,
                                     list, get, mutate, disk, blobs);
            run.messages != [] ==> BoxThenSweep(run.events, |MutationEvents(choice, run.mutation)|)
  {
    var listing := Retry(ListCall(list, BuildQuery(sender, start, end)), MaxRetries);
    var messages := MessagesOf(listing);
    if messages != [] {
      ListedRunCompletesBeforeSweep(sender, choice, mode, csvDirectory, parse, decode, bytes, get, mutate, disk, blobs,
                                    messages, listing.calls, listing.waits);
    }
  }

  lemma ListedRunCompletesBeforeSweep(sender: string, choice: string, mode: string, csvDirectory: string,
                                      parse: HeaderDateParser, decode: Decoder, bytes: ByteDecoder, get: GetCall,
                                      mutate: (nat, nat) -> CallOutcome<()>, disk: Disk, blobs: Blobs,
                                      messages: seq<MessageRef>, calls: nat, waits: seq<nat>)
    requires choice == "2" || choice == "3"
    ensures var run := ListedRun(sender, choice, mode, csvDirectory, parse, decode, bytes, get, mutate, disk, blobs,
                                 messages, calls, waits);
            BoxThenSweep(run.events, |MutationEvents(choice, run.mutation)|)
  {
    var path := CsvPath(csvDirectory, sender, mode);
    var requested := Candidates(messages, LedgerOf(FileAt(disk, path)));
    var exported := Present(FetchAll(Detailed(decode, bytes, get), requested));
    ExportEndsWithCompletion(parse, sender, mode, FolderPath(csvDirectory, sender), path, exported, disk, blobs);
    var step := ExportStep(parse, sender, mode, FolderPath(csvDirectory, sender), path, exported, disk, blobs);
    ListedEventsShape(|messages|, step.events, choice, MutationFor(choice, messages, MaxRetries, mutate));
  }

  /** Whatever the export posted, as long as it ended with a message box, the sweep's events follow it. */
  lemma ListedEventsShape(total: nat, exportEvents: seq<Event>, choice: string, mutation: seq<Handled>)
    requires exportEvents != [] && exportEvents[|exportEvents| - 1].Complete?
    requires choice == "2" || choice == "3"
    ensures BoxThenSweep(ListedEvents(total, exportEvents, choice, mutation), |MutationEvents(choice, mutation)|)
  {
    var before := Opening + Progresses(ProcessingNotes(total)) + exportEvents;
    assert before[|before| - 1] == exportEvents[|exportEvents| - 1];
    SweepEventsShape(choice, mutation);
    CompletionThenSweep(before, MutationEvents(choice, mutation));
  }

  /** The sweep's events are progress lines closed by one message box. */
  lemma SweepEventsShape(choice: string, mutation: seq<Handled>)
    requires choice == "2" || choice == "3"
    ensures var events := MutationEvents(choice, mutation);
            && |events| >= 2
            && events[|events| - 1].Complete?
            && forall j | 0 <= j < |events| - 1 :: events[j].Progress?
  {
  }

  /** Events ending with a message box, followed by a sweep's events. */
  lemma CompletionThenSweep(before: seq<Event>, after: seq<Event>)
    requires before != [] && before[|before| - 1].Complete?
    requires |after| >= 2 && after[|after| - 1].Complete?
    requires forall j | 0 <= j < |after| - 1 :: after[j].Progress?
    ensures BoxThenSweep(before + after, |after|)
  {
    var all := before + after;
    assert all[|before| - 1] == before[|before| - 1];
    forall j | |before| <= j < |all| - 1 ensures all[j].Progress? {
      assert all[j] == after[j - |before|];
    }
  }

  /**
   * In mode 'simple' a new file gets the banner and the header before the rows, and an
   * existing one only the rows, whatever its first lines are.
   */
  lemma BannerOnlyOnNewFile(parse: HeaderDateParser, sender: string, folder: string, path: string,
                            exported: seq<DetailedEmail>, disk: Disk, blobs: Blobs)
    requires exported != []
    ensures var after := ExportStep(parse, sender, "simple", folder, path, exported, disk, blobs).disk;
            var rows := RowLines(EmailRows(Summaries(exported)));
            && path in after
            && (path in disk ==> after[path] == disk[path] + rows)
            && (path !in disk ==> after[path] == [Cells(Banner(sender, |exported|)), Cells(Fieldnames)] + rows)
            && (forall p | p in disk && p != path :: p in after && after[p] == disk[p])
  {
  }

  /** In mode 'full' the extraction rewrites the very file the ledger is read from. */
  lemma FullModeRewritesItsLedger(parse: HeaderDateParser, sender: string, csvDirectory: string,
                                  exported: seq<DetailedEmail>, disk: Disk, blobs: Blobs)
    requires exported != []
    ensures var path := CsvPath(csvDirectory, sender, "full");
            var e := ExportStep(parse, sender, "full", FolderPath(csvDirectory, sender), path, exported, disk, blobs);
            && e.extraction.Some? && e.extraction.value.csvPath == path
            && FileAt(e.disk, path) == Some(FullCsv(sender, exported))
  {
  }

  /** The file a simple-mode export creates starts with the banner, so its ledger is empty. */
  lemma NewSimpleFileHidesIds(sender: string, path: string, exported: seq<DetailedEmail>, disk: Disk)
    requires FileAt(disk, path).None?
    ensures LedgerOf(Some(Appended(FileAt(disk, path), SimplePreamble(sender, |exported|), EmailRows(Summaries(exported))))) == {}
  {
    var rows := RowLines(EmailRows(Summaries(exported)));
    var lines := Appended(FileAt(disk, path), SimplePreamble(sender, |exported|), EmailRows(Summaries(exported)));
    assert lines == SimplePreamble(sender, |exported|) + rows;
    assert lines == [Cells(Banner(sender, |exported|))] + ([Cells(Fieldnames)] + rows);
    FirstLineWithoutIdHidesEveryId(Banner(sender, |exported|), [Cells(Fieldnames)] + rows);
  }

  /** After an export into a file that did not exist, the file's ledger is empty: the banner hides every id. */
  lemma ExportLeavesEmptyLedger(parse: HeaderDateParser, sender: string, mode: string, csvDirectory: string,
                                exported: seq<DetailedEmail>, disk: Disk, blobs: Blobs)
    requires FileAt(disk, CsvPath(csvDirectory, sender, mode)).None?
    ensures var path := CsvPath(csvDirectory, sender, mode);
            var e := ExportStep(parse, sender, mode, FolderPath(csvDirectory, sender), path, exported, disk, blobs);
            LedgerOf(FileAt(e.disk, path)) == {}
  {
    var path := CsvPath(csvDirectory, sender, mode);
    var folder := FolderPath(csvDirectory, sender);
    if exported != [] {
      if mode == "simple" {
        NewSimpleFileHidesIds(sender, path, exported, disk);
      } else {
        var x := ExtractionOf(parse, exported, sender, folder, blobs);
        if x.csvPath == path {
          FullCsvHidesEveryId(sender, exported);
        }
      }
    }
  }

  /**
   * Re-running the thread does not skip what the first run exported: starting from a
   * CSV that does not exist yet, both runs request every listed id. The banner row
   * above the header leaves the reader without an 'id' column.
   */
  lemma RerunRefetchesEverything(sender: string, start: Option<Date>, end: Option<Date>, choice: string, mode: string,
                                 csvDirectory: string, parse: HeaderDateParser, decode: Decoder, bytes: ByteDecoder,
                                 list: (string, nat) -> CallOutcome<ListResponse>, get: GetCall,
                                 mutate: (nat, nat) -> CallOutcome<()>, disk: Disk, blobs: Blobs)
    requires FileAt(disk, CsvPath(csvDirectory, sender, mode)).None?
    ensures var first := ThreadOutcome(sender, start, end, choice, mode, csvDirectory, parse, decode, bytes,
                                       list, get, mutate, disk, blobs);
            var again := ThreadOutcome(sender, start, end, choice, mode, csvDirectory, parse, decode, bytes,
                                       list, get, mutate, first.disk, first.blobs);
            && again.messages == first.messages
            && first.requested == ListedIds(first.messages)
            && again.requested == ListedIds(again.messages)
  {
    var path := CsvPath(csvDirectory, sender, mode);
    var listing := Retry(ListCall(list, BuildQuery(sender, start, end)), MaxRetries);
    var messages := MessagesOf(listing);
    if messages != [] {
      var requested := Candidates(messages, LedgerOf(FileAt(disk, path)));
      var exported := Present(FetchAll(Detailed(decode, bytes, get), requested));
      ExportLeavesEmptyLedger(parse, sender, mode, csvDirectory, exported, disk, blobs);
      EmptyLedgerRequestsEverything(messages);
    }
  }
}
