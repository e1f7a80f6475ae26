/**
 * The GUI full script: `GmailBotGUI.process_emails` checks its inputs, then does
 * what the command-line full script's `main` does, reporting through the
 * progress label and message boxes instead of the terminal. Its outcome is
 * specified through `FullExtractor.MainOutcome`, so the two variants are checked
 * against each other.
 */
module FullExtractorGui {
  import opened Mail
  import opened Text
  import opened QueryBuilder
  import opened Backoff
  import opened Fetch
  import opened Ledger
  import opened Incremental
  import opened Mutator
  import opened Inputs
  import opened FullExtractor

  /** What the user sees: the progress label's text, or a message box. */
  datatype Notice = Label(text: string) | InfoBox(text: string) | SuccessBox(text: string) | ErrorBox(text: string)

  function Labels(texts: seq<string>): (ns: seq<Notice>)
    ensures |ns| == |texts|
    ensures forall i | 0 <= i < |texts| :: ns[i] == Label(texts[i])
  {
    seq(|texts|, i requires 0 <= i < |texts| => Label(texts[i]))
  }

  /**
   * `export_to_csv` of the GUI script: the shared export, whose progress lines go to
   * the callback (one per written row), then one last "Export complete".
   */
  method GuiExportToCsv(file: CsvFile, emails: seq<Option<Email>>) returns (after: seq<Line>, notes: seq<string>)
    ensures after == Appended(file, [Cells(Fieldnames)], EmailRows(Present(emails)))
    ensures notes == ExportNotes(emails, |emails|) + ["Export complete"]
    ensures |notes| == |Present(emails)| + 1 && notes[|notes| - 1] == "Export complete"
  {
    after, notes := ExportToCsv(file, [Cells(Fieldnames)], emails);
    notes := notes + ["Export complete"];
  }

  /** "Processing i/n messages", once per listed message. */
  function ProcessingLabels(n: nat): (ns: seq<Notice>)
    ensures |ns| == n
  {
    seq(n, i requires 0 <= i < n => Label("Processing " + Decimal(i + 1) + "/" + Decimal(n) + " messages"))
  }

  /** The notices after a non-empty listing: progress, the export's outcome, the mutation's, and the final label. */
  function ListedNotices(choice: string, run: Run): seq<Notice> {
    ProcessingLabels(|run.messages|) + ExportNotices(run.csvPath, run.exported) + ChoiceNotices(choice, run.mutation) +
    [Label("Process complete")]
  }

  /** The export's progress labels and its message box, or the box saying there was nothing new. */
  function ExportNotices(path: string, exported: seq<Email>): seq<Notice> {
    if exported == [] then [InfoBox("No new emails found")]
    else Labels(ExportNotes(Somes(exported), |exported|) + ["Export complete"]) +
         [SuccessBox("Exported " + Decimal(|exported|) + " new emails to " + path)]
  }

  /** The sweep's progress labels, one per message whose call went through, and the message box that follows. */
  function ChoiceNotices(choice: string, mutation: seq<Handled>): seq<Notice> {
    if choice == "2" then Labels(DoneNotes("Delete", mutation, |mutation|)) + [SuccessBox("Emails deleted")]
    else if choice == "3" then Labels(DoneNotes("Archive", mutation, |mutation|)) + [SuccessBox("Emails archived")]
    else []
  }

  /** The notices of a run that got past the input checks. */
  function RunNotices(sender: string, choice: string, run: Run): seq<Notice> {
    [Label("Authenticating..."), Label("Fetching emails...")] +
    if run.messages == [] then [InfoBox("No emails found from " + sender)]
    else ListedNotices(choice, run)
  }

  /** What a click on "Process Emails" did: the verdict of the checks, what was shown, and the run, if any. */
  datatype GuiRun = GuiRun(verdict: Validated, notices: seq<Notice>, run: Option<Run>)

  function ProcessOutcome(csvDirectory: string, sender: string, startText: string, endText: string, choice: string,
                          parseIso: IsoDateParser, decode: Decoder,
                          list: (string, nat) -> CallOutcome<ListResponse>, get: GetCall,
                          mutate: (nat, nat) -> CallOutcome<()>, disk: Disk): GuiRun
  {
    var verdict := Validate(sender, startText, endText, parseIso);
    match verdict
    case MissingSender => GuiRun(verdict, [ErrorBox("Please enter a sender email")], None)
    case InvalidDate => GuiRun(verdict, [ErrorBox("Invalid date format. Use YYYY-MM-DD")], None)
    case Accepted(_, _, _) =>
      var r := MainOutcome(csvDirectory, sender, startText, endText, choice, parseIso, decode, list, get, mutate, disk);
      if r.Ok? then GuiRun(verdict, RunNotices(sender, choice, r.value), Some(r.value))
      else GuiRun(verdict, [], None)  // not reached: accepted dates parse
  }

  /** `GmailBotGUI.process_emails`. */
  method ProcessEmails(csvDirectory: string, sender: string, startText: string, endText: string, choice: string,
                       parseIso: IsoDateParser, decode: Decoder,
                       list: (string, nat) -> CallOutcome<ListResponse>, get: GetCall,
                       mutate: (nat, nat) -> CallOutcome<()>, disk: Disk)
    returns (g: GuiRun)
    ensures g == ProcessOutcome(csvDirectory, sender, startText, endText, choice, parseIso, decode, list, get, mutate, disk)
  {
    var verdict := Validate(sender, startText, endText, parseIso);
    if sender == "" {
      return GuiRun(verdict, [ErrorBox("Please enter a sender email")], None);
    }
    if verdict.InvalidDate? {
      return GuiRun(verdict, [ErrorBox("Invalid date format. Use YYYY-MM-DD")], None);
    }
    var path := CsvPath(csvDirectory, sender);
    var notices := [Label("Authenticating..."), Label("Fetching emails...")];
    var messages, calls, waits := GetEmails(list, sender, verdict.start, verdict.end, MaxRetries);
    if messages == [] {
      notices := notices + [InfoBox("No emails found from " + sender)];
      return GuiRun(verdict, notices, Some(Run(path, messages, calls, waits, false, [], [], disk, [])));
    }
    var run, rest := ProcessListing(path, messages, calls, waits, choice, decode, get, mutate, disk);
    return GuiRun(verdict, notices + rest, Some(run));
  }

  /** The part of `process_emails` after a non-empty listing. */
  method ProcessListing(path: string, messages: seq<MessageRef>, calls: nat, waits: seq<nat>, choice: string,
                        decode: Decoder, get: GetCall, mutate: (nat, nat) -> CallOutcome<()>, disk: Disk)
    returns (run: Run, notices: seq<Notice>)
    requires messages != []
    ensures var requested := Candidates(messages, LedgerOf(FileAt(disk, path)));
            var exported := Present(FetchAll(Details(decode, get), requested));
            run == Run(path, messages, calls, waits, true, requested, exported,
                       DiskAfterExport(disk, path, exported), MutationFor(choice, messages, MaxRetries, mutate))
    ensures notices == ListedNotices(choice, run)
  {
    var ledger := ReadExistingIds(FileAt(disk, path));
    var newEmails, requested := CollectNew(messages, ledger, Details(decode, get));
    var diskAfter, exportNotices := ExportNew(path, newEmails, disk);
    var mutation, mutationNotices := MutateAsChosen(choice, messages, mutate);
    notices := ProcessingLabels(|messages|) + exportNotices + mutationNotices + [Label("Process complete")];
    run := Run(path, messages, calls, waits, true, requested, newEmails, diskAfter, mutation);
  }

  /** `if new_emails: export_to_csv(…)` with its labels and message box, or the "No new emails" box. */
  method ExportNew(path: string, newEmails: seq<Email>, disk: Disk) returns (diskAfter: Disk, notices: seq<Notice>)
    ensures diskAfter == DiskAfterExport(disk, path, newEmails)
    ensures notices == ExportNotices(path, newEmails)
  {
    if newEmails == [] {
      return disk, [InfoBox("No new emails found")];
    }
    var after, notes := GuiExportToCsv(FileAt(disk, path), Somes(newEmails));
    PresentOfSomes(newEmails);
    diskAfter := disk[path := after];
    notices := Labels(notes) + [SuccessBox("Exported " + Decimal(|newEmails|) + " new emails to " + path)];
  }

  /** The choice's sweep over every listed message, its progress labels, and the message box that follows it. */
  method MutateAsChosen(choice: string, messages: seq<MessageRef>, mutate: (nat, nat) -> CallOutcome<()>)
    returns (mutation: seq<Handled>, notices: seq<Notice>)
    ensures mutation == MutationFor(choice, messages, MaxRetries, mutate)
    ensures notices == ChoiceNotices(choice, mutation)
  {
    mutation, notices := [], [];
    ActionNames();
    if choice == "2" {
      mutation := DeleteOrArchive(messages, "delete", MaxRetries, mutate);
      var notes := ReportDone("Delete", mutation);
      notices := Labels(notes) + [SuccessBox("Emails deleted")];
    } else if choice == "3" {
      mutation := DeleteOrArchive(messages, "archive", MaxRetries, mutate);
      var notes := ReportDone("Archive", mutation);
      notices := Labels(notes) + [SuccessBox("Emails archived")];
    }
  }

  /**
   * A request with an empty sender or a malformed date is refused with one error
   * box, before authentication: no list call, no fetch, no write, no mutation.
   */
  lemma RejectedRequestTouchesNothing(csvDirectory: string, sender: string, startText: string, endText: string, choice: string,
                                      parseIso: IsoDateParser, decode: Decoder,
                                      list: (string, nat) -> CallOutcome<ListResponse>, get: GetCall,
                                      mutate: (nat, nat) -> CallOutcome<()>, disk: Disk)
    requires sender == "" || (startText != "" && parseIso(startText).None?) || (endText != "" && parseIso(endText).None?)
    ensures var g := ProcessOutcome(csvDirectory, sender, startText, endText, choice, parseIso, decode, list, get, mutate, disk);
            && g.run.None?
            && |g.notices| == 1 && g.notices[0].ErrorBox?
            && (sender == "" ==> g.verdict == MissingSender)
  {
  }

  /**
   * An accepted request does exactly what the command-line full script does with
   * the same inputs: the same listing, requests, exports, disk and mutations.
   */
  lemma AcceptedRequestRunsLikeFullScript(csvDirectory: string, sender: string, startText: string, endText: string, choice: string,
                                          parseIso: IsoDateParser, decode: Decoder,
                                          list: (string, nat) -> CallOutcome<ListResponse>, get: GetCall,
                                          mutate: (nat, nat) -> CallOutcome<()>, disk: Disk)
    requires Validate(sender, startText, endText, parseIso).Accepted?
    ensures var g := ProcessOutcome(csvDirectory, sender, startText, endText, choice, parseIso, decode, list, get, mutate, disk);
            var r := MainOutcome(csvDirectory, sender, startText, endText, choice, parseIso, decode, list, get, mutate, disk);
            r.Ok? && g.run == Some(r.value)
  {
  }

  /**
   * When something new was exported, the label shows one progress line per
   * written row, then "Export complete", then the success box names the count.
   */
  lemma ExportNoticesOnePerRow(sender: string, choice: string, run: Run)
    requires run.messages != [] && run.exported != []
    ensures var ns := RunNotices(sender, choice, run);
            var k := 2 + |run.messages|;
            var m := |run.exported|;
            && |ns| >= k + m + 2
            && (forall j | k <= j < k + m :: ns[j].Label?)
            && ns[k + m] == Label("Export complete")
            && ns[k + m + 1] == SuccessBox("Exported " + Decimal(m) + " new emails to " + run.csvPath)
  {
    var pre := [Label("Authenticating..."), Label("Fetching emails...")] + ProcessingLabels(|run.messages|);
    var mid := ExportNotices(run.csvPath, run.exported);
    var post := ChoiceNotices(choice, run.mutation) + [Label("Process complete")];
    RunNoticesSplit(sender, choice, run);
    ExportNoticesShape(run.csvPath, run.exported);
    ExportBlockAt(pre, mid, post, "Exported " + Decimal(|run.exported|) + " new emails to " + run.csvPath);
  }

  /** After a non-empty listing the notices are the opening ones, the export's, then the sweep's. */
  lemma RunNoticesSplit(sender: string, choice: string, run: Run)
    requires run.messages != []
    ensures RunNotices(sender, choice, run)
            == ([Label("Authenticating..."), Label("Fetching emails...")] + ProcessingLabels(|run.messages|)) +
               ExportNotices(run.csvPath, run.exported) +
               (ChoiceNotices(choice, run.mutation) + [Label("Process complete")])
  {
    var opening := [Label("Authenticating..."), Label("Fetching emails...")];
    var labels, exportBox := ProcessingLabels(|run.messages|), ExportNotices(run.csvPath, run.exported);
    var sweep := ChoiceNotices(choice, run.mutation);
    var tail := sweep + [Label("Process complete")];
    assert ListedNotices(choice, run) == labels + exportBox + tail;
    assert opening + (labels + exportBox + tail) == (opening + labels) + exportBox + tail;
  }

  /** An export block inside a longer list of notices keeps its shape, shifted by what precedes it. */
  lemma ExportBlockAt(pre: seq<Notice>, mid: seq<Notice>, post: seq<Notice>, success: string)
    requires |mid| >= 2
    requires forall j | 0 <= j < |mid| - 2 :: mid[j].Label?
    requires mid[|mid| - 2] == Label("Export complete") && mid[|mid| - 1] == SuccessBox(success)
    ensures var ns := pre + mid + post;
            var k := |pre|;
            var m := |mid| - 2;
            && |ns| >= k + m + 2
            && (forall j | k <= j < k + m :: ns[j].Label?)
            && ns[k + m] == Label("Export complete")
            && ns[k + m + 1] == SuccessBox(success)
  {
    var ns := pre + mid + post;
    forall j | |pre| <= j < |pre| + |mid| ensures ns[j] == mid[j - |pre|] {
    }
  }

  /** A non-empty export shows one label per row, "Export complete", then its success box. */
  lemma ExportNoticesShape(path: string, exported: seq<Email>)
    requires exported != []
    ensures var ns := ExportNotices(path, exported);
            var m := |exported|;
            && |ns| == m + 2
            && (forall j | 0 <= j < m :: ns[j].Label?)
            && ns[m] == Label("Export complete")
            && ns[m + 1] == SuccessBox("Exported " + Decimal(m) + " new emails to " + path)
  {
    PresentOfSomes(exported);
    var notes := ExportNotes(Somes(exported), |exported|) + ["Export complete"];
    assert |notes| == |exported| + 1;
  }
}
