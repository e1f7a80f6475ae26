# Gmail sender extractor — a verified model of the message-processing kernel

The repository holds four Python scripts that do the same job with small variations. Each lists the Gmail
messages from one sender, optionally within a date range. Each reads the ids already exported from a CSV
ledger and fetches and exports only the new messages. Each can then delete (trash) or archive every listed
message. The scripts are:

- `Full_extractor.py`, a command-line script;
- `Full_extractor_GUI.py`, the same flow behind a Tk form;
- `Advanced_Email_extractor.py`, a worker thread with a progress queue and two modes:
  - 'simple', a CSV with a `Sender:`/`Total Emails:` banner;
  - 'full', a per-sender folder with a CSV, the attachment files, an HTML page grouped by day and a JSON dump;
- `Simple_extractor.py`, the minimal variant: no retry, first-part body, and exceptions escape.

The model states this kernel once and checks each script's variant against it. The Gmail service is an
oracle from a call (and, where the script retries, the attempt number) to its outcome: a success, an
`HttpError` with a status, or any other exception. The base64url/UTF-8 decoders and `datetime.strptime`
are function parameters. The decoders' types fix one case the library settles: the empty text decodes to
the empty string or to no bytes, and never raises. The disk is a map from path to CSV lines, plus a map from path to bytes for
attachment files. Every script operation that loops or accumulates is a method. Each method is proved equal
to a specification function, and lemmas about those functions state what the scripts promise.

Modules:

- `Mail`: the values exchanged with the service. A payload node is a `Leaf` or a `Container` of ordered parts.
- `Text`, `QueryBuilder`: the string helpers and the query.
- `Backoff`: the bounded 429/503 retry with `2^attempt` waits.
- `Fetch`: `get_emails`.
- `MimeBody`: `get_message_body`.
- `Ledger`: the CSV writers and `read_existing_ids`.
- `Incremental`: the filter on the ledger.
- `Mutator`: `delete_or_archive_emails`.
- `Inputs`: date and sender checks.
- `Sorting`: Python's `sorted` on strings.
- One module per script flow: `FullExtractor`, `FullExtractorGui`, `SimpleExtractor`, and for the advanced
  script `AdvancedDetails`, `AdvancedExtraction` and `AdvancedExtractor`.

Behaviours of the scripts worth knowing:

- **Re-runs.** Re-running an export is idempotent for the full, GUI and simple scripts, under conditions.
  The ledger file must be clean before the first run: missing, or the email header followed by readable
  lines. For the full script (and the GUI, which runs the same flow), every requested fetch of the first
  run must succeed (`FullExtractor.RerunFindsNothingNew`). A failed fetch leaves its id out of the file, so
  the next run requests it again. For the simple script, the first run must not crash
  (`SimpleExtractor.RerunFindsNothingNew`). The second run then requests nothing and leaves the file as it was.
  It is not idempotent for the advanced script. Its writers put a banner row above the header, so
  `csv.DictReader` takes the banner as the header. Its ledger is then always empty, and every run refetches
  and re-exports every listed message (`AdvancedExtractor.RerunRefetchesEverything`).
- **Decode errors.** A decode error in `get_message_body` does not only lose its own part. It ends the
  current call with the text accumulated so far.
- **HTML body.** The advanced script keeps the *last* top-level `text/html` part, not the first.
- **Attachments.** A part is an attachment only when it is not a `text/html` part with data, and only
  top-level parts are examined. Every such HTML part is excluded, not only the one that is kept.
- **Attachment files.** Each attachment is written to `folder/attachment_<id>_<filename>`. Two attachments
  of one message with the same filename share that file: the later one's bytes overwrite the earlier one's,
  and the JSON lists both with the same path (`AdvancedExtraction.SameFilenameOverwrites`).
- **Mutation after nothing new.** Delete/archive still runs over the whole listing after "No new emails found".
- **Day sections.** Within a day, the page orders messages by the raw `Date` header string, descending. This
  is not necessarily newest-first.
- **Invalid dates.** The command-line full script has no input check: a malformed date escapes as a crash.

## Model

| member | source | states |
|---|---|---|
| Mail.HeaderValueFirstMatch | Full_extractor.py:94-96 | the lookup returns the value of the first header whose name is exactly the one asked for |
| Mail.HeaderValueAbsent | Full_extractor.py:94-96 | the lookup returns '' when no header has that name |
| Text.BeforeFirst | Full_extractor.py:182 | `split('@')[0]`: a prefix of the input with no '@', followed in the input by '@' unless it is the whole input |
| Text.BeforeFirstAt | Full_extractor.py:182 | the text kept by `split(c)[0]` is exactly the prefix up to the first `c` |
| Text.ReplaceChar | Advanced_Email_extractor.py:157 | `replace(' ', '_')` on single characters: same length, each matching character replaced and every other kept |
| Text.AsciiLower | Full_extractor.py:146-148 | `action.lower()`: same length, each character lowered |
| Text.Decimal | Full_extractor.py:206 | integer formatting in f-strings: a non-empty digit string without leading zero whose digits spell the number |
| Text.PathJoin | Full_extractor.py:182 | `os.path.join`: the result ends with the name and, for a relative name, starts with the directory |
| Text.PathJoinRelativeInjective | Advanced_Email_extractor.py:184 | joined to the same directory, different relative names give different paths |
| Text.StrLessIrreflexive | Advanced_Email_extractor.py:219 | the string order used by `sorted` is irreflexive |
| Text.StrLessTransitive | Advanced_Email_extractor.py:219 | the string order used by `sorted` is transitive |
| Text.StrLessTotal | Advanced_Email_extractor.py:219 | any two distinct strings are ordered one way or the other |
| QueryBuilder.Fixed | Advanced_Email_extractor.py:58 | `%Y`, `%m`, `%d`: exactly `width` decimal digits |
| QueryBuilder.FixedRoundTrip | Advanced_Email_extractor.py:58 | a number below 10^width reads back from its zero-padded digits |
| QueryBuilder.SlashedRoundTrip | Advanced_Email_extractor.py:58-60 | `strftime("%Y/%m/%d")` of a valid date reads back as that date |
| QueryBuilder.QueryRoundTrip | Advanced_Email_extractor.py:56-60 | the query is `from:`+sender followed by clauses that parse back as exactly the given bounds: an after clause only for a start date, a before clause only for an end date, in that order |
| Backoff.CallWithRetry | Advanced_Email_extractor.py:62-75 | the retry loop computes the policy `Retry`: its value, call count and waits |
| Backoff.RetryShape | Advanced_Email_extractor.py:62-75 | between 1 and `max_retries` calls; every call but the last failed with 429/503 and was followed by a wait of 2^attempt; the last call decides the result; a 429/503 ends the run only on the final attempt; no call at all when `max_retries` ≤ 0 |
| Backoff.RetryFromShape | Advanced_Email_extractor.py:62-75 | the same from any attempt on, including that the returned value is the last call's value |
| Backoff.PermanentFailureStopsAtOnce | Advanced_Email_extractor.py:69-75 | a non-429/503 status or any other exception on the first call ends the run after one call, with no wait and no value |
| Backoff.AlwaysTransientExhausts | Advanced_Email_extractor.py:62-68 | against an always-429/503 backend every allowed call is made, nothing is returned, and the waits are the successive powers of two |
| Backoff.ThreeAttemptsAgainstRateLimit | Advanced_Email_extractor.py:55-75 | with the default `max_retries=3` and an always-429 backend: 3 calls, waits [1, 2], nothing returned |
| Backoff.BackoffTotal | Advanced_Email_extractor.py:66-67 | the waits of a run add up to 2^n − 1 |
| Backoff.RetryFromSameResponses | Advanced_Email_extractor.py:62-75 | a run depends only on the outcomes of its own attempts |
| Fetch.GetEmails | Advanced_Email_extractor.py:55-75 | `get_emails` builds the query, runs the retry policy on the list call, and returns the first successful response's `messages` (or `[]`) |
| Fetch.ListingIsFirstSuccessfulResponse | Advanced_Email_extractor.py:62-64 | a non-empty listing is the `messages` of the last call, which succeeded after only 429/503 failures; further pages are never requested |
| MimeBody.GetMessageBody | Advanced_Email_extractor.py:77-92 | the recursive accumulation computes `BodyText` |
| MimeBody.BodyIsDecodedPlainData | Advanced_Email_extractor.py:80-89 | when every text met decodes, the body is the decoded `text/plain` data of the tree concatenated in traversal order; a part-less node yields its own data whatever its type |
| MimeBody.PartsAreDecodedPlainData | Advanced_Email_extractor.py:81-86 | the same for the loop over the children of a node |
| MimeBody.DecodedConcatAppend | Advanced_Email_extractor.py:84 | `body +=` over two stretches of texts concatenates their decodings |
| MimeBody.SiblingsConcatenateInOrder | Advanced_Email_extractor.py:81-86 | siblings contribute in order, A then B; a failure nested in A does not stop B |
| MimeBody.FailureKeepsTextSoFar | Advanced_Email_extractor.py:79-92 | a `text/plain` child that fails to decode ends the loop: the result is the text of the children before it |
| Ledger.EmailRow | Full_extractor.py:115-124 | a DictWriter row has one cell per field name, the id in the id column |
| Ledger.Appended | Full_extractor.py:112-119 | mode 'a' keeps an existing file and adds the rows; mode 'w' writes the preamble (header, or banner and header) then the rows |
| Ledger.DiskAfterExport | Full_extractor.py:209-212 | nothing new leaves the disk as it was; otherwise only the CSV path changes, to the appended file |
| Ledger.ExportNotes | Full_extractor_GUI.py:123-127 | one progress line per written email |
| Ledger.ExportToCsv | Full_extractor_GUI.py:112-128 | `export_to_csv` writes the preamble only for a new file, then one row per email that is not `None`, in input order, each with its "Exporting i/total emails" line |
| Ledger.LastIndexOf | Full_extractor.py:135-137 | the column `dict(zip(header, row))` reads a key from: absent exactly when the header lacks it, otherwise its last occurrence |
| Ledger.ReadRows | Full_extractor.py:136-137 | the `existing_ids.add(row['id'])` loop computes `ScanIds`: the ids read and whether a row raised |
| Ledger.ReadExistingIds | Full_extractor.py:128-140 | the tolerant reader: the empty set for a missing file, otherwise the ids read before the first exception |
| Ledger.ReadExistingIdsStrict | Simple_extractor.py:75-84 | the simple script's reader, where an exception escapes |
| Ledger.ScanAppend | Full_extractor.py:136-137 | reading a file in two stretches: the ids add up once the first raised nothing |
| Ledger.IdColumnOfFieldnames | Full_extractor.py:115 | the id column of the email header is its first column |
| Ledger.EmailRowsReadBack | Full_extractor.py:115-124 | under the email header, written rows read back as exactly their ids, with no exception |
| Ledger.AppendedRowsReadBack | Full_extractor.py:110-140 | round trip: appending rows to a clean ledger file keeps it clean, and the ids read back are the old ledger plus exactly the exported ids, for both readers |
| Ledger.CleanReadsStrictly | Simple_extractor.py:75-84 | on a clean file the strict reader raises nothing and agrees with the tolerant one |
| Ledger.NoIdColumnReadsNothing | Advanced_Email_extractor.py:243-245 | under a header without "id", no id is ever read |
| Ledger.FirstLineWithoutIdHidesEveryId | Advanced_Email_extractor.py:236-248 | a file whose first line has no "id" cell, such as the banner, has an empty ledger whatever follows |
| Incremental.CollectNew | Full_extractor.py:197-205 | the filtering loop requests exactly `Candidates` and keeps the present fetch results in order |
| Incremental.CandidatesAreSetDifference | Full_extractor.py:201-203 | an id is requested exactly when it is listed and not in the ledger |
| Incremental.CandidatesAppend | Full_extractor.py:201-203 | filtering a listing in pieces gives the same requests, in order |
| Incremental.EmptyLedgerRequestsEverything | Full_extractor.py:197-203 | with an empty ledger every listed id is requested, in listing order |
| Incremental.NothingNewOnceAllRecorded | Full_extractor.py:201-203 | a ledger holding every listed id leaves nothing to fetch |
| Incremental.PresentComesFromFetch | Full_extractor.py:203-205 | every kept record is the successful fetch of a requested id; no more records than requests |
| Incremental.NoFailureKeepsAll | Full_extractor.py:203-205 | when no fetch fails, every requested id yields its record, in the same order |
| Mutator.ActionOf | Advanced_Email_extractor.py:256-258 | delete and archive are recognised exactly when `action.lower()` is 'delete' or 'archive' |
| Mutator.ActionNames | Advanced_Email_extractor.py:319-323 | the literal actions the flows pass are recognised |
| Mutator.RequestFor | Advanced_Email_extractor.py:256-262 | trash for delete, removal of the INBOX label for archive, for that message's id; no call for any other action |
| Mutator.MutationFor | Advanced_Email_extractor.py:318-325 | choice '2' trashes and '3' archives every listed message, in order; any other choice sends nothing |
| Mutator.DeleteOrArchive | Advanced_Email_extractor.py:250-276 | the nested loop computes `Sweep`: each message handled on its own with the retry policy |
| Mutator.SweepVisitsEveryMessage | Full_extractor.py:142-163 | every message is visited, in order, with its call; 1 to `max_retries` attempts, failed ones being 429/503 followed by 2^attempt waits; the last attempt decides |
| Mutator.FailureIsIsolated | Full_extractor.py:155-163 | how one message fares depends only on its own calls' outcomes |
| Mutator.PermanentFailureAbandonsMessage | Full_extractor.py:159-163 | a permanent failure abandons that message after one call and no wait |
| Mutator.UnknownActionSendsNothing | Full_extractor.py:145-154 | an action other than delete/archive sends nothing and counts each message as done |
| Mutator.ReportDone | Advanced_Email_extractor.py:262-263 | the progress lines posted in the sweep compute `DoneNotes` |
| Mutator.AllDoneReportsEveryMessage | Advanced_Email_extractor.py:262-263 | when every call goes through, message i gets the line "<Action>ing i/total emails", in order |
| Mutator.DoneNotesCountSuccesses | Advanced_Email_extractor.py:262-263 | at most one line per message, and none when every call failed |
| Mutator.SimpleDeleteOrArchive | Simple_extractor.py:86-95 | the simple sweep computes `SimpleSweepFrom`: the calls sent and whether one raised |
| Mutator.SimpleSweepStopsAtFirstFailure | Simple_extractor.py:86-95 | the simple sweep sends the calls of a prefix of the messages in order; all but the last succeeded; it crashed exactly when the last failed; only a crash leaves messages unvisited |
| Sorting.SortBySortsAndPermutes | Advanced_Email_extractor.py:219-220 | `sorted(…, key, reverse)`: sorted by key in the chosen direction and a permutation of its input |
| Sorting.InsertKeepsOrder | Advanced_Email_extractor.py:219-220 | inserting into a sorted list keeps it sorted and adds exactly one element |
| Sorting.PrecedesTransitive | Advanced_Email_extractor.py:220 | the order in either direction is transitive |
| Inputs.OptionalDate | Full_extractor_GUI.py:224-225 | `strptime(text) if text else None`: empty text is no bound, otherwise the parse, with failure as ValueError |
| Inputs.Validate | Full_extractor_GUI.py:215-228 | the sender is checked first, then both dates; accepted inputs carry the sender and the parsed bounds |
| FullExtractor.EmailDetails | Full_extractor.py:90-108 | `None` exactly when the get call fails; otherwise the id, the first Subject/From/Date headers and the plain body |
| FullExtractor.CsvPath | Full_extractor.py:182 | the CSV is `emails_from_<text before '@'>.csv` in the CSV directory |
| FullExtractor.RunMain | Full_extractor.py:165-225 | `main` computes `MainOutcome`: a crash on a malformed date, the listing, the requests, the export and the sweep |
| FullExtractor.EmptyListingEndsRun | Full_extractor.py:190-194 | an empty listing returns before the ledger is read: nothing fetched, written or mutated |
| FullExtractor.MutationCoversWholeListing | Full_extractor.py:218-225 | delete/archive acts on every listed message, whatever was exported |
| FullExtractor.ExportedAreNewRequestedIds | Full_extractor.py:201-205 | every exported record is a requested, listed id outside the ledger whose fetch succeeded |
| FullExtractor.AllFetchedExportsAll | Full_extractor.py:201-205 | when every fetch succeeds, every requested id is exported |
| FullExtractor.LedgerCoversListingAfterRun | Full_extractor.py:197-212 | after a run with every fetch succeeding on a clean ledger file, every listed id is in the ledger |
| FullExtractor.RerunFindsNothingNew | Full_extractor.py:197-215 | round trip: a second run over the same mailbox requests nothing and leaves the disk as it was |
| FullExtractorGui.GuiExportToCsv | Full_extractor_GUI.py:112-128 | the export's callback gets one line per written row, then "Export complete" |
| FullExtractorGui.ProcessingLabels | Full_extractor_GUI.py:252-257 | one "Processing i/n messages" label per listed message |
| FullExtractorGui.ProcessEmails | Full_extractor_GUI.py:214-277 | `process_emails` computes `ProcessOutcome`: the verdict of the checks, the notices shown and the run |
| FullExtractorGui.ProcessListing | Full_extractor_GUI.py:247-277 | after a non-empty listing: the requests, exports, disk and sweep of the full script, with their notices |
| FullExtractorGui.ExportNew | Full_extractor_GUI.py:259-265 | the export's labels and success box, or the "No new emails found" box |
| FullExtractorGui.MutateAsChosen | Full_extractor_GUI.py:268-275 | the chosen sweep over the whole listing, its per-message labels and its success box |
| FullExtractorGui.RejectedRequestTouchesNothing | Full_extractor_GUI.py:215-228 | an empty sender or malformed date gets one error box, before any call, write or mutation |
| FullExtractorGui.AcceptedRequestRunsLikeFullScript | Full_extractor_GUI.py:230-275 | an accepted request does exactly what the command-line full script does with the same inputs |
| FullExtractorGui.ExportNoticesOnePerRow | Full_extractor_GUI.py:259-261 | one progress label per written row, then "Export complete", then the success box naming the count |
| SimpleExtractor.SimpleQuery | Simple_extractor.py:32 | the query is the general query with no bounds: `from:`+sender |
| SimpleExtractor.GetEmails | Simple_extractor.py:31-34 | one list call: its `messages` (or `[]`), and a failure escapes |
| SimpleExtractor.FirstPartData | Simple_extractor.py:45-49 | the data of `parts[0]` whatever its type, the payload's own data without parts, '' without data; an empty parts list raises |
| SimpleExtractor.BodyOf | Simple_extractor.py:51 | '' for no data, otherwise the strict decoding, failure escaping |
| SimpleExtractor.SimpleDetails | Simple_extractor.py:36-59 | a failed get escapes; an empty parts list or a failed strict decode escapes; otherwise the id, the first Subject/From/Date headers and the first part's decoded text as body |
| SimpleExtractor.FirstPartWinsWhateverItsType | Simple_extractor.py:45-51 | the body is the first part's text even when that part is HTML |
| SimpleExtractor.CollectedAllOrNothing | Simple_extractor.py:124-127 | the loop succeeds exactly when every fetch does, and then keeps every record, in order |
| SimpleExtractor.CollectAll | Simple_extractor.py:120-127 | the loop fetches every id missing from the ledger and stops at the first exception |
| SimpleExtractor.RunMain | Simple_extractor.py:97-141 | `main` computes `SimpleOutcome` |
| SimpleExtractor.ExportsEveryCandidate | Simple_extractor.py:124-130 | with no exception, one record per missing id is exported, in listing order |
| SimpleExtractor.ExportCoversListing | Simple_extractor.py:119-130 | exporting those records onto a clean file keeps it clean and puts every listed id in its ledger |
| SimpleExtractor.RerunFindsNothingNew | Simple_extractor.py:113-133 | round trip: after a run that raised nothing before the sweep, a second run finds nothing new and leaves the file as it was |
| AdvancedDetails.DetailsOf | Advanced_Email_extractor.py:94-133 | `None` when the get call fails, when a top-level part's decoding fails, or when a `text/html` leaf fails to decode; otherwise the id, first headers and plain body, with the HTML body and attachments of the parts scan for a container, and for a leaf no attachments and its decoded text as HTML body when it is `text/html` with data, else '' |
| AdvancedDetails.GetEmailDetails | Advanced_Email_extractor.py:94-133 | the loop over the top-level parts computes `DetailsOf` |
| AdvancedDetails.ScanTopLevelParts | Advanced_Email_extractor.py:108-118 | the loop over the top-level parts computes `ScanParts`: the last HTML text and the named parts in order, or nothing once a decoding fails |
| AdvancedDetails.ScanFailureIsFinal | Advanced_Email_extractor.py:109-133 | once a part's decoding raised, the record is lost whatever follows |
| AdvancedDetails.ScanFailsIffSomePartFails | Advanced_Email_extractor.py:108-118 | the loop raises exactly when some top-level HTML or attachment part fails to decode |
| AdvancedDetails.LastHtmlPartWins | Advanced_Email_extractor.py:108-111 | when a top-level `text/html` part with data is followed by no other, the HTML body is its decoded data: the last such part wins |
| AdvancedDetails.NoHtmlPartLeavesHtmlEmpty | Advanced_Email_extractor.py:105-111 | with no top-level `text/html` part carrying data, the HTML body is '' |
| AdvancedDetails.AttachmentParts | Advanced_Email_extractor.py:112 | the parts kept as attachments are named non-HTML parts |
| AdvancedDetails.AttachmentsAreTheNamedParts | Advanced_Email_extractor.py:112-118 | the attachments are those parts in order, each with its filename, type and decoded bytes (absent or empty data gives no bytes), no path yet |
| AdvancedDetails.HtmlLeafIsBothBodies | Advanced_Email_extractor.py:87-89 | a single `text/html` leaf gives its text as both the HTML and the plain body, with no attachments |
| AdvancedExtraction.Banner | Advanced_Email_extractor.py:145 | the banner has two cells, neither of them "id" |
| AdvancedExtraction.OutputName | Advanced_Email_extractor.py:279 | the folder and CSV name contains no space |
| AdvancedExtraction.FullRow | Advanced_Email_extractor.py:169 | seven cells in field order, the id first and the HTML body sixth |
| AdvancedExtraction.FullCsv | Advanced_Email_extractor.py:160-170 | banner, header, one line per email |
| AdvancedExtraction.FullCsvHidesEveryId | Advanced_Email_extractor.py:160-165 | the full CSV reads back as an empty ledger, whatever it holds |
| AdvancedExtraction.DateKey | Advanced_Email_extractor.py:175-178 | the day key has no space; a parsed date gives a YYYY-MM-DD key |
| AdvancedExtraction.DateKeyFallback | Advanced_Email_extractor.py:177-178 | a date the parser rejects is keyed by the text before its first space |
| AdvancedExtraction.UnparsedDateKeysOnFirstWord | Advanced_Email_extractor.py:177-178 | "garbled not a date" is keyed "garbled" |
| AdvancedExtraction.AttachmentFilesWritten | Advanced_Email_extractor.py:183-186 | the files written are those there before plus one per attachment path, and nothing else |
| AdvancedExtraction.EveryAttachmentHasItsFile | Advanced_Email_extractor.py:183-187 | every attachment's path `folder/attachment_<id>_<filename>` is written |
| AdvancedExtraction.EveryFileIsAnAttachment | Advanced_Email_extractor.py:183-186 | every written path is some attachment's path |
| AdvancedExtraction.WriteAttachmentsDomain | Advanced_Email_extractor.py:183-186 | the attachment loop of one email adds exactly its attachment paths to the files on disk |
| AdvancedExtraction.AttachmentPathInjective | Advanced_Email_extractor.py:184 | within one message, two attachments share a path exactly when they share a filename |
| AdvancedExtraction.WriteAttachmentsKeepsOthers | Advanced_Email_extractor.py:183-186 | a file that is not one of the message's attachment paths keeps its bytes, or stays absent |
| AdvancedExtraction.WriteAttachmentsContent | Advanced_Email_extractor.py:183-186 | the file of an attachment holds its bytes when no later attachment of the message has the same filename |
| AdvancedExtraction.SameFilenameOverwrites | Advanced_Email_extractor.py:183-187 | two attachments with one filename share one file holding the later one's bytes, and both record that path |
| AdvancedExtraction.WriteAllKeepsOthers | Advanced_Email_extractor.py:174-186 | after the whole loop, a file no attachment is written to keeps its bytes, or stays absent |
| AdvancedExtraction.WriteAllContent | Advanced_Email_extractor.py:174-186 | after the whole loop, an attachment's file holds its bytes when nothing later is written to the same path |
| AdvancedExtraction.WithKey | Advanced_Email_extractor.py:179-181 | the reference group of a key holds only emails with that key |
| AdvancedExtraction.GroupKeysListedOnce | Advanced_Email_extractor.py:179-180 | the dictionary's keys, in insertion order, each once |
| AdvancedExtraction.GroupsAreFilters | Advanced_Email_extractor.py:174-181 | under each key are exactly the emails with that key, in input order, and at least one |
| AdvancedExtraction.EveryEmailIsGrouped | Advanced_Email_extractor.py:174-181 | every email's key is in the dictionary: each email lands under exactly its own key |
| AdvancedExtraction.UngroupedKeyHasNoEmails | Advanced_Email_extractor.py:179-181 | a key absent from the dictionary belongs to no email |
| AdvancedExtraction.PageOrdering | Advanced_Email_extractor.py:219-220 | one button and one section per day key, ascending, each section under its button's day |
| AdvancedExtraction.DaySectionOrdering | Advanced_Email_extractor.py:220 | a day's section holds exactly that day's emails, by raw date header descending |
| AdvancedExtraction.JsonCountsAndLocatesEverything | Advanced_Email_extractor.py:226-230 | `total_emails` is the number of emails, listed in order, each attachment with the path it was written to |
| AdvancedExtraction.WriteFullCsv | Advanced_Email_extractor.py:160-170 | the CSV loop writes `FullCsv` with an "Exporting CSV i/total" line per email |
| AdvancedExtraction.SaveAttachments | Advanced_Email_extractor.py:183-187 | each attachment is written to its path and the path is recorded on it |
| AdvancedExtraction.GroupAndSave | Advanced_Email_extractor.py:173-189 | the grouping loop: the saved emails, their grouping, the written files and the progress lines |
| AdvancedExtraction.FullExtract | Advanced_Email_extractor.py:155-234 | `full_extraction` computes `ExtractionOf` and its progress lines |
| AdvancedExtractor.ExportNew | Advanced_Email_extractor.py:304-316 | the export step computes `ExportStep`: the simple append with banner, the full extraction, or the "No new emails found" info box |
| AdvancedExtractor.MutateAsChosen | Advanced_Email_extractor.py:318-325 | the chosen sweep over the whole listing with its progress lines, closing line and success box |
| AdvancedExtractor.ProcessEmailsThread | Advanced_Email_extractor.py:278-325 | the thread computes `ThreadOutcome` |
| AdvancedExtractor.ProcessListing | Advanced_Email_extractor.py:295-325 | after a non-empty listing: ledger, requests, export step and sweep, with their events |
| AdvancedExtractor.StartOutcome | Advanced_Email_extractor.py:391-411 | the error box for an empty sender exactly when it is empty; the date error box exactly when a non-empty date fails to parse; otherwise the thread runs on the CSV path of the mode |
| AdvancedExtractor.AcceptedRequestStartsThread | Advanced_Email_extractor.py:391-411 | a request with a sender and dates that parse (or are empty) starts the thread on that sender and the parsed bounds |
| AdvancedExtractor.StartProcessing | Advanced_Email_extractor.py:391-411 | `start_processing` computes `StartOutcome` |
| AdvancedExtractor.ProcessingNotes | Advanced_Email_extractor.py:295-303 | one "Processing i/n messages" line per listed message |
| AdvancedExtractor.EmptyListingOnlyReports | Advanced_Email_extractor.py:287-293 | an empty listing posts one info completion after the two status events, and nothing is read, fetched, written or mutated |
| AdvancedExtractor.MutationCoversWholeListing | Advanced_Email_extractor.py:318-325 | delete/archive sends its call for every listed message, whatever was exported |
| AdvancedExtractor.ExportedAreNewListedMessages | Advanced_Email_extractor.py:298-302 | every exported record is a listed message outside the ledger, fetched successfully |
| AdvancedExtractor.ExportEndsWithCompletion | Advanced_Email_extractor.py:304-316 | the export step always ends with its own completion event |
| AdvancedExtractor.ExportCompletesBeforeSweep | Advanced_Email_extractor.py:304-325 | with delete or archive chosen, the export's completion is posted before the sweep's progress lines and the sweep's own completion |
| AdvancedExtractor.BannerOnlyOnNewFile | Advanced_Email_extractor.py:135-151 | simple mode: a new file gets banner and header before the summaries, an existing one only the summaries; no other file changes |
| AdvancedExtractor.FullModeRewritesItsLedger | Advanced_Email_extractor.py:279-280 | full mode: the extraction rewrites the very CSV the ledger is read from |
| AdvancedExtractor.ExportLeavesEmptyLedger | Advanced_Email_extractor.py:236-248 | after an export into a CSV that did not exist, in any mode, its ledger is empty |
| AdvancedExtractor.RerunRefetchesEverything | Advanced_Email_extractor.py:295-302 | starting without the CSV, a run and a re-run both request every listed id: the advanced script is not idempotent |

The twins of the cited lines in the other scripts are the same code:

- `get_emails`: Full_extractor.py:51-71 and Full_extractor_GUI.py:53-73.
- `get_message_body`: Full_extractor.py:73-88 and Full_extractor_GUI.py:75-90.
- `get_email_details`: Full_extractor_GUI.py:92-110.
- `read_existing_ids`: Advanced_Email_extractor.py:236-248 and Full_extractor_GUI.py:130-142.
- `delete_or_archive_emails`: Full_extractor.py:142-163 and Full_extractor_GUI.py:144-168.

## Left out

- Authentication is not modelled: `authenticate_gmail` with its token file, refresh and consent flow is foreign library code and file I/O.
- `build`, the service object and `time.sleep` are not modelled. Calls are outcome oracles, and sleeps are recorded as the list of waits.
- `load_config` and `logging` are not modelled. The CSV directory is a parameter. The configured `max_retries` is never passed by the scripts, so the default 3 is used.
- Progress percentages are left out; the texts of the progress, status and completion items are modelled.
- Terminal output is left out. This covers the `print` calls of the command-line scripts, including their "Processing i/n" lines.
- The Tk widgets, `check_queue` polling, the `Thread` and the `Queue` are not modelled. The thread is modelled as running to completion, with its queue items as a sequence. That a completion re-enables the button while the sweep still runs is concurrency and is left out; only the order of the items is proved.
- CSV quoting and escaping are left out. A file is a sequence of lines of cells. `Unreadable` stands for a line on which the reader raises, such as an encoding error.
- Empty CSV files and data lines shorter than the header are modelled only as far as `read_existing_ids` goes. Writers always produce full rows.
- The `repr` escaping of filenames in the full CSV's attachments column is left out: names are quoted as given.
- Write failures and permission errors are left out: file writes always succeed. `os.makedirs` is left out, including its failure when the CSV directory is the empty string.
- The markup and styling of `emails.html` are left out; the page is its buttons and sections. The layout of `emails.json` is left out; the dump is its fields.
- In `full_extraction` the email is appended to its day's list before `att['path']` is set on the same dictionary. The model works on values and groups the emails once their paths are set; the resulting page is the same.
- `datetime.strptime` is left out; both date formats are abstract parsers. `strftime` is modelled.
- Unicode case mapping is left out: `Text.AsciiLower` lowers ASCII letters only. The only strings lowered are the literal actions 'delete' and 'archive'.
- Missing keys in a service response are left out: payload 'headers', a part's 'mimeType' or 'body' are assumed present.
- Pagination is left out: only the first page of a listing is read, as the scripts do. `nextPageToken` is never followed.
- `main` entry points and `__main__` guards are not modelled; each flow's entry is a method.
- Sorting.SortBySortsAndPermutes: does not state that Python's sort is stable (equal keys keep their input order). The model's insertion keeps them in input order too, but that is not proved.
