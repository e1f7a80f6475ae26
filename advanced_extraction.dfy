/**
 * The files the advanced script writes: the banner that both of its CSV writers
 * put before the header, and `full_extraction`, which overwrites a seven-column
 * CSV, saves every attachment under a name built from the message id and the
 * attachment's filename, groups the emails by a day key for the HTML page, and
 * dumps a JSON record. The page and the JSON document are kept as structured
 * values; their markup and text layout are not modelled.
 */
module AdvancedExtraction {
  import opened Mail
  import opened Text
  import opened QueryBuilder
  import opened Ledger
  import opened Sorting

  /** `[f"Sender: {sender_email}", f"Total Emails: {len(emails)}"]`, written before the header. */
  function Banner(sender: string, count: nat): (cells: seq<string>)
    ensures |cells| == 2 && "id" !in cells
  {
    var cells := ["Sender: " + sender, "Total Emails: " + Decimal(count)];
    assert |cells[0]| >= 8 && |cells[1]| >= 14;
    cells
  }

  /** `f"emails_from_{sender_email.replace(' ', '_')}"`, the name of the output folder and of its CSV. */
  function OutputName(sender: string): (name: string)
    ensures ' ' !in name
  {
    var name := "emails_from_" + ReplaceChar(sender, ' ', '_');
    assert forall i | 0 <= i < |name| :: name[i] != ' ' by {
      forall i | 0 <= i < |name| ensures name[i] != ' ' {
        if i >= 12 {
          assert name[i] == ReplaceChar(sender, ' ', '_')[i - 12];
        }
      }
    }
    name
  }

  function CsvName(sender: string): string {
    OutputName(sender) + ".csv"
  }

  // ---------------------------------------------------------------- the CSV

  const FullFieldnames: seq<string> := ["id", "date", "from", "subject", "body", "html_body", "attachments"]

  /** `', '.join(repr(name) for name in names)` for names that need no escaping. */
  function QuotedNames(atts: seq<Attachment>): string {
    if atts == [] then ""
    else if |atts| == 1 then "'" + atts[0].filename + "'"
    else "'" + atts[0].filename + "', " + QuotedNames(atts[1..])
  }

  /** `str([a['filename'] for a in v])`. */
  function FilenameList(atts: seq<Attachment>): string {
    "[" + QuotedNames(atts) + "]"
  }

  /** One row of the full-extraction CSV, in the order of `FullFieldnames`. */
  function FullRow(e: DetailedEmail): (row: seq<string>)
    ensures |row| == |FullFieldnames|
    ensures row[0] == e.id && row[5] == e.htmlBody
  {
    [e.id, e.date, e.sender, e.subject, e.body, e.htmlBody, FilenameList(e.attachments)]
  }

  /** The CSV as `full_extraction` writes it with mode 'w': banner, header, one row per email. */
  function FullCsv(sender: string, emails: seq<DetailedEmail>): (lines: seq<Line>)
    ensures |lines| == |emails| + 2
  {
    [Cells(Banner(sender, |emails|)), Cells(FullFieldnames)] +
    seq(|emails|, i requires 0 <= i < |emails| => Cells(FullRow(emails[i])))
  }

  /**
   * Whatever it holds, a CSV the full extraction wrote reads back as an empty
   * ledger: `DictReader` takes the banner for the header, which has no "id" column.
   */
  lemma FullCsvHidesEveryId(sender: string, emails: seq<DetailedEmail>)
    ensures LedgerOf(Some(FullCsv(sender, emails))) == {}
  {
    var lines := FullCsv(sender, emails);
    assert lines == [Cells(Banner(sender, |emails|))] + lines[1..];
    FirstLineWithoutIdHidesEveryId(Banner(sender, |emails|), lines[1..]);
  }

  /** `f"{prefix}{i}/{total}"` for `i` from 1 to `total`. */
  function Counted(prefix: string, total: nat): (notes: seq<string>)
    ensures |notes| == total
  {
    seq(total, i requires 0 <= i < total => prefix + Decimal(i + 1) + "/" + Decimal(total))
  }

  // ---------------------------------------------------------------- day keys

  /**
   * `datetime.strptime(date, '%a, %d %b %Y %H:%M:%S %z')`, as the calendar date in
   * the header's own offset; `None` where it raises ValueError.
   */
  type HeaderDateParser = string -> Option<Date>

  /** `strftime('%Y-%m-%d')`. */
  function Dashed(d: Date): string {
    Fixed(d.year, 4) + "-" + Fixed(d.month, 2) + "-" + Fixed(d.day, 2)
  }

  /** The day key of an email: its parsed date as YYYY-MM-DD, or the text before the first space. */
  function DateKey(parse: HeaderDateParser, date: string): (key: string)
    ensures ' ' !in key
    ensures parse(date).Some? ==> |key| == 10 && key[4] == '-' && key[7] == '-'
  {
    match parse(date)
    case Some(d) =>
      var key := Dashed(d);
      assert forall i | 0 <= i < |key| :: key[i] == '-' || IsDigit(key[i]);
      key
    case None => BeforeFirst(date, ' ')
  }

  /** A header the parser rejects is keyed by its first word: "garbled not a date" lands under "garbled". */
  lemma UnparsedDateKeysOnFirstWord(parse: HeaderDateParser)
    requires parse("garbled not a date").None?
    ensures DateKey(parse, "garbled not a date") == "garbled"
  {
    var s := "garbled not a date";
    assert s[7] == ' ' && forall i | 0 <= i < 7 :: s[i] != ' ';
    DateKeyFallback(parse, s, 7);
    assert s[..7] == "garbled";
  }

  /** A header the parser rejects is keyed by the text before its first space. */
  lemma DateKeyFallback(parse: HeaderDateParser, date: string, k: nat)
    requires parse(date).None?
    requires k < |date| && date[k] == ' ' && forall i | 0 <= i < k :: date[i] != ' '
    ensures DateKey(parse, date) == date[..k]
  {
    BeforeFirstAt(date, ' ', k);
  }

  // ---------------------------------------------------------------- attachments

  /** `os.path.join(folder_path, f"attachment_{email['id']}_{att['filename']}")`. */
  function AttachmentPath(folder: string, id: string, filename: string): string {
    PathJoin(folder, "attachment_" + id + "_" + filename)
  }

  /** The attachments of message `id` once the loop has set `att['path']` on each. */
  function SavedAttachments(folder: string, id: string, atts: seq<Attachment>): seq<Attachment> {
    seq(|atts|, j requires 0 <= j < |atts| => atts[j].(path := Some(AttachmentPath(folder, id, atts[j].filename))))
  }

  function Saved(folder: string, e: DetailedEmail): DetailedEmail {
    e.(attachments := SavedAttachments(folder, e.id, e.attachments))
  }

  function SavedAll(folder: string, es: seq<DetailedEmail>): seq<DetailedEmail> {
    seq(|es|, i requires 0 <= i < |es| => Saved(folder, es[i]))
  }

  /** The binary files on disk, by path. */
  type Blobs = map<string, seq<byte>>

  /** The files after `f.write(att['data'])` for each attachment of one message, in order. */
  function WriteAttachments(blobs: Blobs, folder: string, id: string, atts: seq<Attachment>): Blobs {
    if atts == [] then blobs
    else
      var last := atts[|atts| - 1];
      WriteAttachments(blobs, folder, id, atts[..|atts| - 1])[AttachmentPath(folder, id, last.filename) := last.data]
  }

  function WriteAll(blobs: Blobs, folder: string, es: seq<DetailedEmail>): Blobs {
    if es == [] then blobs
    else
      var last := es[|es| - 1];
      WriteAttachments(WriteAll(blobs, folder, es[..|es| - 1]), folder, last.id, last.attachments)
  }

  /** The paths the attachments of message `id` are written to. */
  function PathsOf(folder: string, id: string, atts: seq<Attachment>): set<string> {
    set j | 0 <= j < |atts| :: AttachmentPath(folder, id, atts[j].filename)
  }

  /** The paths the attachments of all the emails are written to. */
  function AllPaths(folder: string, es: seq<DetailedEmail>): set<string> {
    if es == [] then {}
    else AllPaths(folder, es[..|es| - 1]) + PathsOf(folder, es[|es| - 1].id, es[|es| - 1].attachments)
  }

  lemma {:induction false} WriteAttachmentsDomain(blobs: Blobs, folder: string, id: string, atts: seq<Attachment>)
    ensures WriteAttachments(blobs, folder, id, atts).Keys == blobs.Keys + PathsOf(folder, id, atts)
  {
    if atts != [] {
      var init := atts[..|atts| - 1];
      WriteAttachmentsDomain(blobs, folder, id, init);
      assert atts == init + [atts[|atts| - 1]];
      PathsOfSnoc(folder, id, init, atts[|atts| - 1]);
    }
  }

  lemma PathsOfSnoc(folder: string, id: string, atts: seq<Attachment>, att: Attachment)
    ensures PathsOf(folder, id, atts + [att]) == PathsOf(folder, id, atts) + {AttachmentPath(folder, id, att.filename)}
  {
    var all := atts + [att];
    assert all[|atts|] == att;
    forall j | 0 <= j < |atts| ensures all[j] == atts[j] {
    }
  }

  /** Within one message, two attachments share a path exactly when they share a filename. */
  lemma AttachmentPathInjective(folder: string, id: string, f1: string, f2: string)
    requires AttachmentPath(folder, id, f1) == AttachmentPath(folder, id, f2)
    ensures f1 == f2
  {
    var n1, n2 := "attachment_" + id + "_" + f1, "attachment_" + id + "_" + f2;
    assert n1[0] == 'a' && n2[0] == 'a';
    PathJoinRelativeInjective(folder, n1, n2);
    assert f1 == n1[|"attachment_" + id + "_"|..] && f2 == n2[|"attachment_" + id + "_"|..];
  }

  /** A file no attachment of the message is written to keeps what it held, or stays absent. */
  lemma {:induction false} WriteAttachmentsKeepsOthers(blobs: Blobs, folder: string, id: string, atts: seq<Attachment>, p: string)
    requires p !in PathsOf(folder, id, atts)
    ensures p in WriteAttachments(blobs, folder, id, atts) <==> p in blobs
    ensures p in blobs ==> WriteAttachments(blobs, folder, id, atts)[p] == blobs[p]
  {
    if atts != [] {
      var init, last := atts[..|atts| - 1], atts[|atts| - 1];
      assert atts == init + [last];
      PathsOfSnoc(folder, id, init, last);
      var q := AttachmentPath(folder, id, last.filename);
      assert p != q && p !in PathsOf(folder, id, init);
      WriteAttachmentsKeepsOthers(blobs, folder, id, init, p);
      var before := WriteAttachments(blobs, folder, id, init);
      assert WriteAttachments(blobs, folder, id, atts) == before[q := last.data];
    }
  }

  /**
   * The file of attachment `j` holds its bytes, provided no later attachment of the
   * message has the same filename (which would overwrite it).
   */
  lemma {:induction false} WriteAttachmentsContent(blobs: Blobs, folder: string, id: string, atts: seq<Attachment>, j: nat)
    requires j < |atts|
    requires forall k | j < k < |atts| :: atts[k].filename != atts[j].filename
    ensures var p := AttachmentPath(folder, id, atts[j].filename);
            p in WriteAttachments(blobs, folder, id, atts) && WriteAttachments(blobs, folder, id, atts)[p] == atts[j].data
  {
    var init, last := atts[..|atts| - 1], atts[|atts| - 1];
    if j < |atts| - 1 {
      assert last.filename != atts[j].filename;
      if AttachmentPath(folder, id, last.filename) == AttachmentPath(folder, id, atts[j].filename) {
        AttachmentPathInjective(folder, id, last.filename, atts[j].filename);
      }
      assert init[j] == atts[j];
      WriteAttachmentsContent(blobs, folder, id, init, j);
    }
  }

  /** Two attachments of one message with the same filename share one file, and the later one's bytes win. */
  lemma SameFilenameOverwrites(blobs: Blobs, folder: string, id: string, a: Attachment, b: Attachment)
    requires a.filename == b.filename
    ensures var p := AttachmentPath(folder, id, a.filename);
            && PathsOf(folder, id, [a, b]) == {p}
            && WriteAttachments(blobs, folder, id, [a, b])[p] == b.data
            && SavedAttachments(folder, id, [a, b])[0].path == Some(p)
            && SavedAttachments(folder, id, [a, b])[1].path == Some(p)
  {
    WriteAttachmentsContent(blobs, folder, id, [a, b], 1);
    PathsOfSnoc(folder, id, [a], b);
    PathsOfSnoc(folder, id, [], a);
    assert [a, b] == [a] + [b] && [a] == [] + [a];
  }

  /** A file no attachment of any email is written to keeps what it held, or stays absent. */
  lemma {:induction false} WriteAllKeepsOthers(blobs: Blobs, folder: string, es: seq<DetailedEmail>, p: string)
    requires p !in AllPaths(folder, es)
    ensures p in WriteAll(blobs, folder, es) <==> p in blobs
    ensures p in blobs ==> WriteAll(blobs, folder, es)[p] == blobs[p]
  {
    if es != [] {
      var last := es[|es| - 1];
      WriteAllKeepsOthers(blobs, folder, es[..|es| - 1], p);
      WriteAttachmentsKeepsOthers(WriteAll(blobs, folder, es[..|es| - 1]), folder, last.id, last.attachments, p);
    }
  }

  /**
   * After the whole loop, the file of attachment `j` of email `i` holds its bytes,
   * provided neither a later attachment of that email nor any later email writes
   * to the same path.
   */
  lemma {:induction false} WriteAllContent(blobs: Blobs, folder: string, es: seq<DetailedEmail>, i: nat, j: nat)
    requires i < |es| && j < |es[i].attachments|
    requires forall k | j < k < |es[i].attachments| :: es[i].attachments[k].filename != es[i].attachments[j].filename
    requires AttachmentPath(folder, es[i].id, es[i].attachments[j].filename) !in AllPaths(folder, es[i + 1..])
    ensures var p := AttachmentPath(folder, es[i].id, es[i].attachments[j].filename);
            p in WriteAll(blobs, folder, es) && WriteAll(blobs, folder, es)[p] == es[i].attachments[j].data
  {
    var init, last := es[..|es| - 1], es[|es| - 1];
    var p := AttachmentPath(folder, es[i].id, es[i].attachments[j].filename);
    if i == |es| - 1 {
      WriteAttachmentsContent(WriteAll(blobs, folder, init), folder, last.id, last.attachments, j);
    } else {
      assert es[i + 1..][..|es[i + 1..]| - 1] == init[i + 1..];
      assert es[i + 1..][|es[i + 1..]| - 1] == last;
      assert init[i] == es[i];
      WriteAllContent(blobs, folder, init, i, j);
      WriteAttachmentsKeepsOthers(WriteAll(blobs, folder, init), folder, last.id, last.attachments, p);
    }
  }

  /** One file per attachment path is added to what was there before, and nothing else. */
  lemma {:induction false} AttachmentFilesWritten(blobs: Blobs, folder: string, es: seq<DetailedEmail>)
    ensures WriteAll(blobs, folder, es).Keys == blobs.Keys + AllPaths(folder, es)
  {
    if es != [] {
      var last := es[|es| - 1];
      AttachmentFilesWritten(blobs, folder, es[..|es| - 1]);
      WriteAttachmentsDomain(WriteAll(blobs, folder, es[..|es| - 1]), folder, last.id, last.attachments);
    }
  }

  /** Every attachment of every email has its path among the written ones. */
  lemma {:induction false} EveryAttachmentHasItsFile(folder: string, es: seq<DetailedEmail>)
    ensures forall i, j | 0 <= i < |es| && 0 <= j < |es[i].attachments| ::
              AttachmentPath(folder, es[i].id, es[i].attachments[j].filename) in AllPaths(folder, es)
  {
    if es != [] {
      var init := es[..|es| - 1];
      EveryAttachmentHasItsFile(folder, init);
      forall i, j | 0 <= i < |es| && 0 <= j < |es[i].attachments|
        ensures AttachmentPath(folder, es[i].id, es[i].attachments[j].filename) in AllPaths(folder, es)
      {
        if i < |init| {
          assert es[i] == init[i];
          assert AttachmentPath(folder, init[i].id, init[i].attachments[j].filename) in AllPaths(folder, init);
        } else {
          assert es[i] == es[|es| - 1];
          assert AttachmentPath(folder, es[i].id, es[i].attachments[j].filename) in PathsOf(folder, es[i].id, es[i].attachments);
        }
      }
    }
  }

  /** Every written path is the path of some attachment of some email. */
  lemma {:induction false} EveryFileIsAnAttachment(folder: string, es: seq<DetailedEmail>, p: string)
    requires p in AllPaths(folder, es)
    ensures exists i, j | 0 <= i < |es| && 0 <= j < |es[i].attachments| ::
              p == AttachmentPath(folder, es[i].id, es[i].attachments[j].filename)
  {
    var init := es[..|es| - 1];
    var last := es[|es| - 1];
    if p in AllPaths(folder, init) {
      EveryFileIsAnAttachment(folder, init, p);
      var i, j :| 0 <= i < |init| && 0 <= j < |init[i].attachments| &&
                  p == AttachmentPath(folder, init[i].id, init[i].attachments[j].filename);
      assert es[i] == init[i];
    } else {
      var j :| 0 <= j < |last.attachments| && p == AttachmentPath(folder, last.id, last.attachments[j].filename);
      assert es[|es| - 1] == last;
    }
  }

  // ---------------------------------------------------------------- grouping

  /** `emails_by_date`: the keys in insertion order, and the emails under each key. */
  datatype DateIndex = DateIndex(keys: seq<string>, groups: map<string, seq<DetailedEmail>>)

  /** The grouping loop, as far as the emails given. */
  function Grouped(parse: HeaderDateParser, es: seq<DetailedEmail>): DateIndex {
    if es == [] then DateIndex([], map[])
    else
      var idx := Grouped(parse, es[..|es| - 1]);
      var e := es[|es| - 1];
      AddToIndex(idx, DateKey(parse, e.date), e)
  }

  /** The emails with day key `k`, in input order (a reference definition). */
  function WithKey(parse: HeaderDateParser, es: seq<DetailedEmail>, k: string): (group: seq<DetailedEmail>)
    ensures forall e | e in group :: e in es && DateKey(parse, e.date) == k
  {
    if es == [] then []
    else
      var e := es[|es| - 1];
      WithKey(parse, es[..|es| - 1], k) + (if DateKey(parse, e.date) == k then [e] else [])
  }

  /** The set of entries of a sequence. */
  function Elements(ks: seq<string>): set<string> {
    set k | k in ks
  }

  /** The index's keys are its groups' keys, each listed once. */
  lemma {:induction false} GroupKeysListedOnce(parse: HeaderDateParser, es: seq<DetailedEmail>)
    ensures Grouped(parse, es).groups.Keys == Elements(Grouped(parse, es).keys)
    ensures forall i, j | 0 <= i < j < |Grouped(parse, es).keys| :: Grouped(parse, es).keys[i] != Grouped(parse, es).keys[j]
  {
    if es != [] {
      var init := es[..|es| - 1];
      var k := DateKey(parse, es[|es| - 1].date);
      GroupKeysListedOnce(parse, init);
      if k !in Grouped(parse, init).groups {
        KeyAdded(Grouped(parse, init), k, es[|es| - 1]);
      }
    }
  }

  lemma KeyAdded(before: DateIndex, k: string, e: DetailedEmail)
    requires before.groups.Keys == Elements(before.keys)
    requires forall i, j | 0 <= i < j < |before.keys| :: before.keys[i] != before.keys[j]
    requires k !in before.groups
    ensures AddToIndex(before, k, e).groups.Keys == Elements(AddToIndex(before, k, e).keys)
    ensures forall i, j | 0 <= i < j < |AddToIndex(before, k, e).keys| ::
              AddToIndex(before, k, e).keys[i] != AddToIndex(before, k, e).keys[j]
  {
    var keys := before.keys + [k];
    assert Elements(keys) == Elements(before.keys) + {k};
    forall i, j | 0 <= i < j < |keys| ensures keys[i] != keys[j] {
      if j == |before.keys| {
        assert keys[i] == before.keys[i];
        assert keys[i] in Elements(before.keys);
      }
    }
  }

  /** Under each key are exactly the emails with that key, in input order, and at least one. */
  lemma {:induction false} GroupsAreFilters(parse: HeaderDateParser, es: seq<DetailedEmail>)
    ensures var idx := Grouped(parse, es);
            forall k | k in idx.groups :: idx.groups[k] == WithKey(parse, es, k) && idx.groups[k] != []
  {
    if es != [] {
      var init := es[..|es| - 1];
      GroupsAreFilters(parse, init);
      var k := DateKey(parse, es[|es| - 1].date);
      if k !in Grouped(parse, init).groups {
        UngroupedKeyHasNoEmails(parse, init, k);
      }
    }
  }

  /** A key missing from the index is the key of no email. */
  lemma {:induction false} UngroupedKeyHasNoEmails(parse: HeaderDateParser, es: seq<DetailedEmail>, k: string)
    requires k !in Grouped(parse, es).groups
    ensures WithKey(parse, es, k) == []
  {
    if es != [] {
      UngroupedKeyHasNoEmails(parse, es[..|es| - 1], k);
    }
  }

  /** Every email's key is in the index: every email lands under exactly one key, its own. */
  lemma {:induction false} EveryEmailIsGrouped(parse: HeaderDateParser, es: seq<DetailedEmail>)
    ensures forall i | 0 <= i < |es| :: DateKey(parse, es[i].date) in Grouped(parse, es).groups
  {
    if es != [] {
      var init := es[..|es| - 1];
      EveryEmailIsGrouped(parse, init);
      AddToIndexKeys(Grouped(parse, init), DateKey(parse, es[|es| - 1].date), es[|es| - 1]);
      forall i | 0 <= i < |es| ensures DateKey(parse, es[i].date) in Grouped(parse, es).groups {
        if i < |init| {
          assert es[i] == init[i];
        }
      }
    }
  }

  // ---------------------------------------------------------------- the page

  function Identity(s: string): string { s }

  function DateOf(e: DetailedEmail): string { e.date }

  /** `<a href="{a['path']}" download>{a['filename']}</a>`. */
  datatype Link = Link(path: string, filename: string)

  /** One email on the page: its subject, `html_body or body`, and a link per attachment. */
  datatype Entry = Entry(subject: string, text: string, links: seq<Link>)

  /** The list shown for one day. */
  datatype Section = Section(date: string, entries: seq<Entry>)

  /** `emails.html`: a button per day and a section per day, both in the order of `sorted(keys)`. */
  datatype Page = Page(sender: string, buttons: seq<string>, sections: seq<Section>)

  function EntryOf(e: DetailedEmail): Entry {
    Entry(e.subject, if e.htmlBody != "" then e.htmlBody else e.body,
          seq(|e.attachments|, j requires 0 <= j < |e.attachments| =>
                Link(e.attachments[j].path.GetOr(""), e.attachments[j].filename)))
  }

  /** `sorted(emails_by_date.keys())`. */
  function Days(idx: DateIndex): seq<string> {
    SortBy(idx.keys, Identity, false)
  }

  /** `sorted(emails_by_date[date], key=lambda x: x["date"], reverse=True)`. */
  function DayEmails(idx: DateIndex, k: string): seq<DetailedEmail> {
    SortBy(if k in idx.groups then idx.groups[k] else [], DateOf, true)
  }

  function PageOf(sender: string, idx: DateIndex): Page {
    var days := Days(idx);
    Page(sender, days,
         seq(|days|, i requires 0 <= i < |days| =>
               var emails := DayEmails(idx, days[i]);
               Section(days[i], seq(|emails|, j requires 0 <= j < |emails| => EntryOf(emails[j])))))
  }

  /**
   * The page lists every day key once, ascending; the section of a day lists exactly
   * the emails of that day, by raw date header descending.
   */
  lemma PageOrdering(sender: string, parse: HeaderDateParser, es: seq<DetailedEmail>)
    ensures var idx := Grouped(parse, es);
            var page := PageOf(sender, idx);
            && SortedBy(page.buttons, Identity, false)
            && multiset(page.buttons) == multiset(idx.keys)
            && |page.sections| == |page.buttons|
            && (forall i | 0 <= i < |page.buttons| :: page.buttons[i] in idx.groups && page.sections[i].date == page.buttons[i])
  {
    var idx := Grouped(parse, es);
    GroupKeysListedOnce(parse, es);
    SortBySortsAndPermutes(idx.keys, Identity, false);
    var days := Days(idx);
    forall i | 0 <= i < |days| ensures days[i] in idx.groups {
      assert days[i] in multiset(days);
      assert days[i] in multiset(idx.keys);
      assert days[i] in Elements(idx.keys);
    }
  }

  /** The section of day `k` holds exactly the emails with that key, by raw date header descending. */
  lemma DaySectionOrdering(parse: HeaderDateParser, es: seq<DetailedEmail>, k: string)
    requires k in Grouped(parse, es).groups
    ensures var emails := DayEmails(Grouped(parse, es), k);
            && SortedBy(emails, DateOf, true)
            && multiset(emails) == multiset(WithKey(parse, es, k))
  {
    var idx := Grouped(parse, es);
    GroupsAreFilters(parse, es);
    SortBySortsAndPermutes(idx.groups[k], DateOf, true);
  }

  // ---------------------------------------------------------------- the JSON document

  datatype JsonAttachment = JsonAttachment(filename: string, mimeType: string, path: string)

  datatype JsonEmail = JsonEmail(id: string, date: string, sender: string, subject: string, body: string,
                                 htmlBody: string, attachments: seq<JsonAttachment>)

  /** `emails.json`: the sender, `total_emails` and the saved emails without their bytes. */
  datatype JsonDump = JsonDump(sender: string, totalEmails: nat, emails: seq<JsonEmail>)

  function JsonEmailOf(e: DetailedEmail): JsonEmail {
    JsonEmail(e.id, e.date, e.sender, e.subject, e.body, e.htmlBody,
              seq(|e.attachments|, j requires 0 <= j < |e.attachments| =>
                    JsonAttachment(e.attachments[j].filename, e.attachments[j].mimeType, e.attachments[j].path.GetOr(""))))
  }

  function JsonOf(sender: string, saved: seq<DetailedEmail>): JsonDump {
    JsonDump(sender, |saved|, seq(|saved|, i requires 0 <= i < |saved| => JsonEmailOf(saved[i])))
  }

  /**
   * `total_emails` is the number of emails extracted, the document lists them in
   * order, and each attachment is listed with the path its file was written to.
   */
  lemma JsonCountsAndLocatesEverything(sender: string, folder: string, emails: seq<DetailedEmail>)
    ensures var json := JsonOf(sender, SavedAll(folder, emails));
            && json.totalEmails == |emails| == |json.emails|
            && forall i | 0 <= i < |emails| ::
                 && json.emails[i].id == emails[i].id
                 && |json.emails[i].attachments| == |emails[i].attachments|
                 && forall j | 0 <= j < |emails[i].attachments| ::
                      json.emails[i].attachments[j].path == AttachmentPath(folder, emails[i].id, emails[i].attachments[j].filename)
  {
  }

  // ---------------------------------------------------------------- full_extraction

  /** Everything `full_extraction` leaves behind. */
  datatype Extraction = Extraction(csvPath: string, csv: seq<Line>, blobs: Blobs, page: Page, json: JsonDump)

  function ExtractionOf(parse: HeaderDateParser, emails: seq<DetailedEmail>, sender: string, folder: string,
                        blobs: Blobs): Extraction
  {
    var saved := SavedAll(folder, emails);
    Extraction(PathJoin(folder, CsvName(sender)), FullCsv(sender, emails), WriteAll(blobs, folder, emails),
               PageOf(sender, Grouped(parse, saved)), JsonOf(sender, saved))
  }

  /** The progress lines of `full_extraction`, without their percentages. */
  function ExtractionNotes(total: nat): seq<string> {
    Counted("Exporting CSV ", total) + Counted("Processing attachments ", total) + ["Full extraction complete"]
  }

  /** The CSV loop: banner, header, then one row per email with the attachment names listed. */
  method WriteFullCsv(sender: string, emails: seq<DetailedEmail>) returns (lines: seq<Line>, notes: seq<string>)
    ensures lines == FullCsv(sender, emails)
    ensures notes == Counted("Exporting CSV ", |emails|)
  {
    lines := [Cells(Banner(sender, |emails|)), Cells(FullFieldnames)];
    notes := [];
    for i := 0 to |emails|
      invariant lines == FullCsv(sender, emails)[..i + 2]
      invariant notes == Counted("Exporting CSV ", |emails|)[..i]
    {
      assert FullCsv(sender, emails)[..i + 3] == FullCsv(sender, emails)[..i + 2] + [Cells(FullRow(emails[i]))];
      lines := lines + [Cells(FullRow(emails[i]))];
      CountedPrefix("Exporting CSV ", |emails|, i);
      notes := notes + ["Exporting CSV " + Decimal(i + 1) + "/" + Decimal(|emails|)];
    }
    assert FullCsv(sender, emails)[..|emails| + 2] == FullCsv(sender, emails);
    assert Counted("Exporting CSV ", |emails|)[..|emails|] == Counted("Exporting CSV ", |emails|);
  }

  /** The inner loop: write each attachment of `e` to its path and record the path on it. */
  method SaveAttachments(folder: string, e: DetailedEmail, blobs: Blobs) returns (s: DetailedEmail, written: Blobs)
    ensures s == Saved(folder, e)
    ensures written == WriteAttachments(blobs, folder, e.id, e.attachments)
  {
    var atts: seq<Attachment> := [];
    written := blobs;
    for j := 0 to |e.attachments|
      invariant atts == SavedAttachments(folder, e.id, e.attachments[..j])
      invariant written == WriteAttachments(blobs, folder, e.id, e.attachments[..j])
    {
      var att := e.attachments[j];
      var path := AttachmentPath(folder, e.id, att.filename);
      SaveStep(folder, e.id, e.attachments, j, blobs);
      written := written[path := att.data];
      atts := atts + [att.(path := Some(path))];
    }
    assert e.attachments[..|e.attachments|] == e.attachments;
    s := e.(attachments := atts);
  }

  /** One turn of the attachment loop: the next attachment gets its path and its file. */
  lemma SaveStep(folder: string, id: string, atts: seq<Attachment>, j: nat, blobs: Blobs)
    requires j < |atts|
    ensures SavedAttachments(folder, id, atts[..j + 1])
            == SavedAttachments(folder, id, atts[..j]) + [atts[j].(path := Some(AttachmentPath(folder, id, atts[j].filename)))]
    ensures WriteAttachments(blobs, folder, id, atts[..j + 1])
            == WriteAttachments(blobs, folder, id, atts[..j])[AttachmentPath(folder, id, atts[j].filename) := atts[j].data]
  {
    assert atts[..j + 1] == atts[..j] + [atts[j]];
    SavedAttachmentsSnoc(folder, id, atts[..j], atts[j]);
    WriteAttachmentsSnoc(blobs, folder, id, atts[..j], atts[j]);
  }

  /** `emails_by_date[date_key].append(email)`, creating the list on first use. */
  function AddToIndex(idx: DateIndex, key: string, e: DetailedEmail): DateIndex {
    if key in idx.groups then DateIndex(idx.keys, idx.groups[key := idx.groups[key] + [e]])
    else DateIndex(idx.keys + [key], idx.groups[key := [e]])
  }

  lemma AddToIndexKeys(idx: DateIndex, key: string, e: DetailedEmail)
    ensures AddToIndex(idx, key, e).groups.Keys == idx.groups.Keys + {key}
  {
  }

  lemma SavedAttachmentsSnoc(folder: string, id: string, atts: seq<Attachment>, att: Attachment)
    ensures SavedAttachments(folder, id, atts + [att])
            == SavedAttachments(folder, id, atts) + [att.(path := Some(AttachmentPath(folder, id, att.filename)))]
  {
  }

  lemma WriteAttachmentsSnoc(blobs: Blobs, folder: string, id: string, atts: seq<Attachment>, att: Attachment)
    ensures WriteAttachments(blobs, folder, id, atts + [att])
            == WriteAttachments(blobs, folder, id, atts)[AttachmentPath(folder, id, att.filename) := att.data]
  {
    assert (atts + [att])[..|atts|] == atts;
  }

  lemma WriteAllSnoc(blobs: Blobs, folder: string, es: seq<DetailedEmail>, e: DetailedEmail)
    ensures WriteAll(blobs, folder, es + [e]) == WriteAttachments(WriteAll(blobs, folder, es), folder, e.id, e.attachments)
  {
    assert (es + [e])[..|es|] == es;
  }

  lemma SavedAllSnoc(folder: string, es: seq<DetailedEmail>, e: DetailedEmail)
    ensures SavedAll(folder, es + [e]) == SavedAll(folder, es) + [Saved(folder, e)]
  {
  }

  lemma CountedPrefix(prefix: string, total: nat, i: nat)
    requires i < total
    ensures Counted(prefix, total)[..i + 1] == Counted(prefix, total)[..i] + [prefix + Decimal(i + 1) + "/" + Decimal(total)]
  {
  }

  lemma GroupedSnoc(parse: HeaderDateParser, es: seq<DetailedEmail>, e: DetailedEmail)
    ensures Grouped(parse, es + [e]) == AddToIndex(Grouped(parse, es), DateKey(parse, e.date), e)
  {
    assert (es + [e])[..|es|] == es;
  }

  /** One turn of the grouping loop: the next email is saved, grouped under its day key and its files written. */
  lemma GroupStep(parse: HeaderDateParser, folder: string, emails: seq<DetailedEmail>, i: nat, blobs: Blobs)
    requires i < |emails|
    ensures SavedAll(folder, emails[..i + 1]) == SavedAll(folder, emails[..i]) + [Saved(folder, emails[i])]
    ensures Grouped(parse, SavedAll(folder, emails[..i + 1]))
            == AddToIndex(Grouped(parse, SavedAll(folder, emails[..i])), DateKey(parse, emails[i].date), Saved(folder, emails[i]))
    ensures WriteAll(blobs, folder, emails[..i + 1])
            == WriteAttachments(WriteAll(blobs, folder, emails[..i]), folder, emails[i].id, emails[i].attachments)
  {
    assert emails[..i + 1] == emails[..i] + [emails[i]];
    SavedAllSnoc(folder, emails[..i], emails[i]);
    GroupedSnoc(parse, SavedAll(folder, emails[..i]), Saved(folder, emails[i]));
    WriteAllSnoc(blobs, folder, emails[..i], emails[i]);
  }

  /**
   * The grouping loop: each email goes under its day key, and each of its
   * attachments is written to its path, which is recorded on the attachment. The
   * source appends the email before it sets the paths on the same dictionary; on
   * values, the email is added once its paths are set.
   */
  method GroupAndSave(parse: HeaderDateParser, folder: string, emails: seq<DetailedEmail>, blobs: Blobs)
    returns (idx: DateIndex, saved: seq<DetailedEmail>, written: Blobs, notes: seq<string>)
    ensures saved == SavedAll(folder, emails)
    ensures idx == Grouped(parse, saved)
    ensures written == WriteAll(blobs, folder, emails)
    ensures notes == Counted("Processing attachments ", |emails|)
  {
    idx, saved, written, notes := DateIndex([], map[]), [], blobs, [];
    for i := 0 to |emails|
      invariant saved == SavedAll(folder, emails[..i])
      invariant idx == Grouped(parse, saved)
      invariant written == WriteAll(blobs, folder, emails[..i])
      invariant notes == Counted("Processing attachments ", |emails|)[..i]
    {
      var e := emails[i];
      var key := DateKey(parse, e.date);
      var s;
      s, written := SaveAttachments(folder, e, written);
      GroupStep(parse, folder, emails, i, blobs);
      CountedPrefix("Processing attachments ", |emails|, i);
      idx := AddToIndex(idx, key, s);
      saved := saved + [s];
      notes := notes + ["Processing attachments " + Decimal(i + 1) + "/" + Decimal(|emails|)];
    }
    assert emails[..|emails|] == emails;
    assert Counted("Processing attachments ", |emails|)[..|emails|] == Counted("Processing attachments ", |emails|);
  }

  /** `full_extraction`. */
  method FullExtract(parse: HeaderDateParser, emails: seq<DetailedEmail>, sender: string, folder: string, blobs: Blobs)
    returns (x: Extraction, notes: seq<string>)
    ensures x == ExtractionOf(parse, emails, sender, folder, blobs)
    ensures notes == ExtractionNotes(|emails|)
  {
    var csvPath := PathJoin(folder, CsvName(sender));
    var lines, csvNotes := WriteFullCsv(sender, emails);
    var idx, saved, written, savedNotes := GroupAndSave(parse, folder, emails, blobs);
    x := Extraction(csvPath, lines, written, PageOf(sender, idx), JsonOf(sender, saved));
    notes := csvNotes + savedNotes + ["Full extraction complete"];
  }
}
