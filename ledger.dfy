/**
 * The incremental-export ledger: the CSV file each script appends to, and
 * `read_existing_ids`, which reads the 'id' column back with `csv.DictReader`.
 *
 * A file is its sequence of logical lines (quoting and line endings are the csv
 * module's business); a line the reader cannot produce (a decoding error, a
 * malformed quote) is `Unreadable`. The first line is the `DictReader` header;
 * blank lines after it are skipped; the value of a key is taken from the last
 * header column with that name, and a row shorter than that column gives the
 * reader's `restval`, `None`, which never equals a message id and is left out of
 * the set here.
 */
module Ledger {
  import opened Mail
  import opened Text

  datatype Line = Cells(cells: seq<string>) | Unreadable

  /** The content of the file at a path, or `None` when no file exists there. */
  type CsvFile = Option<seq<Line>>

  /** The CSV files on disk, by path. */
  type Disk = map<string, seq<Line>>

  /** `os.path.isfile(path)` and the content at `path`. */
  function FileAt(disk: Disk, path: string): (file: CsvFile)
    ensures file.Some? <==> path in disk
  {
    if path in disk then Some(disk[path]) else None
  }

  /** The `fieldnames` of the email writers: id, date, from, subject, body. */
  const Fieldnames: seq<string> := ["id", "date", "from", "subject", "body"]

  /** `writer.writerow(email)` of a DictWriter over `Fieldnames`: the cells in field order. */
  function EmailRow(e: Email): (row: seq<string>)
    ensures |row| == |Fieldnames|
    ensures forall k | 0 <= k < |row| && Fieldnames[k] == "id" :: row[k] == e.id
  {
    [e.id, e.date, e.sender, e.subject, e.body]
  }

  /** One line per row, in order. */
  function RowLines(rows: seq<seq<string>>): (lines: seq<Line>)
    ensures |lines| == |rows|
    ensures forall i | 0 <= i < |rows| :: lines[i] == Cells(rows[i])
  {
    seq(|rows|, i requires 0 <= i < |rows| => Cells(rows[i]))
  }

  /** The rows of a list of emails, in order. */
  function EmailRows(es: seq<Email>): (rows: seq<seq<string>>)
    ensures |rows| == |es|
    ensures forall i | 0 <= i < |es| :: rows[i] == EmailRow(es[i])
  {
    seq(|es|, i requires 0 <= i < |es| => EmailRow(es[i]))
  }

  /** The set of ids of a list of emails. */
  function IdsOf(es: seq<Email>): (ids: set<string>)
    ensures forall i | 0 <= i < |es| :: es[i].id in ids
    ensures forall id | id in ids :: exists i | 0 <= i < |es| :: es[i].id == id
  {
    if es == [] then {}
    else
      var rest := IdsOf(es[1..]);
      assert forall id | id in rest :: exists i | 1 <= i < |es| :: es[i].id == id by {
        forall id | id in rest ensures exists i | 1 <= i < |es| :: es[i].id == id {
          var j :| 0 <= j < |es[1..]| && es[1..][j].id == id;
          assert es[j + 1] == es[1..][j];
        }
      }
      {es[0].id} + rest
  }

  /**
   * The file once `rows` are written with `open(…, 'a' if exists else 'w')`: a new
   * file gets the `preamble` lines (the header, or a banner and the header) first;
   * an existing file keeps its lines and the rows follow them.
   */
  function Appended(file: CsvFile, preamble: seq<Line>, rows: seq<seq<string>>): (after: seq<Line>)
    ensures file.Some? ==> after == file.value + RowLines(rows)
    ensures file.None? ==> after == preamble + RowLines(rows)
  {
    match file
    case Some(lines) => lines + RowLines(rows)
    case None => preamble + RowLines(rows)
  }

  /** The disk after `if new_emails: export_to_csv(new_emails, csv_filename)`: untouched when nothing is new. */
  function DiskAfterExport(disk: Disk, path: string, exported: seq<Email>): (after: Disk)
    ensures exported == [] ==> after == disk
    ensures exported != [] ==> after == disk[path := Appended(FileAt(disk, path), [Cells(Fieldnames)], EmailRows(exported))]
  {
    if exported == [] then disk
    else disk[path := Appended(FileAt(disk, path), [Cells(Fieldnames)], EmailRows(exported))]
  }

  /** The progress line after row `i` of `total` is written: `f"Exporting {i}/{total} emails"`. */
  function ExportNote(i: nat, total: nat): string {
    "Exporting " + Decimal(i) + "/" + Decimal(total) + " emails"
  }

  /** The progress lines of an export, numbered by the position (from 1) of each written email. */
  function ExportNotes(emails: seq<Option<Email>>, total: nat): (notes: seq<string>)
    ensures |notes| == |Present(emails)|
  {
    if emails == [] then []
    else
      var init := emails[..|emails| - 1];
      ExportNotes(init, total) + (if emails[|emails| - 1].Some? then [ExportNote(|emails|, total)] else [])
  }

  /**
   * `export_to_csv`: the preamble only for a new file (the header, or in the advanced
   * script a banner and the header), then one row per email that is not `None`, in
   * order, each followed by its progress line.
   */
  method ExportToCsv(file: CsvFile, preamble: seq<Line>, emails: seq<Option<Email>>)
    returns (after: seq<Line>, notes: seq<string>)
    ensures after == Appended(file, preamble, EmailRows(Present(emails)))
    ensures notes == ExportNotes(emails, |emails|)
  {
    after := if file.None? then preamble else file.value;
    notes := [];
    for i := 0 to |emails|
      invariant after == Appended(file, preamble, EmailRows(Present(emails[..i])))
      invariant notes == ExportNotes(emails[..i], |emails|)
    {
      ExportToCsvStep(file, preamble, emails, i);
      ExportNotesStep(emails, i, |emails|);
      if emails[i].Some? {
        after := after + [Cells(EmailRow(emails[i].value))];
        notes := notes + [ExportNote(i + 1, |emails|)];
      }
    }
    assert emails[..|emails|] == emails;
  }

  /** One turn of the writing loop: a present email adds its row, an absent one nothing. */
  lemma ExportToCsvStep(file: CsvFile, preamble: seq<Line>, emails: seq<Option<Email>>, i: nat)
    requires i < |emails|
    ensures Appended(file, preamble, EmailRows(Present(emails[..i + 1])))
            == Appended(file, preamble, EmailRows(Present(emails[..i]))) +
               (if emails[i].Some? then [Cells(EmailRow(emails[i].value))] else [])
  {
    var written := Present(emails[..i]);
    PresentStep(emails, i);
    if emails[i].Some? {
      RowsSnoc(written, emails[i].value);
    }
  }

  /** One turn of the writing loop: a present email adds its progress line, an absent one nothing. */
  lemma ExportNotesStep(emails: seq<Option<Email>>, i: nat, total: nat)
    requires i < |emails|
    ensures ExportNotes(emails[..i + 1], total)
            == ExportNotes(emails[..i], total) + (if emails[i].Some? then [ExportNote(i + 1, total)] else [])
  {
    assert emails[..i + 1][..i] == emails[..i];
  }

  lemma PresentStep<T>(xs: seq<Option<T>>, i: nat)
    requires i < |xs|
    ensures Present(xs[..i + 1]) == Present(xs[..i]) + (if xs[i].Some? then [xs[i].value] else [])
  {
    assert xs[..i + 1][..i] == xs[..i];
  }

  lemma RowsSnoc(es: seq<Email>, e: Email)
    ensures RowLines(EmailRows(es + [e])) == RowLines(EmailRows(es)) + [Cells(EmailRow(e))]
  {
  }

  /** The index `dict(zip(header, row))` takes `key` from: its last column in the header. */
  function LastIndexOf(header: seq<string>, key: string): (r: Option<nat>)
    ensures r.None? <==> key !in header
    ensures r.Some? ==> r.value < |header| && header[r.value] == key
    ensures r.Some? ==> forall j | r.value < j < |header| :: header[j] != key
  {
    if header == [] then None
    else if header[|header| - 1] == key then Some(|header| - 1)
    else LastIndexOf(header[..|header| - 1], key)
  }

  /** What `row['id']` does: yields a cell, yields `restval`, or raises KeyError. */
  datatype Lookup = Value(text: string) | Restval | NoSuchKey

  function IdOfRow(header: seq<string>, row: seq<string>): Lookup {
    match LastIndexOf(header, "id")
    case None => NoSuchKey
    case Some(k) => if k < |row| then Value(row[k]) else Restval
  }

  /** The ids read from the data lines, and whether the reading stopped at an exception. */
  datatype Scan = Scan(ids: set<string>, failed: bool)

  function ScanIds(header: seq<string>, lines: seq<Line>): Scan {
    if lines == [] then Scan({}, false)
    else
      match lines[0]
      case Unreadable => Scan({}, true)
      case Cells(row) =>
        if row == [] then ScanIds(header, lines[1..])
        else
          match IdOfRow(header, row)
          case NoSuchKey => Scan({}, true)
          case Restval => ScanIds(header, lines[1..])
          case Value(id) =>
            var rest := ScanIds(header, lines[1..]);
            Scan({id} + rest.ids, rest.failed)
  }

  /**
   * The tolerant `read_existing_ids` of the advanced, full and GUI scripts: the empty
   * set for a missing file, otherwise the ids of the rows read before the first
   * exception, which the `except` swallows.
   */
  function LedgerOf(file: CsvFile): set<string> {
    match file
    case None => {}
    case Some(lines) =>
      if lines == [] then {}
      else
        match lines[0]
        case Unreadable => {}
        case Cells(header) => ScanIds(header, lines[1..]).ids
  }

  /** The strict `read_existing_ids` of the simple script: any exception escapes. */
  function StrictLedgerOf(file: CsvFile): Result<set<string>> {
    match file
    case None => Ok({})
    case Some(lines) =>
      if lines == [] then Ok({})
      else
        match lines[0]
        case Unreadable => Crash
        case Cells(header) =>
          var scan := ScanIds(header, lines[1..]);
          if scan.failed then Crash else Ok(scan.ids)
  }

  /** The `for row in reader: existing_ids.add(row['id'])` loop over the data lines. */
  method ReadRows(header: seq<string>, lines: seq<Line>) returns (ids: set<string>, failed: bool)
    ensures Scan(ids, failed) == ScanIds(header, lines)
  {
    ids, failed := {}, false;
    var i := 0;
    while i < |lines|
      invariant 0 <= i <= |lines|
      invariant var rest := ScanIds(header, lines[i..]);
                ScanIds(header, lines) == Scan(ids + rest.ids, rest.failed)
    {
      assert lines[i..][1..] == lines[i + 1..];
      match lines[i] {
        case Unreadable =>
          failed := true;
          return;
        case Cells(row) =>
          if row != [] {
            match IdOfRow(header, row) {
              case NoSuchKey =>
                failed := true;
                return;
              case Restval =>
              case Value(id) =>
                ids := ids + {id};
            }
          }
      }
      i := i + 1;
    }
  }

  /** `read_existing_ids` with the `try`/`except` around the reading. */
  method ReadExistingIds(file: CsvFile) returns (ids: set<string>)
    ensures ids == LedgerOf(file)
  {
    ids := {};
    if file.Some? && file.value != [] && file.value[0].Cells? {
      var lines := file.value;
      var failed;
      ids, failed := ReadRows(lines[0].cells, lines[1..]);
    }
  }

  /** `read_existing_ids` of the simple script, with no `try` around the reading. */
  method ReadExistingIdsStrict(file: CsvFile) returns (r: Result<set<string>>)
    ensures r == StrictLedgerOf(file)
  {
    r := Ok({});
    if file.Some? && file.value != [] {
      var lines := file.value;
      if lines[0].Unreadable? {
        r := Crash;
      } else {
        var ids, failed := ReadRows(lines[0].cells, lines[1..]);
        r := if failed then Crash else Ok(ids);
      }
    }
  }

  /** Reading a file in two stretches: once the first stretch raised nothing, the ids add up. */
  lemma {:induction false} ScanAppend(header: seq<string>, a: seq<Line>, b: seq<Line>)
    requires !ScanIds(header, a).failed
    ensures ScanIds(header, a + b) == Scan(ScanIds(header, a).ids + ScanIds(header, b).ids, ScanIds(header, b).failed)
  {
    if a == [] {
      assert a + b == b;
    } else {
      assert (a + b)[0] == a[0];
      assert (a + b)[1..] == a[1..] + b;
      ScanAppend(header, a[1..], b);
    }
  }

  /** The id column of the email header is its first column. */
  lemma IdColumnOfFieldnames()
    ensures LastIndexOf(Fieldnames, "id") == Some(0)
  {
    assert Fieldnames[0] == "id";
  }

  /** Under the email header, the rows of a list of emails read back as exactly their ids. */
  lemma {:induction false} EmailRowsReadBack(es: seq<Email>)
    ensures ScanIds(Fieldnames, RowLines(EmailRows(es))) == Scan(IdsOf(es), false)
  {
    var lines := RowLines(EmailRows(es));
    if es != [] {
      assert lines[1..] == RowLines(EmailRows(es[1..]));
      EmailRowsReadBack(es[1..]);
      IdColumnOfFieldnames();
      assert IdOfRow(Fieldnames, EmailRow(es[0])) == Value(es[0].id);
    }
  }

  /**
   * A ledger file the writers without a banner keep: missing, or starting with the
   * email header, with every data line readable.
   */
  predicate Clean(file: CsvFile) {
    file.None? ||
    (file.value != [] && file.value[0] == Cells(Fieldnames) && !ScanIds(Fieldnames, file.value[1..]).failed)
  }

  /**
   * The round trip of a writer without a banner: appending the rows of `es` to a
   * clean ledger file keeps it clean, and the ids read back are the ids read before
   * together with exactly the ids of `es`, for the tolerant and the strict reader alike.
   */
  lemma AppendedRowsReadBack(file: CsvFile, es: seq<Email>)
    requires Clean(file)
    ensures var after := Some(Appended(file, [Cells(Fieldnames)], EmailRows(es)));
            && Clean(after)
            && LedgerOf(after) == LedgerOf(file) + IdsOf(es)
            && StrictLedgerOf(after) == Ok(LedgerOf(file) + IdsOf(es))
  {
    var after := Appended(file, [Cells(Fieldnames)], EmailRows(es));
    var ids := AppendedScan(file, es);
    CleanReadsAsScan(after, ids);
  }

  /** The data lines of the file after the append scan to the old ledger and the new ids. */
  lemma AppendedScan(file: CsvFile, es: seq<Email>) returns (ids: set<string>)
    requires Clean(file)
    ensures ids == LedgerOf(file) + IdsOf(es)
    ensures var after := Appended(file, [Cells(Fieldnames)], EmailRows(es));
            after != [] && after[0] == Cells(Fieldnames) && ScanIds(Fieldnames, after[1..]) == Scan(ids, false)
  {
    EmailRowsReadBack(es);
    if file.None? {
      ids := IdsOf(es);
      NewFileScan(es);
    } else {
      ids := AppendedToExisting(file.value, RowLines(EmailRows(es)));
    }
  }

  /** A new file is the header followed by the rows, which read back as their ids. */
  lemma NewFileScan(es: seq<Email>)
    ensures var after := Appended(None, [Cells(Fieldnames)], EmailRows(es));
            after != [] && after[0] == Cells(Fieldnames) && ScanIds(Fieldnames, after[1..]) == Scan(IdsOf(es), false)
  {
    var rows := RowLines(EmailRows(es));
    EmailRowsReadBack(es);
    assert ([Cells(Fieldnames)] + rows)[1..] == rows;
  }

  lemma AppendedToExisting(lines: seq<Line>, rows: seq<Line>) returns (ids: set<string>)
    requires Clean(Some(lines))
    requires !ScanIds(Fieldnames, rows).failed
    ensures ids == LedgerOf(Some(lines)) + ScanIds(Fieldnames, rows).ids
    ensures lines + rows != [] && (lines + rows)[0] == Cells(Fieldnames)
    ensures ScanIds(Fieldnames, (lines + rows)[1..]) == Scan(ids, false)
  {
    assert (lines + rows)[1..] == lines[1..] + rows;
    ScanAppend(Fieldnames, lines[1..], rows);
    ids := ScanIds(Fieldnames, lines[1..]).ids + ScanIds(Fieldnames, rows).ids;
  }

  /** Both readers of a file that starts with the email header and reads through. */
  lemma CleanReadsAsScan(lines: seq<Line>, ids: set<string>)
    requires lines != [] && lines[0] == Cells(Fieldnames) && ScanIds(Fieldnames, lines[1..]) == Scan(ids, false)
    ensures Clean(Some(lines)) && LedgerOf(Some(lines)) == ids && StrictLedgerOf(Some(lines)) == Ok(ids)
  {
  }

  /** On a clean file the strict reader raises nothing and agrees with the tolerant one. */
  lemma CleanReadsStrictly(file: CsvFile)
    requires Clean(file)
    ensures StrictLedgerOf(file) == Ok(LedgerOf(file))
  {
  }

  /** A header without an "id" column: every data row raises, and no id is ever read. */
  lemma {:induction false} NoIdColumnReadsNothing(header: seq<string>, lines: seq<Line>)
    requires "id" !in header
    ensures ScanIds(header, lines).ids == {}
  {
    if lines != [] && lines[0].Cells? && lines[0].cells == [] {
      NoIdColumnReadsNothing(header, lines[1..]);
    }
  }

  /**
   * A file whose first line has no "id" cell, such as the advanced script's
   * `Sender:`/`Total Emails:` banner, has an empty tolerant ledger, whatever follows.
   */
  lemma FirstLineWithoutIdHidesEveryId(first: seq<string>, rest: seq<Line>)
    requires "id" !in first
    ensures LedgerOf(Some([Cells(first)] + rest)) == {}
  {
    assert ([Cells(first)] + rest)[1..] == rest;
    NoIdColumnReadsNothing(first, rest);
  }
}
