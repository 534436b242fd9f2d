/**
 * Wide-to-long normalisation with threshold alerts: the work `process_csv_files`
 * does once the archive has been unpacked and each CSV file parsed.
 *
 * Files are scanned in discovery order; within a file, column by column and,
 * inside a sensor column, row by row. Every qualifying cell appends one record
 * and, when its value is strictly above the threshold for its type, one alert.
 * An exception raised while a file is scanned appends one error message and
 * moves on to the next file; whatever the file appended before it stays.
 *
 * The specification is the forward recursion `Scan` (one file) and `RunFiles`
 * (a batch); `ScanTable` and `ProcessCsvFiles` are the loops, proved against it.
 */
module Ingest {
  import opened Base
  import opened Text
  import opened Classify

  /** The header of the time column, matched exactly. */
  const TimeStampHeader: string := "TimeStamp"
  /** Discovered files whose name ends with this are processed (case-sensitive). */
  const CsvSuffix: string := ".csv"
  const NoCsvMessage: string := "No CSV files found in the uploaded zip"

  /** A date-time value, through the two renderings the service takes of it. */
  datatype Instant = Instant(day: string, second: string)

  /**
   * A non-missing value of the `TimeStamp` column. `Plain` is a value that has
   * no `strftime`, by the name of its Python type: `str` for the text
   * `read_csv` yields when dates are not parsed, `numpy.float64` for a numeric
   * column read through `iterrows`. Formatting it raises.
   */
  datatype Stamp = Dated(at: Instant) | Plain(typeName: string)

  /**
   * One parsed row: the value of its `TimeStamp` column, and one optional
   * number per column, by column position (a missing position reads as missing).
   */
  datatype Row = Row(stamp: Option<Stamp>, cells: seq<Option<real>>)

  /** A parsed CSV file: its headers in order, and its rows in order. */
  datatype Table = Table(columns: seq<string>, rows: seq<Row>)

  /** What parsing a discovered file gave: a table, or the parser's exception. */
  datatype Content = Parsed(table: Table) | Unreadable(reason: string)

  /** A file found in the archive, by base name. */
  datatype Entry = Entry(name: string, content: Content)

  /** The thresholds in force while a batch is processed. */
  datatype Limits = Limits(temp: real, strain: real)

  /** One long-form reading. */
  datatype Record = Record(
    timestamp: Instant, day: string, value: real,
    sensorType: SensorType, platform: Platform,
    sensorId: string, fileSource: string)

  /**
   * An entry of the `alerts` list, which holds both threshold alerts and
   * per-file error messages.
   */
  datatype Notice =
    | Alert(kind: SensorType, value: real, threshold: real, sensor: string,
            platform: Platform, timestamp: string, file: string)
    | Error(message: string)

  /** Why scanning a file stopped. */
  datatype Failure =
    | ReadFailed(reason: string)   // the CSV parser raised
    | NoTimeStampColumn            // `row['TimeStamp']` raised a KeyError
    | NoStrftime(typeName: string) // the time value, of this type, could not be formatted

  function Describe(why: Failure): string
  {
    match why
    case ReadFailed(reason) => reason
    case NoTimeStampColumn => "'TimeStamp'"
    case NoStrftime(typeName) => "'" + typeName + "' object has no attribute 'strftime'"
  }

  /** The message appended for a file whose processing raised. */
  function ErrorMessage(file: string, why: Failure): string
  {
    "Error processing " + file + ": " + Describe(why)
  }

  /** The records and the alert list accumulated so far. */
  datatype Log = Log(data: seq<Record>, notices: seq<Notice>)

  const EmptyLog := Log([], [])

  /** The state of a file's scan: still going, or stopped by an exception. */
  datatype Progress = Going(log: Log) | Stopped(log: Log, why: Failure)

  /** `row[col]`, with `pd.notna` folded in: None when the cell is missing. */
  function CellValue(row: Row, c: nat): Option<real>
  {
    if c < |row.cells| then row.cells[c] else None
  }

  /** A column whose cells are turned into records. */
  predicate IsSensorColumn(column: string)
  {
    column != TimeStampHeader &&
    (SensorTypeOf(column) == Temperature || SensorTypeOf(column) == Strain)
  }

  /** The threshold a reading of the given type is compared against. */
  function ThresholdFor(lim: Limits, kind: SensorType): real
  {
    if kind == Temperature then lim.temp else lim.strain
  }

  /** The alert a record raises: none, or one over its type's threshold. */
  function AlertFor(rec: Record, lim: Limits): (r: seq<Notice>)
    ensures |r| <= 1
  {
    if (rec.sensorType == Temperature && rec.value > lim.temp)
       || (rec.sensorType == Strain && rec.value > lim.strain)
    then [Alert(rec.sensorType, rec.value, ThresholdFor(lim, rec.sensorType), rec.sensorId,
                rec.platform, rec.timestamp.second, rec.fileSource)]
    else []
  }

  /** What processing one cell does. */
  datatype Effect = Skip | Emit(record: Record, alerts: seq<Notice>) | Raise(why: Failure)

  /**
   * One iteration of the row loop for sensor column `c` and row `i`: the cell
   * is tested first, and only a present cell looks up `row['TimeStamp']`.
   */
  function CellEffect(file: string, t: Table, lim: Limits, c: nat, i: nat): Effect
    requires c < |t.columns| && i < |t.rows|
  {
    var column := t.columns[c];
    var row := t.rows[i];
    match CellValue(row, c)
    case None => Skip
    case Some(v) =>
      if TimeStampHeader !in t.columns then Raise(NoTimeStampColumn)
      else match row.stamp
        case None => Skip
        case Some(Plain(typeName)) => Raise(NoStrftime(typeName))
        case Some(Dated(at)) =>
          var rec := Record(at, at.day, v, SensorTypeOf(column), PlatformOf(column), column, file);
          Emit(rec, AlertFor(rec, lim))
  }

  /**
   * Scanning a file from column `c`, row `i` on, starting from `log`:
   * the column loop skips the time column and non-sensor columns, the row
   * loop applies `CellEffect` and stops at the first exception.
   */
  function Scan(file: string, t: Table, lim: Limits, c: nat, i: nat, log: Log): Progress
    decreases |t.columns| - c, |t.rows| - i
  {
    if c >= |t.columns| then Going(log)
    else if !IsSensorColumn(t.columns[c]) || i >= |t.rows| then Scan(file, t, lim, c + 1, 0, log)
    else
      match CellEffect(file, t, lim, c, i)
      case Skip => Scan(file, t, lim, c, i + 1, log)
      case Raise(why) => Stopped(log, why)
      case Emit(rec, alerts) =>
        Scan(file, t, lim, c, i + 1, Log(log.data + [rec], log.notices + alerts))
  }

  /** The try/except around one file: an exception becomes one error message. */
  function RunFile(entry: Entry, lim: Limits, log: Log): Log
  {
    match entry.content
    case Unreadable(reason) =>
      Log(log.data, log.notices + [Error(ErrorMessage(entry.name, ReadFailed(reason)))])
    case Parsed(t) =>
      match Scan(entry.name, t, lim, 0, 0, log)
      case Going(after) => after
      case Stopped(after, why) =>
        Log(after.data, after.notices + [Error(ErrorMessage(entry.name, why))])
  }

  /** The files loop, in discovery order. */
  function RunFiles(files: seq<Entry>, lim: Limits, log: Log): Log
    decreases |files|
  {
    if files == [] then log else RunFiles(files[1..], lim, RunFile(files[0], lim, log))
  }

  /** The discovered files that are processed, in discovery order. */
  function CsvEntries(entries: seq<Entry>): (r: seq<Entry>)
    ensures forall e :: e in r ==> e in entries && EndsWith(e.name, CsvSuffix)
    ensures forall e :: e in entries && EndsWith(e.name, CsvSuffix) ==> e in r
    ensures |r| <= |entries|
  {
    if entries == [] then []
    else
      var init := entries[..|entries| - 1];
      var last := entries[|entries| - 1];
      assert entries == init + [last];
      if EndsWith(last.name, CsvSuffix) then CsvEntries(init) + [last] else CsvEntries(init)
  }

  /** One discovered file is kept exactly when its name ends in `.csv`. */
  lemma CsvEntriesOne(e: Entry)
    ensures CsvEntries([e]) == if EndsWith(e.name, CsvSuffix) then [e] else []
  {
    assert [e][..0] == [];
  }

  /**
   * Selection keeps discovery order and multiplicity: the files kept from a
   * concatenation are those kept from each part, in the same order.
   */
  lemma {:induction false} CsvEntriesAppend(a: seq<Entry>, b: seq<Entry>)
    ensures CsvEntries(a + b) == CsvEntries(a) + CsvEntries(b)
    decreases |b|
  {
    if b == [] {
      assert a + b == a;
    } else {
      var init := b[..|b| - 1];
      var last := b[|b| - 1];
      assert b == init + [last];
      assert a + b == (a + init) + [last];
      assert (a + b)[..|a + b| - 1] == a + init;
      CsvEntriesAppend(a, init);
    }
  }

  /**
   * The try block of `process_csv_files` for one parsed table: the column and
   * row loops, appending to the accumulated records and notices. `raised` is the
   * exception that stopped the scan, if any.
   */
  method ScanTable(file: string, t: Table, lim: Limits, data0: seq<Record>, notices0: seq<Notice>)
    returns (data: seq<Record>, notices: seq<Notice>, raised: Option<Failure>)
    ensures Scan(file, t, lim, 0, 0, Log(data0, notices0)) ==
      if raised.None? then Going(Log(data, notices)) else Stopped(Log(data, notices), raised.value)
  {
    data, notices := data0, notices0;
    ghost var start := Log(data0, notices0);
    var c := 0;
    while c < |t.columns|
      invariant c <= |t.columns|
      invariant Scan(file, t, lim, 0, 0, start) == Scan(file, t, lim, c, 0, Log(data, notices))
    {
      var column := t.columns[c];
      if column != TimeStampHeader {
        var kind := SensorTypeOf(column);
        var platform := PlatformOf(column);
        if kind == Temperature || kind == Strain {
          var i := 0;
          while i < |t.rows|
            invariant i <= |t.rows|
            invariant Scan(file, t, lim, 0, 0, start) == Scan(file, t, lim, c, i, Log(data, notices))
          {
            ghost var before := Log(data, notices);
            var row := t.rows[i];
            var cell := CellValue(row, c);
            if cell.Some? {
              if TimeStampHeader !in t.columns {
                raised := Some(NoTimeStampColumn);
                return;
              }
              if row.stamp.Some? {
                match row.stamp.value
                case Plain(typeName) =>
                  raised := Some(NoStrftime(typeName));
                  return;
                case Dated(at) =>
                  var v := cell.value;
                  var rec := Record(at, at.day, v, kind, platform, column, file);
                  data := data + [rec];
                  if kind == Temperature && v > lim.temp {
                    notices := notices + [Alert(Temperature, v, lim.temp, column, platform, at.second, file)];
                  } else if kind == Strain && v > lim.strain {
                    notices := notices + [Alert(Strain, v, lim.strain, column, platform, at.second, file)];
                  }
                  assert CellEffect(file, t, lim, c, i) == Emit(rec, AlertFor(rec, lim));
                  assert notices == before.notices + AlertFor(rec, lim);
              }
            }
            assert Scan(file, t, lim, c, i, before) == Scan(file, t, lim, c, i + 1, Log(data, notices));
            i := i + 1;
          }
        }
      }
      c := c + 1;
    }
    raised := None;
  }

  /**
   * `process_csv_files` after extraction: select the `.csv` files, report when
   * there are none, otherwise process every file and return what accumulated.
   */
  method ProcessCsvFiles(entries: seq<Entry>, lim: Limits)
    returns (data: Option<seq<Record>>, notices: seq<Notice>)
    ensures CsvEntries(entries) == [] ==> data == None && notices == [Error(NoCsvMessage)]
    ensures CsvEntries(entries) != [] ==>
      var out := RunFiles(CsvEntries(entries), lim, EmptyLog);
      data == Some(out.data) && notices == out.notices
  {
    var csvFiles: seq<Entry> := [];
    for k := 0 to |entries|
      invariant csvFiles == CsvEntries(entries[..k])
    {
      assert entries[..k + 1][..k] == entries[..k];
      if EndsWith(entries[k].name, CsvSuffix) {
        csvFiles := csvFiles + [entries[k]];
      }
    }
    assert entries[..|entries|] == entries;
    if csvFiles == [] {
      return None, [Error(NoCsvMessage)];
    }
    var allData: seq<Record> := [];
    var alerts: seq<Notice> := [];
    for f := 0 to |csvFiles|
      invariant RunFiles(csvFiles, lim, EmptyLog) == RunFiles(csvFiles[f..], lim, Log(allData, alerts))
    {
      var entry := csvFiles[f];
      assert csvFiles[f..][1..] == csvFiles[f + 1..];
      match entry.content
      case Unreadable(reason) =>
        alerts := alerts + [Error(ErrorMessage(entry.name, ReadFailed(reason)))];
      case Parsed(t) =>
        var raised;
        allData, alerts, raised := ScanTable(entry.name, t, lim, allData, alerts);
        if raised.Some? {
          alerts := alerts + [Error(ErrorMessage(entry.name, raised.value))];
        }
    }
    data, notices := Some(allData), alerts;
  }
}
