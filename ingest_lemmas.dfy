/**
 * What the scan promises: which cells become records and in what order,
 * which records raise alerts, when a file ends in an error, and that files
 * do not affect each other's output.
 */
module IngestLemmas {
  import opened Base
  import opened Text
  import opened Classify
  import opened Ingest

  /** Appending one log after another. */
  function Join(a: Log, b: Log): Log
  {
    Log(a.data + b.data, a.notices + b.notices)
  }

  lemma JoinAssociative(a: Log, b: Log, c: Log)
    ensures Join(Join(a, b), c) == Join(a, Join(b, c))
  {
    assert a.data + b.data + c.data == a.data + (b.data + c.data);
    assert a.notices + b.notices + c.notices == a.notices + (b.notices + c.notices);
  }

  /** The cell of sensor column `c`, row `i` yields a record. */
  predicate CellEmits(t: Table, c: nat, i: nat)
    requires i < |t.rows|
  {
    && CellValue(t.rows[i], c).Some?
    && TimeStampHeader in t.columns
    && t.rows[i].stamp.Some?
    && t.rows[i].stamp.value.Dated?
  }

  /** The cell of sensor column `c`, row `i` raises. */
  predicate CellRaises(t: Table, c: nat, i: nat)
    requires i < |t.rows|
  {
    && CellValue(t.rows[i], c).Some?
    && (TimeStampHeader !in t.columns || (t.rows[i].stamp.Some? && t.rows[i].stamp.value.Plain?))
  }

  /** The record a qualifying cell yields. */
  function CellRecord(file: string, t: Table, c: nat, i: nat): Record
    requires c < |t.columns| && i < |t.rows| && CellEmits(t, c, i)
  {
    var at := t.rows[i].stamp.value.at;
    Record(at, at.day, CellValue(t.rows[i], c).value,
           SensorTypeOf(t.columns[c]), PlatformOf(t.columns[c]), t.columns[c], file)
  }

  /**
   * The records a file would yield if nothing raised, column-major: every row
   * of the first sensor column, then every row of the next one.
   */
  function Expected(file: string, t: Table, c: nat, i: nat): seq<Record>
    decreases |t.columns| - c, |t.rows| - i
  {
    if c >= |t.columns| then []
    else if !IsSensorColumn(t.columns[c]) || i >= |t.rows| then Expected(file, t, c + 1, 0)
    else (if CellEmits(t, c, i) then [CellRecord(file, t, c, i)] else []) + Expected(file, t, c, i + 1)
  }

  /** The alerts a sequence of records raises, in record order. */
  function AlertsOf(rs: seq<Record>, lim: Limits): (r: seq<Notice>)
    ensures |r| <= |rs|
    ensures forall n :: n in r ==>
      && n.Alert?
      && (n.kind == Temperature || n.kind == Strain)
      && n.threshold == ThresholdFor(lim, n.kind)
      && n.value > n.threshold
  {
    if rs == [] then [] else AlertFor(rs[0], lim) + AlertsOf(rs[1..], lim)
  }

  /** A sensor cell that raises, at (c, i). */
  ghost predicate Raising(t: Table, c: int, i: int)
  {
    0 <= c < |t.columns| && 0 <= i < |t.rows| && IsSensorColumn(t.columns[c]) && CellRaises(t, c, i)
  }

  /** Some sensor cell at or after (c, i), in column-major order, raises. */
  ghost predicate RaisesFrom(t: Table, c: nat, i: nat)
  {
    exists c', i' :: (c' > c || (c' == c && i' >= i)) && Raising(t, c', i')
  }

  /**
   * The rule for one cell: a record exactly when the value and the row's time
   * value are both present and the time value is a date-time; an exception
   * exactly when the value is present and `TimeStamp` is absent or not a
   * date-time. The record carries the column's name, type and platform, and
   * the file's name; its alert is the one over its type's threshold.
   */
  lemma CellRule(file: string, t: Table, lim: Limits, c: nat, i: nat)
    requires c < |t.columns| && i < |t.rows|
    ensures CellEffect(file, t, lim, c, i).Emit? <==> CellEmits(t, c, i)
    ensures CellEffect(file, t, lim, c, i).Raise? <==> CellRaises(t, c, i)
    ensures CellEffect(file, t, lim, c, i).Raise? ==>
      (CellEffect(file, t, lim, c, i).why == NoTimeStampColumn <==> TimeStampHeader !in t.columns)
    ensures CellEffect(file, t, lim, c, i).Emit? ==>
      var rec := CellEffect(file, t, lim, c, i).record;
      && rec.sensorId == t.columns[c]
      && rec.fileSource == file
      && rec.value == CellValue(t.rows[i], c).value
      && rec.timestamp == t.rows[i].stamp.value.at
      && rec.day == rec.timestamp.day
      && rec.sensorType == SensorTypeOf(t.columns[c])
      && rec.platform == PlatformOf(t.columns[c])
      && CellEffect(file, t, lim, c, i).alerts == AlertFor(rec, lim)
  {
  }

  /**
   * A record raises an alert exactly when its value is strictly above the
   * threshold of its type; the alert repeats the record's value, sensor,
   * platform, file and second-precision time, and carries the threshold used.
   */
  lemma AlertIffOverThreshold(rec: Record, lim: Limits)
    ensures AlertFor(rec, lim) != [] <==>
      (rec.sensorType == Temperature || rec.sensorType == Strain)
      && rec.value > ThresholdFor(lim, rec.sensorType)
    ensures rec.value == ThresholdFor(lim, rec.sensorType) ==> AlertFor(rec, lim) == []
    ensures AlertFor(rec, lim) != [] ==>
      AlertFor(rec, lim) == [Alert(rec.sensorType, rec.value, ThresholdFor(lim, rec.sensorType),
                                   rec.sensorId, rec.platform, rec.timestamp.second, rec.fileSource)]
  {
  }

  lemma RaisesFromRow(t: Table, c: nat, i: nat)
    requires c < |t.columns| && i < |t.rows| && IsSensorColumn(t.columns[c])
    ensures RaisesFrom(t, c, i) <==> CellRaises(t, c, i) || RaisesFrom(t, c, i + 1)
  {
    if RaisesFrom(t, c, i) {
      var c', i' :| (c' > c || (c' == c && i' >= i)) && Raising(t, c', i');
      if !(c' == c && i' == i) {
        assert (c' > c || (c' == c && i' >= i + 1)) && Raising(t, c', i');
      }
    }
    if CellRaises(t, c, i) {
      assert Raising(t, c, i);
    }
  }

  lemma RaisesFromColumn(t: Table, c: nat, i: nat)
    requires c < |t.columns| && (!IsSensorColumn(t.columns[c]) || i >= |t.rows|)
    ensures RaisesFrom(t, c, i) <==> RaisesFrom(t, c + 1, 0)
  {
    if RaisesFrom(t, c, i) {
      var c', i' :| (c' > c || (c' == c && i' >= i)) && Raising(t, c', i');
      assert c' > c;
      assert (c' > c + 1 || (c' == c + 1 && i' >= 0)) && Raising(t, c', i');
    }
  }

  lemma NoRaisePastEnd(t: Table, c: nat, i: nat)
    requires c >= |t.columns|
    ensures !RaisesFrom(t, c, i)
  {
  }

  /** Scanning from a non-empty log only prefixes what scanning from nothing gives. */
  lemma {:induction false} ScanFrame(file: string, t: Table, lim: Limits, c: nat, i: nat, log: Log)
    ensures Scan(file, t, lim, c, i, log).Going? == Scan(file, t, lim, c, i, EmptyLog).Going?
    ensures Scan(file, t, lim, c, i, log).log == Join(log, Scan(file, t, lim, c, i, EmptyLog).log)
    ensures Scan(file, t, lim, c, i, log).Stopped? ==>
      Scan(file, t, lim, c, i, log).why == Scan(file, t, lim, c, i, EmptyLog).why
    decreases |t.columns| - c, |t.rows| - i
  {
    if c >= |t.columns| {
    } else if !IsSensorColumn(t.columns[c]) || i >= |t.rows| {
      ScanFrame(file, t, lim, c + 1, 0, log);
    } else {
      match CellEffect(file, t, lim, c, i)
      case Skip =>
        ScanFrame(file, t, lim, c, i + 1, log);
      case Raise(_) =>
      case Emit(rec, alerts) =>
        var next := Log(log.data + [rec], log.notices + alerts);
        ScanFrame(file, t, lim, c, i + 1, next);
        ScanFrame(file, t, lim, c, i + 1, Log([rec], alerts));
        assert Log(EmptyLog.data + [rec], EmptyLog.notices + alerts) == Log([rec], alerts);
        var rest := Scan(file, t, lim, c, i + 1, EmptyLog).log;
        assert log.data + [rec] + rest.data == log.data + ([rec] + rest.data);
        assert log.notices + alerts + rest.notices == log.notices + (alerts + rest.notices);
    }
  }

  /** A file's scan stops exactly when some sensor cell at or after (c, i) raises. */
  lemma {:induction false} ScanStopsIffRaising(file: string, t: Table, lim: Limits, c: nat, i: nat)
    ensures Scan(file, t, lim, c, i, EmptyLog).Stopped? <==> RaisesFrom(t, c, i)
    decreases |t.columns| - c, |t.rows| - i
  {
    if c >= |t.columns| {
      NoRaisePastEnd(t, c, i);
    } else if !IsSensorColumn(t.columns[c]) || i >= |t.rows| {
      ScanStopsIffRaising(file, t, lim, c + 1, 0);
      RaisesFromColumn(t, c, i);
    } else {
      CellRule(file, t, lim, c, i);
      RaisesFromRow(t, c, i);
      match CellEffect(file, t, lim, c, i)
      case Skip =>
        ScanStopsIffRaising(file, t, lim, c, i + 1);
      case Raise(_) =>
      case Emit(rec, alerts) =>
        ScanStopsIffRaising(file, t, lim, c, i + 1);
        ScanFrame(file, t, lim, c, i + 1, Log([rec], alerts));
        assert Log(EmptyLog.data + [rec], EmptyLog.notices + alerts) == Log([rec], alerts);
    }
  }

  /**
   * The records a file's scan yields are a prefix of the column-major records
   * the file holds, and all of them when the scan does not stop.
   */
  lemma {:induction false} ScanRecords(file: string, t: Table, lim: Limits, c: nat, i: nat)
    ensures Scan(file, t, lim, c, i, EmptyLog).log.data <= Expected(file, t, c, i)
    ensures Scan(file, t, lim, c, i, EmptyLog).Going? ==>
      Scan(file, t, lim, c, i, EmptyLog).log.data == Expected(file, t, c, i)
    decreases |t.columns| - c, |t.rows| - i
  {
    if c >= |t.columns| {
    } else if !IsSensorColumn(t.columns[c]) || i >= |t.rows| {
      ScanRecords(file, t, lim, c + 1, 0);
    } else {
      CellRule(file, t, lim, c, i);
      match CellEffect(file, t, lim, c, i)
      case Skip =>
        ScanRecords(file, t, lim, c, i + 1);
      case Raise(_) =>
      case Emit(rec, alerts) =>
        ScanRecords(file, t, lim, c, i + 1);
        ScanFrame(file, t, lim, c, i + 1, Log([rec], alerts));
        assert Log(EmptyLog.data + [rec], EmptyLog.notices + alerts) == Log([rec], alerts);
        assert CellRecord(file, t, c, i) == rec;
    }
  }

  /**
   * (ec, ei) is the first sensor cell at or after (c, i), in column-major
   * order, that raises.
   */
  ghost predicate FirstRaise(t: Table, c: nat, i: nat, ec: nat, ei: nat)
  {
    && Raising(t, ec, ei)
    && (ec > c || (ec == c && ei >= i))
    && forall c', i' :: Raising(t, c', i') && (c' > c || (c' == c && i' >= i)) ==>
         c' > ec || (c' == ec && i' >= ei)
  }

  lemma FirstRaiseHere(t: Table, c: nat, i: nat)
    requires Raising(t, c, i)
    ensures FirstRaise(t, c, i, c, i)
  {
  }

  lemma FirstRaiseAfterCell(t: Table, c: nat, i: nat, ec: nat, ei: nat)
    requires !Raising(t, c, i) && FirstRaise(t, c, i + 1, ec, ei)
    ensures FirstRaise(t, c, i, ec, ei)
  {
  }

  lemma FirstRaiseAfterColumn(t: Table, c: nat, i: nat, ec: nat, ei: nat)
    requires c < |t.columns| && (!IsSensorColumn(t.columns[c]) || i >= |t.rows|)
    requires FirstRaise(t, c + 1, 0, ec, ei)
    ensures FirstRaise(t, c, i, ec, ei)
  {
  }

  /** The cell (ec, ei) splits a stopped scan from (c, i): what it keeps, and why it stops. */
  ghost predicate SplitsAt(file: string, t: Table, lim: Limits, c: nat, i: nat, ec: nat, ei: nat)
  {
    && Scan(file, t, lim, c, i, EmptyLog).Stopped?
    && FirstRaise(t, c, i, ec, ei)
    && Scan(file, t, lim, c, i, EmptyLog).log.data + Expected(file, t, ec, ei) == Expected(file, t, c, i)
    && Scan(file, t, lim, c, i, EmptyLog).why == CellEffect(file, t, lim, ec, ei).why
  }

  lemma SplitsAtColumn(file: string, t: Table, lim: Limits, c: nat, i: nat, ec: nat, ei: nat)
    requires c < |t.columns| && (!IsSensorColumn(t.columns[c]) || i >= |t.rows|)
    requires SplitsAt(file, t, lim, c + 1, 0, ec, ei)
    ensures SplitsAt(file, t, lim, c, i, ec, ei)
  {
    assert Scan(file, t, lim, c, i, EmptyLog) == Scan(file, t, lim, c + 1, 0, EmptyLog);
    FirstRaiseAfterColumn(t, c, i, ec, ei);
  }

  lemma SplitsAtSkip(file: string, t: Table, lim: Limits, c: nat, i: nat, ec: nat, ei: nat)
    requires c < |t.columns| && i < |t.rows| && IsSensorColumn(t.columns[c])
    requires CellEffect(file, t, lim, c, i).Skip?
    requires SplitsAt(file, t, lim, c, i + 1, ec, ei)
    ensures SplitsAt(file, t, lim, c, i, ec, ei)
  {
    CellRule(file, t, lim, c, i);
    assert Scan(file, t, lim, c, i, EmptyLog) == Scan(file, t, lim, c, i + 1, EmptyLog);
    FirstRaiseAfterCell(t, c, i, ec, ei);
  }

  lemma SplitsAtEmit(file: string, t: Table, lim: Limits, c: nat, i: nat, ec: nat, ei: nat)
    requires c < |t.columns| && i < |t.rows| && IsSensorColumn(t.columns[c])
    requires CellEffect(file, t, lim, c, i).Emit?
    requires SplitsAt(file, t, lim, c, i + 1, ec, ei)
    ensures SplitsAt(file, t, lim, c, i, ec, ei)
  {
    CellRule(file, t, lim, c, i);
    var effect := CellEffect(file, t, lim, c, i);
    var rec := effect.record;
    assert Scan(file, t, lim, c, i, EmptyLog) == Scan(file, t, lim, c, i + 1, Log([] + [rec], [] + effect.alerts));
    assert Log([] + [rec], [] + effect.alerts) == Log([rec], effect.alerts);
    ScanFrame(file, t, lim, c, i + 1, Log([rec], effect.alerts));
    var p := Scan(file, t, lim, c, i, EmptyLog);
    var q := Scan(file, t, lim, c, i + 1, EmptyLog);
    assert p.Stopped? && p.log.data == [rec] + q.log.data && p.why == q.why;
    assert CellRecord(file, t, c, i) == rec;
    assert Expected(file, t, c, i) == [rec] + Expected(file, t, c, i + 1);
    assert [rec] + q.log.data + Expected(file, t, ec, ei) == [rec] + (q.log.data + Expected(file, t, ec, ei));
    FirstRaiseAfterCell(t, c, i, ec, ei);
  }

  /** The first raising cell of a scan that stops, found by following the scan. */
  lemma {:induction false} StoppedScanCell(file: string, t: Table, lim: Limits, c: nat, i: nat)
    returns (ec: nat, ei: nat)
    requires Scan(file, t, lim, c, i, EmptyLog).Stopped?
    ensures SplitsAt(file, t, lim, c, i, ec, ei)
    decreases |t.columns| - c, |t.rows| - i
  {
    if !IsSensorColumn(t.columns[c]) || i >= |t.rows| {
      ec, ei := StoppedScanCell(file, t, lim, c + 1, 0);
      SplitsAtColumn(file, t, lim, c, i, ec, ei);
    } else {
      var effect := CellEffect(file, t, lim, c, i);
      if effect.Raise? {
        ec, ei := c, i;
        CellRule(file, t, lim, c, i);
        assert Scan(file, t, lim, c, i, EmptyLog) == Stopped(EmptyLog, effect.why);
        assert [] + Expected(file, t, c, i) == Expected(file, t, c, i);
        FirstRaiseHere(t, c, i);
      } else if effect.Skip? {
        ec, ei := StoppedScanCell(file, t, lim, c, i + 1);
        SplitsAtSkip(file, t, lim, c, i, ec, ei);
      } else {
        assert Scan(file, t, lim, c, i + 1, EmptyLog).Stopped? by {
          ScanFrame(file, t, lim, c, i + 1, Log([effect.record], effect.alerts));
          assert Log([] + [effect.record], [] + effect.alerts) == Log([effect.record], effect.alerts);
        }
        ec, ei := StoppedScanCell(file, t, lim, c, i + 1);
        SplitsAtEmit(file, t, lim, c, i, ec, ei);
      }
    }
  }

  /**
   * A scan that stops keeps exactly the records of the cells before the first
   * raising cell: followed by the records from that cell on, they give all the
   * column-major records from the start. It stops for that cell's reason.
   */
  lemma ScanStopsAtFirstRaise(file: string, t: Table, lim: Limits, c: nat, i: nat)
    ensures Scan(file, t, lim, c, i, EmptyLog).Stopped? ==>
      exists ec, ei ::
        && FirstRaise(t, c, i, ec, ei)
        && Scan(file, t, lim, c, i, EmptyLog).log.data + Expected(file, t, ec, ei) == Expected(file, t, c, i)
        && Scan(file, t, lim, c, i, EmptyLog).why == CellEffect(file, t, lim, ec, ei).why
  {
    if Scan(file, t, lim, c, i, EmptyLog).Stopped? {
      var ec, ei := StoppedScanCell(file, t, lim, c, i);
      assert SplitsAt(file, t, lim, c, i, ec, ei);
    }
  }

  /** The notices a file's scan yields are exactly the alerts of its records, in order. */
  lemma {:induction false} ScanAlerts(file: string, t: Table, lim: Limits, c: nat, i: nat)
    ensures Scan(file, t, lim, c, i, EmptyLog).log.notices ==
      AlertsOf(Scan(file, t, lim, c, i, EmptyLog).log.data, lim)
    decreases |t.columns| - c, |t.rows| - i
  {
    if c >= |t.columns| {
    } else if !IsSensorColumn(t.columns[c]) || i >= |t.rows| {
      ScanAlerts(file, t, lim, c + 1, 0);
    } else {
      match CellEffect(file, t, lim, c, i)
      case Skip =>
        ScanAlerts(file, t, lim, c, i + 1);
      case Raise(_) =>
      case Emit(rec, alerts) =>
        ScanAlerts(file, t, lim, c, i + 1);
        ScanFrame(file, t, lim, c, i + 1, Log([rec], alerts));
        assert Log(EmptyLog.data + [rec], EmptyLog.notices + alerts) == Log([rec], alerts);
        var rest := Scan(file, t, lim, c, i + 1, EmptyLog).log;
        assert ([rec] + rest.data)[1..] == rest.data;
    }
  }

  /** A file's contribution from an empty log. */
  function FileLog(entry: Entry, lim: Limits): Log
  {
    RunFile(entry, lim, EmptyLog)
  }

  /** A file's output does not depend on what earlier files left behind. */
  lemma RunFileFrame(entry: Entry, lim: Limits, log: Log)
    ensures RunFile(entry, lim, log) == Join(log, FileLog(entry, lim))
  {
    if entry.content.Parsed? {
      ScanFrame(entry.name, entry.content.table, lim, 0, 0, log);
    }
  }

  /**
   * One file's contribution. An unreadable file gives exactly its one error
   * message. A parsed file with no raising sensor cell gives all of its
   * records, column-major, and exactly their alerts. A parsed file whose first
   * raising sensor cell is (ec, ei) gives the records of the cells before it,
   * their alerts, and one final error naming the file and that cell's
   * reason. It never gives more alerts than records.
   */
  lemma FileContribution(entry: Entry, lim: Limits)
    ensures entry.content.Unreadable? ==>
      FileLog(entry, lim) == Log([], [Error(ErrorMessage(entry.name, ReadFailed(entry.content.reason)))])
    ensures entry.content.Parsed? && !RaisesFrom(entry.content.table, 0, 0) ==>
      var out := FileLog(entry, lim);
      out.data == Expected(entry.name, entry.content.table, 0, 0) && out.notices == AlertsOf(out.data, lim)
    ensures entry.content.Parsed? && RaisesFrom(entry.content.table, 0, 0) ==>
      var t := entry.content.table;
      var out := FileLog(entry, lim);
      exists ec, ei ::
        && FirstRaise(t, 0, 0, ec, ei)
        && out.data + Expected(entry.name, t, ec, ei) == Expected(entry.name, t, 0, 0)
        && out.notices == AlertsOf(out.data, lim) +
             [Error(ErrorMessage(entry.name, CellEffect(entry.name, t, lim, ec, ei).why))]
    ensures |FileLog(entry, lim).notices| <= |FileLog(entry, lim).data| + 1
  {
    if entry.content.Parsed? {
      var t := entry.content.table;
      ScanStopsIffRaising(entry.name, t, lim, 0, 0);
      ScanRecords(entry.name, t, lim, 0, 0);
      ScanAlerts(entry.name, t, lim, 0, 0);
      ScanStopsAtFirstRaise(entry.name, t, lim, 0, 0);
      var p := Scan(entry.name, t, lim, 0, 0, EmptyLog);
      if p.Stopped? {
        assert FileLog(entry, lim).notices == AlertsOf(p.log.data, lim) + [Error(ErrorMessage(entry.name, p.why))];
      }
    }
  }

  /** No row whose time value is a date-time: no cell yields a record. */
  lemma {:induction false} NoDatedNoExpected(file: string, t: Table, c: nat, i: nat)
    requires forall k :: 0 <= k < |t.rows| ==> t.rows[k].stamp.None? || t.rows[k].stamp.value.Plain?
    ensures Expected(file, t, c, i) == []
    decreases |t.columns| - c, |t.rows| - i
  {
    if c >= |t.columns| {
    } else if !IsSensorColumn(t.columns[c]) || i >= |t.rows| {
      NoDatedNoExpected(file, t, c + 1, 0);
    } else {
      NoDatedNoExpected(file, t, c, i + 1);
    }
  }

  /**
   * A file whose time values are never date-times (text or numbers, as
   * `read_csv` gives them when dates are not parsed) contributes no record
   * and no alert. It contributes one error when some sensor cell holds a value
   * in a row whose time value is present (or the file has no `TimeStamp`
   * column), and nothing otherwise.
   */
  lemma UndatedFileGivesNoRecords(entry: Entry, lim: Limits)
    requires entry.content.Parsed?
    requires forall k :: 0 <= k < |entry.content.table.rows| ==>
      entry.content.table.rows[k].stamp.None? || entry.content.table.rows[k].stamp.value.Plain?
    ensures FileLog(entry, lim).data == []
    ensures |FileLog(entry, lim).notices| <= 1
    ensures forall n :: n in FileLog(entry, lim).notices ==> n.Error?
    ensures FileLog(entry, lim).notices != [] <==> RaisesFrom(entry.content.table, 0, 0)
  {
    var t := entry.content.table;
    NoDatedNoExpected(entry.name, t, 0, 0);
    FileContribution(entry, lim);
  }

  /** The per-file contributions of a batch, joined in discovery order. */
  function Contributions(files: seq<Entry>, lim: Limits): Log
    decreases |files|
  {
    if files == [] then EmptyLog else Join(FileLog(files[0], lim), Contributions(files[1..], lim))
  }

  /**
   * Per-file isolation: the batch output is the concatenation, in discovery
   * order, of what each file gives on its own, after whatever was already
   * accumulated. A failing file therefore neither removes what came before it
   * nor stops the files after it.
   */
  lemma {:induction false} RunFilesIsolated(files: seq<Entry>, lim: Limits, log: Log)
    ensures RunFiles(files, lim, log) == Join(log, Contributions(files, lim))
    decreases |files|
  {
    if files == [] {
      assert Join(log, EmptyLog) == log;
    } else {
      var first := RunFile(files[0], lim, log);
      assert RunFiles(files, lim, log) == RunFiles(files[1..], lim, first);
      RunFileFrame(files[0], lim, log);
      RunFilesIsolated(files[1..], lim, first);
      JoinAssociative(log, FileLog(files[0], lim), Contributions(files[1..], lim));
    }
  }
}
