/** A worked batch: one file, two rows, a temperature and a strain column. */
module Scenarios {
  import opened Base
  import opened Text
  import opened Classify
  import opened Ingest

  const Morning := Instant("2024-01-01", "2024-01-01 00:00:00")
  const Noon := Instant("2024-01-01", "2024-01-01 12:00:00")

  /** Two rows with a temperature column and a strain column, after the time column. */
  function Sample(temp: string, strain: string): Table
  {
    Table(
      [TimeStampHeader, temp, strain],
      [ Row(Some(Dated(Morning)), [None, Some(45.0), Some(100.0)]),
        Row(Some(Dated(Noon)), [None, Some(55.0), Some(6000.0)]) ])
  }

  lemma SampleColumns()
    ensures SensorTypeOf("Temp1_WIN") == Temperature && PlatformOf("Temp1_WIN") == WIN
    ensures SensorTypeOf("Strain1_WIN") == Strain && PlatformOf("Strain1_WIN") == WIN
  {
    assert Lower("Temp1_WIN") == "temp1_win";
    assert OccursAt("temp", "temp1_win", 0);
    assert Upper("Temp1_WIN") == "TEMP1_WIN";
    assert OccursAt("WIN", "TEMP1_WIN", 6);
    assert Lower("Strain1_WIN") == "strain1_win";
    AbsentCharNotOccurs("temp", "strain1_win", 1);
    assert OccursAt("strain", "strain1_win", 0);
    assert Upper("Strain1_WIN") == "STRAIN1_WIN";
    assert OccursAt("WIN", "STRAIN1_WIN", 8);
  }

  lemma ScanEmitStep(file: string, t: Table, lim: Limits, c: nat, i: nat, log: Log, rec: Record, alerts: seq<Notice>)
    requires c < |t.columns| && i < |t.rows| && IsSensorColumn(t.columns[c])
    requires CellEffect(file, t, lim, c, i) == Emit(rec, alerts)
    ensures Scan(file, t, lim, c, i, log) ==
      Scan(file, t, lim, c, i + 1, Log(log.data + [rec], log.notices + alerts))
  {
  }

  lemma ScanNextColumn(file: string, t: Table, lim: Limits, c: nat, i: nat, log: Log)
    requires c < |t.columns| && (!IsSensorColumn(t.columns[c]) || i >= |t.rows|)
    ensures Scan(file, t, lim, c, i, log) == Scan(file, t, lim, c + 1, 0, log)
  {
  }

  /** The sample's cells, one by one. */
  lemma SampleCells(file: string, temp: string, strain: string, lim: Limits)
    requires temp != TimeStampHeader && SensorTypeOf(temp) == Temperature && PlatformOf(temp) == WIN
    requires strain != TimeStampHeader && SensorTypeOf(strain) == Strain && PlatformOf(strain) == WIN
    requires lim.temp == 50.0 && lim.strain == 5000.0
    ensures CellEffect(file, Sample(temp, strain), lim, 1, 0) ==
      Emit(Record(Morning, "2024-01-01", 45.0, Temperature, WIN, temp, file), [])
    ensures CellEffect(file, Sample(temp, strain), lim, 1, 1) ==
      Emit(Record(Noon, "2024-01-01", 55.0, Temperature, WIN, temp, file),
           [Alert(Temperature, 55.0, 50.0, temp, WIN, Noon.second, file)])
    ensures CellEffect(file, Sample(temp, strain), lim, 2, 0) ==
      Emit(Record(Morning, "2024-01-01", 100.0, Strain, WIN, strain, file), [])
    ensures CellEffect(file, Sample(temp, strain), lim, 2, 1) ==
      Emit(Record(Noon, "2024-01-01", 6000.0, Strain, WIN, strain, file),
           [Alert(Strain, 6000.0, 5000.0, strain, WIN, Noon.second, file)])
  {
    var t := Sample(temp, strain);
    assert TimeStampHeader in t.columns by { assert t.columns[0] == TimeStampHeader; }
  }

  /**
   * With thresholds 50 and 5000, a file holding a temperature column (45, 55)
   * and then a strain column (100, 6000), both of platform WIN, yields four
   * records, the temperature column first, and two alerts: 55 over 50 and
   * 6000 over 5000, both at noon. `Temp1_WIN` and `Strain1_WIN` are such columns
   * (SampleColumns).
   */
  lemma SampleBatch(file: string, temp: string, strain: string, lim: Limits)
    requires temp != TimeStampHeader && SensorTypeOf(temp) == Temperature && PlatformOf(temp) == WIN
    requires strain != TimeStampHeader && SensorTypeOf(strain) == Strain && PlatformOf(strain) == WIN
    requires lim.temp == 50.0 && lim.strain == 5000.0
    ensures RunFiles([Entry(file, Parsed(Sample(temp, strain)))], lim, EmptyLog) ==
      Log([ Record(Morning, "2024-01-01", 45.0, Temperature, WIN, temp, file),
            Record(Noon, "2024-01-01", 55.0, Temperature, WIN, temp, file),
            Record(Morning, "2024-01-01", 100.0, Strain, WIN, strain, file),
            Record(Noon, "2024-01-01", 6000.0, Strain, WIN, strain, file) ],
          [ Alert(Temperature, 55.0, 50.0, temp, WIN, Noon.second, file),
            Alert(Strain, 6000.0, 5000.0, strain, WIN, Noon.second, file) ])
  {
    SampleCells(file, temp, strain, lim);
    var t := Sample(temp, strain);
    var r1 := Record(Morning, "2024-01-01", 45.0, Temperature, WIN, temp, file);
    var r2 := Record(Noon, "2024-01-01", 55.0, Temperature, WIN, temp, file);
    var r3 := Record(Morning, "2024-01-01", 100.0, Strain, WIN, strain, file);
    var r4 := Record(Noon, "2024-01-01", 6000.0, Strain, WIN, strain, file);
    var a2 := Alert(Temperature, 55.0, 50.0, temp, WIN, Noon.second, file);
    var a4 := Alert(Strain, 6000.0, 5000.0, strain, WIN, Noon.second, file);
    assert !IsSensorColumn(t.columns[0]);
    ScanNextColumn(file, t, lim, 0, 0, EmptyLog);
    ScanEmitStep(file, t, lim, 1, 0, EmptyLog, r1, []);
    assert Log([] + [r1], [] + []) == Log([r1], []);
    ScanEmitStep(file, t, lim, 1, 1, Log([r1], []), r2, [a2]);
    assert Log([r1] + [r2], [] + [a2]) == Log([r1, r2], [a2]);
    ScanNextColumn(file, t, lim, 1, 2, Log([r1, r2], [a2]));
    ScanEmitStep(file, t, lim, 2, 0, Log([r1, r2], [a2]), r3, []);
    assert Log([r1, r2] + [r3], [a2] + []) == Log([r1, r2, r3], [a2]);
    ScanEmitStep(file, t, lim, 2, 1, Log([r1, r2, r3], [a2]), r4, [a4]);
    var l4 := Log([r1, r2, r3, r4], [a2, a4]);
    assert Log([r1, r2, r3] + [r4], [a2] + [a4]) == l4;
    ScanNextColumn(file, t, lim, 2, 2, l4);
    var files := [Entry(file, Parsed(t))];
    assert RunFiles(files, lim, EmptyLog) == RunFiles([], lim, RunFile(files[0], lim, EmptyLog));
  }
}
