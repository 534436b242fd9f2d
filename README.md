# Sensor data ingestion, modelled in Dafny

This project models the logic of a small sensor-analysis web service
(`Project/app.py`). The service accepts a ZIP archive of CSV files. Each file
holds a `TimeStamp` column and sensor columns named after what they measure
(temperature or strain) and the rig they sit on (`WIN` or `NC`). The service
turns every file from wide form (one column per sensor) into long form (one
record per reading) and raises an alert for every reading strictly above the
threshold of its type. It then summarises the records. Two thresholds, 50 for
temperature and 5000 for strain, live in the service between requests and
can be updated.

Modules, one per concern:

- `Base` (base.dfy): `Option`, for Python's `None`.
- `Text` (text.dfy): the string operations the rules use. These are ASCII
  `lower`/`upper`, substring search (Python's `in`) proved equal to a
  declarative "occurs at some index" predicate, `endswith`, and the last
  index of a character (where `rsplit('.', 1)` splits).
- `Classify` (classify.dfy): `allowed_file`, `extract_platform_from_column` and
  `categorize_sensor_type`, with their rules proved as lemmas.
- `Ingest` (ingest.dfy): tables, records, alerts and error messages. The
  one-cell rule is `CellEffect`. `Scan` and `RunFiles` are the forward
  recursion that specifies one file and a batch. `ScanTable` and
  `ProcessCsvFiles` are the nested loops of `process_csv_files`, proved equal
  to that specification.
- `IngestLemmas` (ingest_lemmas.dfy): what a scan yields. This covers the
  emission rule per cell, the column-major order, that alerts are exactly the
  over-threshold records, when a file ends in an error, and per-file
  isolation.
- `Scenarios` (scenarios.dfy): a two-row file worked through the whole scan.
- `Summary` (summary.dfy): the summary block of the upload handler.
- `Thresholds` (thresholds.dfy): the threshold pair, as a class whose methods
  update its fields.

Behaviour of the code worth knowing:

- Column types and platforms are substring tests anywhere in the name. So
  `skin_temp` is a temperature column.
- The time column is the column whose header is exactly `TimeStamp`.
- Records are emitted column-major: every row of one sensor column, then the
  next column.
- Alerts are checked cell by cell as records are made. The `alerts` list
  holds both alert entries and per-file error strings.
- A file with no `TimeStamp` column fails only when a sensor cell has a value.
  The value is tested before `row['TimeStamp']` is read.
- The time column is read as plain values and never converted to dates.
  Formatting such a value raises, so the model keeps two kinds of time value:
  `Dated`, which can be formatted, and `Plain`, which raises. A `Plain` value
  carries its Python type name, which appears in the error message.
- With `read_csv`'s defaults the time values are text or numbers, so as
  written a file yields no record. It gives one error when some sensor cell
  holds a value in a row whose time value is present (or the file has no
  `TimeStamp` column), and nothing otherwise
  (`IngestLemmas.UndatedFileGivesNoRecords`).
- A batch whose files yield no record at all has no summary. The frame built
  from an empty list has no `platform` column, so reading it raises and the
  upload fails. `Summary.Summarize` returns `None` there.

## Model

| member | source | states |
|---|---|---|
| `Text.Contains` | Project/app.py:31-43 | Python's `p in s`: true exactly when `p` occurs in `s` at some index |
| `Text.LastIndexOf` | Project/app.py:27 | the split point of `rsplit('.', 1)`: None exactly when there is no dot; otherwise a dot with no dot after it |
| `Classify.AllowedFileIffZipSuffix` | Project/app.py:21-27 | a name is accepted exactly when it ends in a dot followed by `zip` in any case |
| `Classify.AcceptsUpperCaseZip` | Project/app.py:26-27 | `a.ZIP` is accepted |
| `Classify.RejectsBareZip` | Project/app.py:26-27 | `zip` (no dot) is refused |
| `Classify.RejectsLaterExtension` | Project/app.py:26-27 | `a.zip.csv` is refused: only the text after the last dot counts |
| `Classify.PlatformRule` | Project/app.py:29-35 | platform is WIN exactly when the upper-cased name contains `WIN`; otherwise NC exactly when it contains `NC`; otherwise Unknown |
| `Classify.SensorTypeRule` | Project/app.py:37-44 | type is temperature exactly when the lower-cased name contains `temp`; otherwise strain exactly when it contains `strain`; otherwise unknown |
| `Classify.ClassifiersIgnoreCase` | Project/app.py:29-44 | upper- or lower-casing a name changes neither its platform nor its type |
| `Classify.WinBeforeNc` | Project/app.py:31-34 | `winc` is a WIN column: WIN is tested before NC |
| `Classify.NcAnywhere` | Project/app.py:33-34 | `Strain1_nc` is an NC column: the match is a substring match in any case |
| `Classify.TempAnywhere` | Project/app.py:40-41 | `skin_temp` is a temperature column: the match is not anchored |
| `Classify.TempBeforeStrain` | Project/app.py:40-43 | `temp_strain` is a temperature column: temp is tested before strain |
| `Ingest.CsvEntries` | Project/app.py:56-61 | every kept file is a discovered file whose name ends in `.csv`, and every such file is kept |
| `Ingest.CsvEntriesOne` | Project/app.py:59-61 | one discovered file is kept exactly when its name ends in `.csv` |
| `Ingest.CsvEntriesAppend` | Project/app.py:58-61 | the files kept from a concatenation are those kept from each part, in the same order: selection keeps discovery order and repeats |
| `Classify.AllowedFile` | Project/app.py:26-27 | `allowed_file`; its rule is stated by `Classify.AllowedFileIffZipSuffix` |
| `Classify.PlatformOf` | Project/app.py:29-35 | `extract_platform_from_column`; its rule is stated by `Classify.PlatformRule` |
| `Classify.SensorTypeOf` | Project/app.py:37-44 | `categorize_sensor_type`; its rule is stated by `Classify.SensorTypeRule` |
| `Ingest.CellEffect` | Project/app.py:79-114 | one iteration of the row loop; its rule is stated by `IngestLemmas.CellRule` |
| `Ingest.AlertFor` | Project/app.py:94-114 | a record raises at most one alert; when it does is stated by `IngestLemmas.AlertIffOverThreshold` |
| `Ingest.Scan` | Project/app.py:71-114 | the column and row loops of one file; what they yield is stated by `IngestLemmas.ScanRecords`, `IngestLemmas.ScanStopsAtFirstRaise` and `IngestLemmas.ScanAlerts` |
| `Ingest.RunFile` | Project/app.py:67-117 | the try/except around one file; its contribution is stated by `IngestLemmas.FileContribution` |
| `Ingest.RunFiles` | Project/app.py:67 | the files loop; its output is stated by `IngestLemmas.RunFilesIsolated` |
| `Ingest.ScanTable` | Project/app.py:68-114 | the column and row loops over one parsed file give exactly what `Scan` specifies: the records and alerts appended, and the exception that stopped them, if any |
| `Ingest.ProcessCsvFiles` | Project/app.py:57-119 | no `.csv` file gives `(None, ["No CSV files found in the uploaded zip"])`; otherwise the result is `RunFiles` over the `.csv` files with the thresholds in force |
| `IngestLemmas.CellRule` | Project/app.py:79-92 | a sensor cell yields a record exactly when its value and its row's time value are present and the time value is a date-time. It raises exactly when the value is present and the time column is absent or its value cannot be formatted. The record carries the column name, type, platform, value, time, day and file name |
| `IngestLemmas.AlertIffOverThreshold` | Project/app.py:94-114 | a record raises an alert exactly when its value is strictly above its type's threshold (equality raises none). The alert carries that threshold and the record's value, sensor, platform, time and file |
| `IngestLemmas.AlertsOf` | Project/app.py:94-114 | the alerts of a sequence of records are no more than the records. Each is a temperature or strain alert whose value exceeds its threshold, and that threshold is the one in force for its type |
| `IngestLemmas.ScanFrame` | Project/app.py:83-114 | scanning only appends: starting from an accumulated log gives that log followed by what an empty start gives, and stops for the same reason |
| `IngestLemmas.ScanStopsIffRaising` | Project/app.py:67-117 | a file's scan stops exactly when some sensor cell at or after the start raises |
| `IngestLemmas.ScanRecords` | Project/app.py:72-92 | a file's records are a prefix of its column-major qualifying cells, and all of them when the scan does not stop |
| `IngestLemmas.ScanStopsAtFirstRaise` | Project/app.py:67-117 | a scan that stops does so at the first raising sensor cell in column-major order, for that cell's reason. It keeps exactly the records of the cells before that cell: those records followed by the records from that cell on are all the column-major records |
| `IngestLemmas.ScanAlerts` | Project/app.py:92-114 | a file's scan appends exactly the alerts of its records, in record order |
| `IngestLemmas.RunFileFrame` | Project/app.py:66-117 | a file's output does not depend on what earlier files accumulated |
| `IngestLemmas.FileContribution` | Project/app.py:67-117 | an unreadable file contributes exactly one error naming it. A parsed file with no raising sensor cell contributes all its column-major records and exactly their alerts. A parsed file whose first raising sensor cell is (ec, ei) contributes the records of the cells before it, their alerts, and one final error naming the file and that cell's reason. It never adds more alerts than records |
| `IngestLemmas.UndatedFileGivesNoRecords` | Project/app.py:81-117 | a file none of whose time values is a date-time contributes no record and no alert; it contributes at most one notice, that notice is an error, and it is there exactly when some sensor cell raises |
| `IngestLemmas.NoDatedNoExpected` | Project/app.py:81-92 | without a date-time time value, no cell of a file qualifies for a record |
| `IngestLemmas.RunFilesIsolated` | Project/app.py:66-119 | a batch's output is the per-file contributions joined in discovery order, after what was already accumulated. A failing file removes nothing before it and stops nothing after it |
| `Scenarios.SampleColumns` | Project/app.py:29-44 | `Temp1_WIN` is a WIN temperature column; `Strain1_WIN` is a WIN strain column |
| `Scenarios.SampleCells` | Project/app.py:81-114 | each of the sample's four cells yields its record, and only the two over-threshold cells yield an alert |
| `Scenarios.SampleBatch` | Project/app.py:66-119 | with thresholds 50 and 5000, the two-row sample gives four records (temperature column first) and two alerts, 55 over 50 and 6000 over 5000 |
| `Summary.ValuesOf` | Project/app.py:185-192 | the values of one type are exactly the values of the records of that type |
| `Summary.ValuesOfAppend` | Project/app.py:184-192 | the values of a concatenation are those of each part, in order, so every record of the type contributes its value once |
| `Summary.ValuesOfOne` | Project/app.py:184 | one record contributes its value exactly when it has the type |
| `Summary.StatsOf` | Project/app.py:184-193 | the statistics of one type; their meaning is stated by `Summary.StatsAbsentIffNoRecord` and `Summary.StatsBounds` |
| `Summary.Mean` | Project/app.py:187-192 | the arithmetic mean; its bounds are stated by `Summary.MeanBetween` |
| `Summary.Minimum` | Project/app.py:185 | the least value: one of the values, and no greater than any |
| `Summary.Maximum` | Project/app.py:186 | the greatest value: one of the values, and no less than any |
| `Summary.Distinct` | Project/app.py:183 | `unique()`: the same elements, each once |
| `Summary.DistinctPrefix` | Project/app.py:183 | the distinct elements of a prefix of the input lead those of the whole input |
| `Summary.DistinctOrder` | Project/app.py:183 | first-appearance order: an element occurring before any occurrence of another is listed before it |
| `Summary.PlatformsOf` | Project/app.py:183 | every record's platform is listed; every listed platform is some record's; none is listed twice |
| `Summary.PlatformsInFirstAppearanceOrder` | Project/app.py:183 | platforms are listed in the order in which they first appear in the records |
| `Summary.Summarize` | Project/app.py:180-194 | there is no summary exactly when the batch has no record (reading `platform` from an empty frame raises). Otherwise `total_records` is the number of records and the platforms listed are exactly those of the records |
| `Summary.MeanBetween` | Project/app.py:185-192 | the mean lies between the least and the greatest value |
| `Summary.StatsAbsentIffNoRecord` | Project/app.py:184-193 | in a batch with a summary, min, max and avg of a type are all None exactly when no record has that type |
| `Summary.StatsBounds` | Project/app.py:184-193 | when some record has the type, min and max are values of that type bounding all of them, avg is their arithmetic mean, and min <= avg <= max |
| `Summary.NoStrainNoStrainStats` | Project/app.py:189-193 | a non-empty batch of temperature records only has a summary whose strain statistics are None, not zero |
| `Thresholds.ThresholdStore.Current` | Project/app.py:18-19 | the pair in force; `Update` and `Get` state what they do to it |
| `Thresholds.ThresholdStore.constructor` | Project/app.py:18-19 | the thresholds start at 50 for temperature and 5000 for strain |
| `Thresholds.ThresholdStore.Update` | Project/app.py:212-226 | each threshold whose key is in the body takes its value; the other keeps its old value; the reply is the new pair |
| `Thresholds.ThresholdStore.Get` | Project/app.py:228-233 | the reply is the pair in force |
| `Thresholds.UpdateThenGet` | Project/app.py:212-233 | an update naming only the strain key leaves the temperature threshold as it was, and a later get returns the updated pair |

## Left out

- HTTP handling is not modelled: routing, request parsing, CORS, JSON
  encoding and status codes. The cap of 1000 records in the upload reply is
  a transport detail and is also left out.
- Saving the upload, unpacking the archive into a temporary directory,
  walking it and deleting files are I/O. A batch is given as the sequence of
  discovered files, by base name and in discovery order.
- `pandas.read_csv` is foreign code. Its result is given as a `Content`: a
  table, or the exception it raised, with the exception's text as a
  parameter. `pd.notna` is an `Option` and `iterrows` is row order.
- `Ingest.Row`: cells are numbers or missing. A column read as text, where
  `float()` or `>` on a string would raise, is not represented.
- `strftime` is not modelled as code. A date-time value stands for its two
  renderings (day, and time to the second). A value without `strftime` is
  `Plain`, and formatting it raises.
- `Ingest.Describe`: the text of a parser exception is a parameter. The
  KeyError and AttributeError messages are written out as Python prints them,
  with the type name of the time value as a parameter.
- `create_visualizations` and Plotly charts are rendering and are not
  modelled.
- The failed upload reply for a batch without records (the uncaught
  KeyError) is HTTP handling and is not modelled beyond `Summarize`
  returning `None`.
- Floating point is not modelled: values and thresholds are exact reals, so
  `float()` rounding and pandas' summation order play no part.
- `Text.Lower`, `Text.Upper`: case mapping covers ASCII letters only.
  Python's full Unicode mapping (for example dotless `ı` upper-casing to `I`)
  is not modelled.
- `Thresholds.ThresholdStore.Update`: the request body is a map from keys to
  numbers. A missing body, or a value `float()` cannot convert (which in the
  source raises after the first key may already be stored), is not modelled.
- Concurrent requests reading and writing the threshold pair are not
  modelled. The ingestion receives the pair in force when it starts
  (`ThresholdStore.Current`).
