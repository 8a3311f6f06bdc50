/** The export of sensor series: the CSV aligner, which turns per-sensor
    series into one table with a row per distinct timestamp and a column per
    requested sensor; the JSON document; the Excel export, which is the CSV
    text under another name; file naming; and the export entry point.

    Host behaviour enters as parameters: the rendering of a timestamp as a
    local date and time and of a number as text (Renderers), the default
    date range derived from the clock, and the generator of stand-in
    series. The download itself is not modelled: an export yields the file
    name and the content it would download. */
module ExportUtils {
  import opened Wrappers
  import opened ExportRecords
  import StrOrder
  import Text

  /** Readings per sensor id. */
  type Series = map<string, seq<ExportPoint>>

  /** Display name and unit per sensor id. */
  type InfoMap = map<string, SensorInfo>

  /** `toLocaleDateString`, `toLocaleTimeString` of `new Date(timestamp)`,
      and the template-literal rendering of a number. */
  datatype Renderers = Renderers(
    localeDate: string -> string,
    localeTime: string -> string,
    number: real -> string)

  // ---------------------------------------------------------------------
  // Header

  function HeaderColumn(info: SensorInfo): string {
    info.name + " (" + info.unit + ")"
  }

  predicate AllDescribed(sensors: seq<string>, info: InfoMap) {
    forall i :: 0 <= i < |sensors| ==> sensors[i] in info
  }

  /** The header's sensor columns: one per requested sensor that has info, in
      request order; a sensor without info gets no column. The header has a
      column for every sensor exactly when every sensor has info. */
  function HeaderColumns(sensors: seq<string>, info: InfoMap): (r: seq<string>)
    ensures |r| <= |sensors|
    ensures |r| == |sensors| <==> AllDescribed(sensors, info)
    ensures AllDescribed(sensors, info) ==>
      forall i :: 0 <= i < |r| ==> r[i] == HeaderColumn(info[sensors[i]])
    ensures (forall i :: 0 <= i < |sensors| ==> sensors[i] !in info) ==> r == []
  {
    if |sensors| == 0 then []
    else
      var rest := HeaderColumns(sensors[1..], info);
      assert AllDescribed(sensors, info) ==> AllDescribed(sensors[1..], info) by {
        if AllDescribed(sensors, info) {
          forall i | 0 <= i < |sensors[1..]| ensures sensors[1..][i] in info {
            assert sensors[1..][i] == sensors[i + 1];
          }
        }
      }
      assert AllDescribed(sensors[1..], info) && sensors[0] in info ==> AllDescribed(sensors, info) by {
        if AllDescribed(sensors[1..], info) && sensors[0] in info {
          forall i | 0 <= i < |sensors| ensures sensors[i] in info {
            if i > 0 { assert sensors[i] == sensors[1..][i - 1]; }
          }
        }
      }
      if sensors[0] in info then [HeaderColumn(info[sensors[0]])] + rest else rest
  }

  /** The header grows as the source's loop appends: one more sensor adds its
      column at the end when it has info, and nothing otherwise. With the
      empty list giving no column, this fixes the header for every mix of
      described and undescribed sensors. */
  lemma {:induction false} HeaderColumnsAppend(sensors: seq<string>, x: string, info: InfoMap)
    ensures HeaderColumns(sensors + [x], info)
         == HeaderColumns(sensors, info) + (if x in info then [HeaderColumn(info[x])] else [])
    decreases |sensors|
  {
    if |sensors| == 0 {
      assert sensors + [x] == [x];
      assert [x][1..] == [];
    } else {
      assert (sensors + [x])[1..] == sensors[1..] + [x];
      HeaderColumnsAppend(sensors[1..], x, info);
    }
  }

  // ---------------------------------------------------------------------
  // Row keys

  function Timestamps(points: seq<ExportPoint>): (r: seq<string>)
    ensures |r| == |points|
    ensures forall j :: 0 <= j < |r| ==> r[j] == points[j].timestamp
  {
    seq(|points|, j requires 0 <= j < |points| => points[j].timestamp)
  }

  /** t is the timestamp of some reading of some requested sensor that has
      a series. */
  predicate Listed(sensors: seq<string>, data: Series, t: string) {
    exists i, j :: 0 <= i < |sensors| && sensors[i] in data && 0 <= j < |data[sensors[i]]|
                   && data[sensors[i]][j].timestamp == t
  }

  /** Every requested sensor's timestamps, in request order, with repeats. */
  function CollectTimestamps(sensors: seq<string>, data: Series): seq<string> {
    if |sensors| == 0 then []
    else (if sensors[0] in data then Timestamps(data[sensors[0]]) else []) + CollectTimestamps(sensors[1..], data)
  }

  lemma {:induction false} CollectedAreListed(sensors: seq<string>, data: Series)
    ensures forall t :: t in CollectTimestamps(sensors, data) <==> Listed(sensors, data, t)
    decreases |sensors|
  {
    if |sensors| > 0 {
      CollectedAreListed(sensors[1..], data);
      var head := if sensors[0] in data then Timestamps(data[sensors[0]]) else [];
      assert CollectTimestamps(sensors, data) == head + CollectTimestamps(sensors[1..], data);
      forall t ensures t in CollectTimestamps(sensors, data) <==> Listed(sensors, data, t) {
        if t in head {
          var j :| 0 <= j < |head| && head[j] == t;
          assert data[sensors[0]][j].timestamp == t;
        } else if t in CollectTimestamps(sensors[1..], data) {
          var i, j :| 0 <= i < |sensors[1..]| && sensors[1..][i] in data && 0 <= j < |data[sensors[1..][i]]|
                      && data[sensors[1..][i]][j].timestamp == t;
          assert sensors[i + 1] == sensors[1..][i];
        }
        if Listed(sensors, data, t) {
          var i, j :| 0 <= i < |sensors| && sensors[i] in data && 0 <= j < |data[sensors[i]]|
                      && data[sensors[i]][j].timestamp == t;
          if i == 0 {
            assert head[j] == t;
          } else {
            assert sensors[1..][i - 1] == sensors[i];
            assert Listed(sensors[1..], data, t);
          }
        }
      }
    }
  }

  /** The table's row keys: every listed timestamp once, in ascending order
      (the source's `Array.from(new Set(...)).sort(...)`). */
  function RowKeys(sensors: seq<string>, data: Series): (r: seq<string>)
    ensures StrOrder.StrictlySorted(r)
    ensures forall t :: t in r <==> Listed(sensors, data, t)
  {
    CollectedAreListed(sensors, data);
    StrOrder.SortDistinct(CollectTimestamps(sensors, data))
  }

  /** The row keys are the only ascending repetition-free listing of the
      listed timestamps. */
  lemma RowKeysCanonical(sensors: seq<string>, data: Series, keys: seq<string>)
    requires StrOrder.StrictlySorted(keys)
    requires forall t :: t in keys <==> Listed(sensors, data, t)
    ensures keys == RowKeys(sensors, data)
  {
    StrOrder.SortedUnique(keys, RowKeys(sensors, data));
  }

  // ---------------------------------------------------------------------
  // Cells and the aligned table

  /** The value a series holds at timestamp t: the value of the last
      reading at t, since each reading overwrites the cell; None when no
      reading is at t. */
  function ValueAt(points: seq<ExportPoint>, t: string): (r: Option<real>)
    ensures r.None? <==> forall j :: 0 <= j < |points| ==> points[j].timestamp != t
    decreases |points|
  {
    if |points| == 0 then None
    else if points[|points| - 1].timestamp == t then Some(points[|points| - 1].value)
    else
      var r := ValueAt(points[..|points| - 1], t);
      assert forall j :: 0 <= j < |points| - 1 ==> points[..|points| - 1][j] == points[j];
      r
  }

  /** A value found at t is that of a reading at t with no later reading
      at t. */
  lemma {:induction false} ValueAtIsLastReading(points: seq<ExportPoint>, t: string)
    requires ValueAt(points, t).Some?
    ensures exists j :: 0 <= j < |points| && points[j] == ExportPoint(t, ValueAt(points, t).value)
                        && forall k :: j < k < |points| ==> points[k].timestamp != t
    decreases |points|
  {
    var n := |points|;
    if points[n - 1].timestamp == t {
      assert points[n - 1] == ExportPoint(t, ValueAt(points, t).value);
    } else {
      var init := points[..n - 1];
      ValueAtIsLastReading(init, t);
      var v := ValueAt(init, t).value;
      assert ValueAt(points, t) == Some(v);
      var j :| 0 <= j < |init| && init[j] == ExportPoint(t, v)
               && forall k :: j < k < |init| ==> init[k].timestamp != t;
      assert points[j] == ExportPoint(t, v);
      forall k | j < k < n ensures points[k].timestamp != t {
        if k < n - 1 { assert points[k] == init[k]; }
      }
    }
  }

  /** A sensor without a series has no value anywhere. */
  function Cell(data: Series, id: string, t: string): Option<real> {
    if id in data then ValueAt(data[id], t) else None
  }

  datatype Row = Row(timestamp: string, cells: seq<Option<real>>)

  function AlignRow(sensors: seq<string>, data: Series, t: string): Row {
    Row(t, seq(|sensors|, k requires 0 <= k < |sensors| => Cell(data, sensors[k], t)))
  }

  /** The aligned table: one row per row key, in order, with a cell per
      requested sensor, duplicates included. */
  function AlignTable(sensors: seq<string>, data: Series): (r: seq<Row>)
    ensures |r| == |RowKeys(sensors, data)|
    ensures forall i :: 0 <= i < |r| ==> r[i].timestamp == RowKeys(sensors, data)[i] && |r[i].cells| == |sensors|
  {
    var keys := RowKeys(sensors, data);
    seq(|keys|, i requires 0 <= i < |keys| => AlignRow(sensors, data, keys[i]))
  }

  /** Rows ascend by timestamp and no timestamp has two rows. */
  lemma TableRowsAscend(sensors: seq<string>, data: Series)
    ensures var table := AlignTable(sensors, data);
      forall i, j :: 0 <= i < j < |table| ==> StrOrder.Less(table[i].timestamp, table[j].timestamp)
  {
  }

  /** Every cell is sound: a filled cell holds the last reading of that
      column's sensor at that row's timestamp, and an empty cell means the
      sensor has no reading there. */
  lemma TableSoundness(sensors: seq<string>, data: Series, i: nat, k: nat)
    requires i < |AlignTable(sensors, data)| && k < |sensors|
    ensures var row := AlignTable(sensors, data)[i];
      && (row.cells[k].None? <==>
            (sensors[k] !in data || forall j :: 0 <= j < |data[sensors[k]]| ==> data[sensors[k]][j].timestamp != row.timestamp))
      && (row.cells[k].Some? ==>
            sensors[k] in data &&
            exists j :: 0 <= j < |data[sensors[k]]| && data[sensors[k]][j] == ExportPoint(row.timestamp, row.cells[k].value)
                        && forall m :: j < m < |data[sensors[k]]| ==> data[sensors[k]][m].timestamp != row.timestamp)
  {
    var row := AlignTable(sensors, data)[i];
    if row.cells[k].Some? {
      ValueAtIsLastReading(data[sensors[k]], row.timestamp);
    }
  }

  /** Nothing is dropped: every reading of a requested sensor has a row at
      its timestamp, and that row's cell for the sensor is filled. */
  lemma TableCompleteness(sensors: seq<string>, data: Series, k: nat, j: nat)
    requires k < |sensors| && sensors[k] in data && j < |data[sensors[k]]|
    ensures var table := AlignTable(sensors, data);
      exists i :: 0 <= i < |table| && table[i].timestamp == data[sensors[k]][j].timestamp && table[i].cells[k].Some?
  {
    var t := data[sensors[k]][j].timestamp;
    assert Listed(sensors, data, t);
    var keys := RowKeys(sensors, data);
    var i :| 0 <= i < |keys| && keys[i] == t;
    var table := AlignTable(sensors, data);
    assert table[i].timestamp == t;
    assert table[i].cells[k] == ValueAt(data[sensors[k]], t);
  }

  // ---------------------------------------------------------------------
  // CSV text

  function DateText(r: Renderers, timestamp: string): string {
    r.localeDate(timestamp) + " " + r.localeTime(timestamp)
  }

  /** A missing value prints as nothing (`?? ''`). */
  function CellText(r: Renderers, c: Option<real>): string {
    if c.Some? then r.number(c.value) else ""
  }

  function CellTexts(r: Renderers, cells: seq<Option<real>>): (out: seq<string>)
    ensures |out| == |cells| && forall k :: 0 <= k < |out| ==> out[k] == CellText(r, cells[k])
  {
    seq(|cells|, k requires 0 <= k < |cells| => CellText(r, cells[k]))
  }

  function HeaderLine(sensors: seq<string>, info: InfoMap): string {
    "Timestamp" + Text.Prefixed(HeaderColumns(sensors, info), ',')
  }

  function RowLine(r: Renderers, row: Row): string {
    DateText(r, row.timestamp) + Text.Prefixed(CellTexts(r, row.cells), ',')
  }

  function CsvLines(data: Series, sensors: seq<string>, info: InfoMap, r: Renderers): seq<string> {
    var table := AlignTable(sensors, data);
    [HeaderLine(sensors, info)] + seq(|table|, i requires 0 <= i < |table| => RowLine(r, table[i]))
  }

  /** exportAsCSV: the header line, then a line per row, each ended by a
      newline. Fields are written without quoting. */
  function ExportAsCsv(data: Series, sensors: seq<string>, info: InfoMap, r: Renderers): (out: string)
    ensures "Timestamp" <= out
    ensures |out| > 0 && out[|out| - 1] == '\n'
  {
    var lines := CsvLines(data, sensors, info, r);
    Text.UnlinesEndsWithNewline(lines);
    Text.Unlines(lines)
  }

  /** exportAsExcel writes the CSV text. */
  function ExportAsExcel(data: Series, sensors: seq<string>, info: InfoMap, r: Renderers): (out: string)
    ensures out == ExportAsCsv(data, sensors, info, r)
  {
    ExportAsCsv(data, sensors, info, r)
  }

  /** Reads a CSV text back: the lines before the final newline, each split
      at commas. */
  function ParseCsv(text: string): seq<seq<string>> {
    var lines := Text.Split(text, '\n');
    seq(|lines| - 1, i requires 0 <= i < |lines| - 1 => Text.Split(lines[i], ','))
  }

  predicate CleanField(s: string) {
    ',' !in s && '\n' !in s
  }

  /** What the round trip needs, since fields are not quoted: no comma or
      newline in a header column or a rendered date, and every rendered
      number non-empty and free of both. */
  ghost predicate CleanRendering(info: InfoMap, r: Renderers) {
    && (forall id :: id in info ==> CleanField(HeaderColumn(info[id])))
    && (forall t :: CleanField(DateText(r, t)))
    && (forall v :: CleanNumber(r, v))
  }

  predicate CleanNumber(r: Renderers, v: real) {
    CleanField(r.number(v)) && r.number(v) != ""
  }

  function HeaderFields(sensors: seq<string>, info: InfoMap): seq<string> {
    ["Timestamp"] + HeaderColumns(sensors, info)
  }

  function RowFields(r: Renderers, row: Row): seq<string> {
    [DateText(r, row.timestamp)] + CellTexts(r, row.cells)
  }

  lemma {:induction false} HeaderColumnsClean(sensors: seq<string>, info: InfoMap)
    requires forall id :: id in info ==> CleanField(HeaderColumn(info[id]))
    ensures forall i :: 0 <= i < |HeaderColumns(sensors, info)| ==> CleanField(HeaderColumns(sensors, info)[i])
    decreases |sensors|
  {
    if |sensors| > 0 {
      HeaderColumnsClean(sensors[1..], info);
    }
  }

  /** A line of clean fields is their join, and holds no newline. */
  lemma {:induction false} LineOfFields(head: string, fields: seq<string>)
    requires CleanField(head) && forall k :: 0 <= k < |fields| ==> CleanField(fields[k])
    ensures Text.Split(head + Text.Prefixed(fields, ','), ',') == [head] + fields
    ensures '\n' !in head + Text.Prefixed(fields, ',')
  {
    var all := [head] + fields;
    assert forall k :: 0 <= k < |all| ==> CleanField(all[k]) by {
      forall k | 0 <= k < |all| ensures CleanField(all[k]) {
        if k > 0 { assert all[k] == fields[k - 1]; }
      }
    }
    Text.JoinPrefixed(head, fields, ',');
    Text.SplitJoin(all, ',');
    Text.JoinExcludes(all, ',', '\n');
  }

  lemma HeaderLineRoundTrip(sensors: seq<string>, info: InfoMap)
    requires forall id :: id in info ==> CleanField(HeaderColumn(info[id]))
    ensures Text.Split(HeaderLine(sensors, info), ',') == HeaderFields(sensors, info)
    ensures '\n' !in HeaderLine(sensors, info)
  {
    HeaderColumnsClean(sensors, info);
    LineOfFields("Timestamp", HeaderColumns(sensors, info));
  }

  lemma RowLineRoundTrip(r: Renderers, row: Row)
    requires CleanRendering(map[], r)
    ensures Text.Split(RowLine(r, row), ',') == RowFields(r, row)
    ensures '\n' !in RowLine(r, row)
  {
    var cells := CellTexts(r, row.cells);
    assert CleanField(DateText(r, row.timestamp));
    forall k | 0 <= k < |cells| ensures CleanField(cells[k]) {
      if row.cells[k].Some? {
        assert CleanNumber(r, row.cells[k].value);
      }
    }
    LineOfFields(DateText(r, row.timestamp), cells);
  }

  /** Newline-free lines are read back one by one. */
  lemma ParseUnlines(lines: seq<string>)
    requires forall i :: 0 <= i < |lines| ==> '\n' !in lines[i]
    ensures var parsed := ParseCsv(Text.Unlines(lines));
      |parsed| == |lines| && forall i :: 0 <= i < |lines| ==> parsed[i] == Text.Split(lines[i], ',')
  {
    Text.SplitUnlines(lines);
    var split := Text.Split(Text.Unlines(lines), '\n');
    assert forall i :: 0 <= i < |lines| ==> split[i] == lines[i];
  }

  /** A header line and row lines that read back as fields, written one per
      line, read back as the header's fields followed by the rows'. */
  lemma ParseLines(header: string, rows: seq<string>, headerFields: seq<string>, rowFields: seq<seq<string>>)
    requires |rows| == |rowFields|
    requires Text.Split(header, ',') == headerFields && '\n' !in header
    requires forall i :: 0 <= i < |rows| ==> Text.Split(rows[i], ',') == rowFields[i] && '\n' !in rows[i]
    ensures ParseCsv(Text.Unlines([header] + rows)) == [headerFields] + rowFields
  {
    var lines := [header] + rows;
    assert forall i :: 0 <= i < |lines| ==> '\n' !in lines[i] by {
      forall i | 0 <= i < |lines| ensures '\n' !in lines[i] {
        if i > 0 { assert lines[i] == rows[i - 1]; }
      }
    }
    ParseUnlines(lines);
    var parsed := ParseCsv(Text.Unlines(lines));
    forall i | 0 <= i < |lines| ensures parsed[i] == ([headerFields] + rowFields)[i] {
      if i > 0 { assert lines[i] == rows[i - 1]; }
    }
  }

  /** The fields of every row of a table. */
  function TableFields(r: Renderers, table: seq<Row>): (out: seq<seq<string>>)
    ensures |out| == |table| && forall i :: 0 <= i < |table| ==> out[i] == RowFields(r, table[i])
  {
    seq(|table|, i requires 0 <= i < |table| => RowFields(r, table[i]))
  }

  /** The CSV text reads back as the table: a header of `Timestamp` and the
      header columns, then per row the rendered date and a field per cell. */
  lemma CsvRoundTrip(data: Series, sensors: seq<string>, info: InfoMap, r: Renderers)
    requires CleanRendering(info, r)
    ensures ParseCsv(ExportAsCsv(data, sensors, info, r))
         == [HeaderFields(sensors, info)] + TableFields(r, AlignTable(sensors, data))
  {
    var table := AlignTable(sensors, data);
    var rowLines := seq(|table|, i requires 0 <= i < |table| => RowLine(r, table[i]));
    var rowFields := TableFields(r, table);
    assert ExportAsCsv(data, sensors, info, r) == Text.Unlines([HeaderLine(sensors, info)] + rowLines);
    HeaderLineRoundTrip(sensors, info);
    assert CleanRendering(map[], r);
    forall i | 0 <= i < |table|
      ensures Text.Split(rowLines[i], ',') == rowFields[i] && '\n' !in rowLines[i]
    {
      RowLineRoundTrip(r, table[i]);
    }
    ParseLines(HeaderLine(sensors, info), rowLines, HeaderFields(sensors, info), rowFields);
  }

  /** Read back, every row has a field per requested sensor after the date,
      and a field is empty exactly where the table has no value. */
  lemma CsvCellsEmptyIffMissing(data: Series, sensors: seq<string>, info: InfoMap, r: Renderers, i: nat, k: nat)
    requires CleanRendering(info, r)
    requires i < |AlignTable(sensors, data)| && k < |sensors|
    ensures var table := AlignTable(sensors, data);
      var parsed := ParseCsv(ExportAsCsv(data, sensors, info, r));
      && i + 1 < |parsed|
      && |parsed[i + 1]| == |sensors| + 1
      && (parsed[i + 1][k + 1] == "" <==> table[i].cells[k].None?)
  {
    CsvRoundTrip(data, sensors, info, r);
    var table := AlignTable(sensors, data);
    var cells := table[i].cells;
    if cells[k].Some? {
      assert CleanNumber(r, cells[k].value);
    }
  }

  // ---------------------------------------------------------------------
  // JSON document

  datatype JsonSensor = JsonSensor(name: string, unit: string, readings: seq<ExportPoint>)

  /** The document's content; the export date stamp is left out. */
  datatype JsonExport = JsonExport(dataType: string, sensors: map<string, JsonSensor>)

  /** The file name up to its first underscore (`filename.split('_')[0]`). */
  function DataTypeOf(filename: string): (r: string)
    ensures r <= filename && '_' !in r
    ensures |r| < |filename| ==> filename[|r|] == '_'
  {
    Text.SplitHead(filename, '_');
    Text.Split(filename, '_')[0]
  }

  /** The name falls back to the id when the info is missing or its name is
      empty (`||`), the unit to the empty text. */
  function JsonName(info: InfoMap, id: string): string {
    if id in info && info[id].name != "" then info[id].name else id
  }

  function JsonUnit(info: InfoMap, id: string): string {
    if id in info then info[id].unit else ""
  }

  /** exportAsJSON: an entry per requested sensor that has a series, holding
      its readings unchanged; the data type is read back from the file name. */
  function ExportAsJson(data: Series, filename: string, sensors: seq<string>, info: InfoMap): (r: JsonExport)
    ensures r.sensors.Keys == set id | id in sensors && id in data
    ensures forall id :: id in r.sensors ==>
      && r.sensors[id].readings == data[id]
      && (id != "" ==> r.sensors[id].name != "")
      && (id in info && info[id].name != "" ==> r.sensors[id].name == info[id].name)
      && (!(id in info && info[id].name != "") ==> r.sensors[id].name == id)
      && r.sensors[id].unit == (if id in info then info[id].unit else "")
    ensures r.dataType == DataTypeOf(filename)
  {
    JsonExport(
      DataTypeOf(filename),
      map id | id in sensors && id in data :: JsonSensor(JsonName(info, id), JsonUnit(info, id), data[id]))
  }

  /** The JSON and CSV exports of the same data agree: every reading in the
      JSON document has a row in the CSV table at its timestamp, with the
      sensor's cell filled. */
  lemma JsonAgreesWithCsv(data: Series, filename: string, sensors: seq<string>, info: InfoMap, k: nat, j: nat)
    requires k < |sensors| && sensors[k] in data
    requires j < |ExportAsJson(data, filename, sensors, info).sensors[sensors[k]].readings|
    ensures var p := ExportAsJson(data, filename, sensors, info).sensors[sensors[k]].readings[j];
      var table := AlignTable(sensors, data);
      exists i :: 0 <= i < |table| && table[i].timestamp == p.timestamp && table[i].cells[k].Some?
  {
    TableCompleteness(sensors, data, k, j);
  }

  // ---------------------------------------------------------------------
  // File names

  datatype ExportFormat = Csv | Json | Excel

  function FormatName(f: ExportFormat): string {
    match f
    case Csv => "csv"
    case Json => "json"
    case Excel => "excel"
  }

  /** The extension is the format's name, except `xlsx` for Excel. */
  function Extension(f: ExportFormat): string {
    if f == Excel then "xlsx" else FormatName(f)
  }

  datatype DateRange = DateRange(start: string, end: string)

  function FormatDateRangeForFilename(d: DateRange): (r: string)
    ensures d.start + "_to_" <= r && r[|d.start| + 4..] == d.end
  {
    d.start + "_to_" + d.end
  }

  /** Dates without underscores are read back from the range text. */
  lemma DateRangeRoundTrip(d: DateRange)
    requires '_' !in d.start && '_' !in d.end
    ensures Text.Split(FormatDateRangeForFilename(d), '_') == [d.start, "to", d.end]
  {
    Text.SplitAfter("to", d.end, '_');
    Text.SplitNoSep(d.end, '_');
    Text.SplitAfter(d.start, "to" + "_" + d.end, '_');
    assert FormatDateRangeForFilename(d) == d.start + ['_'] + ("to" + ['_'] + d.end);
  }

  /** `<dataType>_data_<start>_to_<end>.<extension>`. */
  function GenerateExportFilename(dataType: string, format: ExportFormat, d: DateRange): (r: string)
    ensures dataType + "_data_" <= r
    ensures |r| > |Extension(format)| && r[|r| - |Extension(format)| - 1..] == "." + Extension(format)
    ensures |dataType| + 6 <= |r| - |Extension(format)| - 1
    ensures r[|dataType| + 6 .. |r| - |Extension(format)| - 1] == FormatDateRangeForFilename(d)
  {
    dataType + "_data_" + FormatDateRangeForFilename(d) + "." + Extension(format)
  }

  /** Without underscores in the data type and the dates, splitting a
      generated name at underscores gives back the data type, the dates and
      the extension. */
  lemma FilenameRangeRoundTrip(dataType: string, format: ExportFormat, d: DateRange)
    requires '_' !in dataType && '_' !in d.start && '_' !in d.end
    ensures Text.Split(GenerateExportFilename(dataType, format, d), '_')
         == [dataType, "data", d.start, "to", d.end + "." + Extension(format)]
  {
    var last := d.end + "." + Extension(format);
    assert '_' !in "." + Extension(format);
    assert '_' !in last;
    SplitFiveFields(dataType, "data", d.start, "to", last);
    FilenameShape(dataType, format, d);
  }

  /** Five underscore-free fields joined by underscores split back apart. */
  lemma SplitFiveFields(a: string, b: string, c: string, e: string, last: string)
    requires '_' !in a && '_' !in b && '_' !in c && '_' !in e && '_' !in last
    ensures Text.Split(a + ['_'] + (b + ['_'] + (c + ['_'] + (e + ['_'] + last))), '_') == [a, b, c, e, last]
  {
    var t4 := e + ['_'] + last;
    var t3 := c + ['_'] + t4;
    var t2 := b + ['_'] + t3;
    Text.SplitNoSep(last, '_');
    Text.SplitAfter(e, last, '_');
    Text.SplitAfter(c, t4, '_');
    Text.SplitAfter(b, t3, '_');
    Text.SplitAfter(a, t2, '_');
  }

  lemma FilenameShape(dataType: string, format: ExportFormat, d: DateRange)
    ensures GenerateExportFilename(dataType, format, d)
         == dataType + ['_'] + ("data" + ['_'] + (d.start + ['_'] + ("to" + ['_'] + (d.end + "." + Extension(format)))))
  {
    var tail := d.end + "." + Extension(format);
    assert FormatDateRangeForFilename(d) + "." + Extension(format) == d.start + ['_'] + ("to" + ['_'] + tail);
  }

  /** The data type is read back from a generated file name exactly when it
      has no underscore of its own. */
  lemma FilenameDataTypeRoundTrip(dataType: string, format: ExportFormat, d: DateRange)
    ensures DataTypeOf(GenerateExportFilename(dataType, format, d)) == dataType <==> '_' !in dataType
  {
    var name := GenerateExportFilename(dataType, format, d);
    if '_' !in dataType {
      var rest := "data" + ['_'] + (d.start + ['_'] + ("to" + ['_'] + (d.end + "." + Extension(format))));
      FilenameShape(dataType, format, d);
      Text.SplitAfter(dataType, rest, '_');
    }
  }

  /** Different formats never share a file name. */
  lemma FilenameDeterminesFormat(dataType: string, f: ExportFormat, g: ExportFormat, d: DateRange)
    ensures GenerateExportFilename(dataType, f, d) == GenerateExportFilename(dataType, g, d) <==> f == g
  {
    var a := GenerateExportFilename(dataType, f, d);
    var b := GenerateExportFilename(dataType, g, d);
    if f != g {
      var prefix := dataType + "_data_" + FormatDateRangeForFilename(d) + ".";
      assert a == prefix + Extension(f) && b == prefix + Extension(g);
      if |a| == |b| {
        assert a[|a| - 1] == Extension(f)[|Extension(f)| - 1];
        assert b[|b| - 1] == Extension(g)[|Extension(g)| - 1];
        assert a[|a| - 1] != b[|b| - 1];
      }
    }
  }

  // ---------------------------------------------------------------------
  // The export entry point

  /** A requested sensor: a bare id, or an id with an optional name and
      unit. */
  datatype SensorSpec = ById(id: string) | Described(id: string, name: Option<string>, unit: Option<string>)

  /** The info made for a requested sensor when none is supplied: a bare id
      names itself with no unit; a described sensor falls back with `??`, so
      an empty given name is kept. */
  function DefaultInfo(s: SensorSpec): (r: SensorInfo)
    ensures s.ById? ==> r.name == s.id && r.unit == ""
    ensures s.Described? && s.name.Some? ==> r.name == s.name.value
    ensures s.Described? && s.name.None? ==> r.name == s.id
    ensures s.Described? && s.unit.Some? ==> r.unit == s.unit.value
    ensures s.Described? && s.unit.None? ==> r.unit == ""
  {
    match s
    case ById(id) => SensorInfo(id, "")
    case Described(id, name, unit) => SensorInfo(name.GetOr(id), unit.GetOr(""))
  }

  function SensorIds(specs: seq<SensorSpec>): (r: seq<string>)
    ensures |r| == |specs| && forall i :: 0 <= i < |r| ==> r[i] == specs[i].id
  {
    seq(|specs|, i requires 0 <= i < |specs| => specs[i].id)
  }

  /** The info built from the requested sensors: exactly the requested ids
      have info. */
  function BuildSensorInfo(specs: seq<SensorSpec>): (r: InfoMap)
    ensures forall i :: 0 <= i < |specs| ==> specs[i].id in r
    ensures forall id :: id in r ==> exists i :: 0 <= i < |specs| && specs[i].id == id
    decreases |specs|
  {
    if |specs| == 0 then map[]
    else
      var init := specs[..|specs| - 1];
      var last := specs[|specs| - 1];
      var prev := BuildSensorInfo(init);
      assert forall i :: 0 <= i < |init| ==> init[i] == specs[i];
      prev[last.id := DefaultInfo(last)]
  }

  /** A later request for the same id overwrites an earlier one: an id gets
      the info of its last request. */
  lemma {:induction false} LastRequestWins(specs: seq<SensorSpec>, i: nat)
    requires i < |specs|
    requires forall j :: i < j < |specs| ==> specs[j].id != specs[i].id
    ensures BuildSensorInfo(specs)[specs[i].id] == DefaultInfo(specs[i])
    decreases |specs|
  {
    if i < |specs| - 1 {
      var init := specs[..|specs| - 1];
      assert init[i] == specs[i];
      forall j | i < j < |init| ensures init[j].id != init[i].id {
        assert init[j] == specs[j];
      }
      LastRequestWins(init, i);
    }
  }

  /** When every id is requested once, each gets the info of its request. */
  lemma DistinctRequestsKeepTheirInfo(specs: seq<SensorSpec>)
    requires forall i, j :: 0 <= i < j < |specs| ==> specs[i].id != specs[j].id
    ensures forall i :: 0 <= i < |specs| ==> BuildSensorInfo(specs)[specs[i].id] == DefaultInfo(specs[i])
  {
    forall i | 0 <= i < |specs| ensures BuildSensorInfo(specs)[specs[i].id] == DefaultInfo(specs[i]) {
      LastRequestWins(specs, i);
    }
  }

  /** The requested date range; a missing end falls back to its default. */
  datatype RequestedRange = RequestedRange(start: Option<string>, end: Option<string>)

  /** The time range is carried but not read. */
  datatype ExportOptions = ExportOptions(
    format: ExportFormat,
    sensors: seq<SensorSpec>,
    dateRange: RequestedRange,
    timeRange: DateRange)

  datatype ExportOutput = CsvText(text: string) | JsonDocument(doc: JsonExport)

  /** What would be downloaded, and under which name. */
  datatype ExportFile = ExportFile(filename: string, output: ExportOutput)

  /** Each end of the range falls back on its own. */
  function ExportRange(requested: RequestedRange, defaultRange: DateRange): (r: DateRange)
    ensures r.start == (if requested.start.Some? then requested.start.value else defaultRange.start)
    ensures r.end == (if requested.end.Some? then requested.end.value else defaultRange.end)
  {
    DateRange(requested.start.GetOr(defaultRange.start), requested.end.GetOr(defaultRange.end))
  }

  /** Supplied info is used as it is, even when it lacks requested ids. */
  function InfoToUse(specs: seq<SensorSpec>, sensorInfo: Option<InfoMap>): (r: InfoMap)
    ensures sensorInfo.Some? ==> r == sensorInfo.value
    ensures sensorInfo.None? ==> forall id :: id in r <==> id in SensorIds(specs)
  {
    if sensorInfo.Some? then sensorInfo.value else BuildSensorInfo(specs)
  }

  /** Supplied data is used as it is; otherwise each requested id gets the
      generated series. */
  function DataToUse(ids: seq<string>, exportData: Option<Series>, generate: string -> seq<ExportPoint>): (r: Series)
    ensures exportData.Some? ==> r == exportData.value
    ensures exportData.None? ==> forall id :: id in r <==> id in ids
    ensures exportData.None? ==> forall id :: id in r ==> r[id] == generate(id)
  {
    if exportData.Some? then exportData.value else map id | id in ids :: generate(id)
  }

  /** The data type every export from the entry point carries. */
  const ExportDataType: string := "sensor"

  /** handleDataExport: resolves the range, the ids, the info and the data,
      names the file after the `sensor` data type, and writes the chosen
      format. */
  function HandleDataExport(
    options: ExportOptions, exportData: Option<Series>, sensorInfo: Option<InfoMap>,
    defaultRange: DateRange, generate: string -> seq<ExportPoint>, r: Renderers): (f: ExportFile)
    ensures ExportDataType + "_data_" <= f.filename
    ensures f.output.JsonDocument? <==> options.format == Json
    ensures f.output.JsonDocument? ==> f.output.doc.dataType == ExportDataType
    ensures f.filename == GenerateExportFilename(ExportDataType, options.format, ExportRange(options.dateRange, defaultRange))
    ensures f.output.CsvText? ==>
      f.output.text == ExportAsCsv(DataToUse(SensorIds(options.sensors), exportData, generate),
                                   SensorIds(options.sensors), InfoToUse(options.sensors, sensorInfo), r)
    ensures f.output.JsonDocument? ==>
      f.output.doc == ExportAsJson(DataToUse(SensorIds(options.sensors), exportData, generate), f.filename,
                                   SensorIds(options.sensors), InfoToUse(options.sensors, sensorInfo))
  {
    var range := ExportRange(options.dateRange, defaultRange);
    var ids := SensorIds(options.sensors);
    var info := InfoToUse(options.sensors, sensorInfo);
    var data := DataToUse(ids, exportData, generate);
    var filename := GenerateExportFilename(ExportDataType, options.format, range);
    FilenameDataTypeRoundTrip(ExportDataType, options.format, range);
    ExportFile(filename,
      match options.format
      case Csv => CsvText(ExportAsCsv(data, ids, info, r))
      case Json => JsonDocument(ExportAsJson(data, filename, ids, info))
      case Excel => CsvText(ExportAsExcel(data, ids, info, r)))
  }

  /** The Excel export downloads the CSV export's text under the `xlsx`
      name. */
  lemma ExcelIsCsv(options: ExportOptions, exportData: Option<Series>, sensorInfo: Option<InfoMap>,
                   defaultRange: DateRange, generate: string -> seq<ExportPoint>, r: Renderers)
    ensures var excel := HandleDataExport(options.(format := Excel), exportData, sensorInfo, defaultRange, generate, r);
      var csv := HandleDataExport(options.(format := Csv), exportData, sensorInfo, defaultRange, generate, r);
      excel.output == csv.output && excel.filename != csv.filename
  {
    var range := ExportRange(options.dateRange, defaultRange);
    FilenameDeterminesFormat(ExportDataType, Excel, Csv, range);
  }

  /** The time range has no effect on the export. */
  lemma TimeRangeIgnored(options: ExportOptions, other: DateRange, exportData: Option<Series>, sensorInfo: Option<InfoMap>,
                         defaultRange: DateRange, generate: string -> seq<ExportPoint>, r: Renderers)
    ensures HandleDataExport(options.(timeRange := other), exportData, sensorInfo, defaultRange, generate, r)
         == HandleDataExport(options, exportData, sensorInfo, defaultRange, generate, r)
  {
  }

  /** Without supplied info every requested sensor gets a header column, so
      the header lines up with the rows. */
  lemma HeaderCompleteWithoutInfo(specs: seq<SensorSpec>)
    ensures |HeaderColumns(SensorIds(specs), InfoToUse(specs, None))| == |specs|
  {
    var ids := SensorIds(specs);
    assert forall i :: 0 <= i < |ids| ==> ids[i] in ids;
  }

  /** Without supplied data the JSON document has an entry for exactly the
      requested sensors, each holding its generated series. */
  lemma GeneratedCoversEverySensor(options: ExportOptions, sensorInfo: Option<InfoMap>,
                                   defaultRange: DateRange, generate: string -> seq<ExportPoint>, r: Renderers)
    requires options.format == Json
    ensures var doc := HandleDataExport(options, None, sensorInfo, defaultRange, generate, r).output.doc;
      && (forall id :: id in doc.sensors <==> id in SensorIds(options.sensors))
      && (forall id :: id in doc.sensors ==> doc.sensors[id].readings == generate(id))
  {
    var ids := SensorIds(options.sensors);
    var data := DataToUse(ids, None, generate);
    assert forall id :: id in data <==> id in ids;
  }

  /** Read back, the CSV text has the header fields, then a row per distinct
      timestamp with a field per requested sensor after the date. */
  lemma CsvShape(data: Series, sensors: seq<string>, info: InfoMap, r: Renderers)
    requires CleanRendering(info, r)
    ensures var parsed := ParseCsv(ExportAsCsv(data, sensors, info, r));
      && |parsed| == |AlignTable(sensors, data)| + 1
      && parsed[0] == HeaderFields(sensors, info)
      && forall i :: 1 <= i < |parsed| ==> |parsed[i]| == |sensors| + 1
  {
    var table := AlignTable(sensors, data);
    CsvRoundTrip(data, sensors, info, r);
    var parsed := ParseCsv(ExportAsCsv(data, sensors, info, r));
    forall i | 1 <= i < |parsed| ensures |parsed[i]| == |sensors| + 1 {
      assert parsed[i] == TableFields(r, table)[i - 1];
    }
  }

  /** Without supplied info a CSV or Excel export reads back as a header with
      a column for every requested sensor after `Timestamp`, then a row per
      distinct timestamp, each with a field per requested sensor after the
      date. */
  lemma EntryPointCsvShape(options: ExportOptions, exportData: Option<Series>, defaultRange: DateRange,
                           generate: string -> seq<ExportPoint>, r: Renderers)
    requires options.format != Json
    requires CleanRendering(BuildSensorInfo(options.sensors), r)
    ensures var f := HandleDataExport(options, exportData, None, defaultRange, generate, r);
      var ids := SensorIds(options.sensors);
      var parsed := ParseCsv(f.output.text);
      && f.output.CsvText?
      && |parsed| == |AlignTable(ids, DataToUse(ids, exportData, generate))| + 1
      && parsed[0] == HeaderFields(ids, BuildSensorInfo(options.sensors))
      && |parsed[0]| == |options.sensors| + 1
      && forall i :: 1 <= i < |parsed| ==> |parsed[i]| == |options.sensors| + 1
  {
    var ids := SensorIds(options.sensors);
    var data := DataToUse(ids, exportData, generate);
    EntryPointCsvText(options, exportData, defaultRange, generate, r);
    CsvShape(data, ids, BuildSensorInfo(options.sensors), r);
    HeaderCompleteWithoutInfo(options.sensors);
  }

  lemma EntryPointCsvText(options: ExportOptions, exportData: Option<Series>, defaultRange: DateRange,
                          generate: string -> seq<ExportPoint>, r: Renderers)
    requires options.format != Json
    ensures HandleDataExport(options, exportData, None, defaultRange, generate, r).output
         == CsvText(ExportAsCsv(DataToUse(SensorIds(options.sensors), exportData, generate),
                                SensorIds(options.sensors), BuildSensorInfo(options.sensors), r))
  {
  }
}
