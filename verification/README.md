# Sensor telemetry core, modelled in Dafny

This project models the pure core of a sensor-monitoring dashboard. The core
has four parts:

- **Classifier.** Given a reading and its thresholds, it computes the
  reading's status (`critical`, `warning`, `optimal`), a 0-100 parameter
  score, the colour and growth-prediction bands of a health score, and the
  worst-of status of a whole system.
- **Response normalizer and per-sensor updates.** The normalizer picks a
  response entry by key priority. It renders the history for display, sets
  the latest value, and fills in missing thresholds, status and trend
  without overwriting the ones present. The updates are a threshold
  re-classification, a two-point trend, and the formatting of a history as
  an export series.
- **Export aligner and serialisers.** The aligner collects the distinct
  timestamps of the requested sensors and sorts them. It builds one row per
  timestamp, with an empty cell wherever a sensor has no reading there. The
  aligned table is written as comma-separated text. The JSON document is a
  per-sensor view that is not aligned. Excel is the CSV text under an
  `.xlsx` name. This part also builds file names and resolves sensor
  metadata in the export entry point.
- **Helpers and tables.** These cover:
  - the fixed five-sensor transformation of dashboard data;
  - default units and capitalisation;
  - status and trend validation;
  - the min and max of a history;
  - the configuration lookups with their fallbacks;
  - the icon, label, description and colour maps;
  - the status, trend and category enumerations.

The source mutates records in place. Each such update is a function here
that returns the updated record. Numbers are exact reals. `Math.round` is
`Floor(x + 0.5)`. Host behaviour enters as function-typed parameters:

- `toLocaleString`, `toLocaleDateString` and `toLocaleTimeString`;
- the template rendering of a number;
- `toUpperCase` of one character;
- the relative-time formatter;
- the clock-derived default date range;
- the stand-in series generator.

`localeCompare` is replaced by lexicographic code-point order
(`StrOrder.Less`), which is proved here to be a strict total order.

Modules, one per source file plus two support modules:

| module | source |
|---|---|
| `SensorConstants` | `src/constants/sensorConstants.ts` |
| `SensorMappings` | `src/scripts/sensorMappings.ts` |
| `SensorUtils` | `src/scripts/sensorUtils.ts` |
| `ResponseApi` | `src/composables/responseApi.ts` |
| `SensorDataUtils` | `src/scripts/sensorDataUtils.ts` |
| `SensorHelpers` | `src/utils/sensorHelpers.ts` |
| `ExportUtils` | `src/utils/exportUtils.ts` |
| `StrOrder` | the timestamp order and sort-with-dedup |
| `Text` | split, join and line building for the CSV round trip |
| `Wrappers`, `ExportRecords` | `Option`, and the export point and info records |

Four behaviours of the code are easy to misread, and the model keeps
each as written:

- `updateSensorTrend` writes `up` and `down`
  (`src/scripts/sensorDataUtils.ts:115`), while the `SensorTrend` type
  declares `'increasing' | 'decreasing' | 'stable'`
  (`src/constants/sensorConstants.ts:15`). The written words therefore fail
  trend validation and are styled as `stable`.
- The CSV timestamps are sorted as strings (`localeCompare`), not by the
  instant they denote.
- The CSV header skips sensors without info, while every row keeps one cell
  per requested sensor, so a header can have fewer columns than its rows.
- `calculateParameterScore` is documented as returning a score from 0-100
  (`src/scripts/sensorUtils.ts:55`). It checks no thresholds, so inverted
  thresholds can give a score above 100.

## Model

| member | source | states |
|---|---|---|
| SensorConstants.ParseStatus | src/constants/sensorConstants.ts:10 | a parsed status key renders back to the same text |
| SensorConstants.ParseTrend | src/constants/sensorConstants.ts:15 | a parsed trend key renders back to the same text |
| SensorConstants.StatusKeyRoundTrip | src/constants/sensorConstants.ts:10 | every status parses back from its key |
| SensorConstants.TrendKeyRoundTrip | src/constants/sensorConstants.ts:15 | every trend parses back from its key |
| SensorConstants.EnumerationSizes | src/constants/sensorConstants.ts:10-20 | five statuses with distinct keys, `unknown` not among them; three trends; three categories |
| SensorConstants.StatusConfigTotal | src/constants/sensorConstants.ts:56-92 | the status table's keys are exactly the five statuses; `optimal` and `normal` share their styling, which differs from `warning`'s |
| SensorConstants.TrendAndCategoryConfigTotal | src/constants/sensorConstants.ts:98-124 | the trend table's keys are exactly the three trends; every category has a colour |
| SensorConstants.DefaultSensorConfigValues | src/constants/sensorConstants.ts:143-149 | the defaults are status `inactive`, trend `stable`, icon `mdi-circle` (no mapped icon uses it), unit empty, value 0 |
| SensorMappings.GetSensorIcon | src/scripts/sensorMappings.ts:91-93 | the mapped icon, else `mdi-gauge` |
| SensorMappings.GetSensorLabel | src/scripts/sensorMappings.ts:100-102 | the mapped label, else the id itself |
| SensorMappings.GetSensorDescription | src/scripts/sensorMappings.ts:109-111 | the mapped (non-empty) description, else the empty text |
| SensorMappings.GetSensorColor | src/scripts/sensorMappings.ts:118-120 | the mapped colour, else `gray` |
| SensorMappings.AliasesShareAllButColor | src/scripts/sensorMappings.ts:9-83 | each of the six snake_case aliases has the same icon, label and description as its camelCase id, but a different colour |
| SensorMappings.UnlabelledIdsShowTheirId | src/scripts/sensorMappings.ts:18-42 | `soil_conductivity`, `air_co2` and `air_tvoc` have icons but no label, so each is labelled by its own id |
| SensorUtils.GetSensorStatus | src/scripts/sensorUtils.ts:36-46 | critical exactly on a breach of [min, max]; otherwise optimal exactly inside the closed optimal band, warning exactly outside it |
| SensorUtils.StatusBands | src/scripts/sensorUtils.ts:43-45 | with ordered thresholds the line splits into the optimal band, the warning margins and the critical outside |
| SensorUtils.BreachWinsOverOptimalBand | src/scripts/sensorUtils.ts:43 | a value inside the optimal band but below min is critical |
| SensorUtils.Round | src/scripts/sensorUtils.ts:67 | the nearest integer, halves rounded up |
| SensorUtils.Ramp | src/scripts/sensorUtils.ts:66-69 | one side of the score is never negative; with a zero denominator (whose -Infinity clamps) it is 0; otherwise it is the integer within one half of 80 times the quotient, or 0 when that product lies below -0.5 |
| SensorUtils.CalculateParameterScore | src/scripts/sensorUtils.ts:57-71 | never negative; exactly 100 in the closed optimal band; 0 outside the band on a side whose absolute bound equals its optimal bound; between absMin and the band, within one half of 80 (value - absMin) / (optimalMin - absMin); between the band and absMax, within one half of 80 (absMax - value) / (absMax - optimalMax) |
| SensorUtils.ScoreBelowBand | src/scripts/sensorUtils.ts:66-67 | below the band, with absMin < optimalMin, the score is in [0, 80], 0 at or below absMin, and non-decreasing in the value |
| SensorUtils.ScoreAboveBand | src/scripts/sensorUtils.ts:68-69 | above the band, with optimalMax < absMax, the score is in [0, 80], 0 at or above absMax, and non-increasing in the value |
| SensorUtils.ScoreNonDecreasingTowardBand | src/scripts/sensorUtils.ts:64-67 | rising toward and through the optimal band never lowers the score |
| SensorUtils.ScoreNonIncreasingAwayFromBand | src/scripts/sensorUtils.ts:64-69 | rising away from the optimal band never raises the score |
| SensorUtils.ScoreAtMost100 | src/scripts/sensorUtils.ts:57-71 | with ordered thresholds the score is at most 100 |
| SensorUtils.ScoreExceeds100WhenThresholdsInverted | src/scripts/sensorUtils.ts:66-67 | with absMin above optimalMin the score can be 112, since no threshold check is made |
| SensorUtils.Band | src/scripts/sensorUtils.ts:78-103 | the five health bands, with lower bounds 90, 75, 60 and 40, each inclusive |
| SensorUtils.GetHealthStatusColor | src/scripts/sensorUtils.ts:78-90 | the colour class is green-500, green-600, yellow-500, orange-500 or red-500 (with its dark variant) by band, best first |
| SensorUtils.GetGrowthPrediction | src/scripts/sensorUtils.ts:97-103 | the prediction's source name is Excellent, Good, Fair, Poor or Critical by band |
| SensorUtils.GrowthPredictionFollowsBand | src/scripts/sensorUtils.ts:97-103 | the prediction is Excellent, Good, Fair, Poor or Critical by band |
| SensorUtils.ColorAndPredictionAgree | src/scripts/sensorUtils.ts:78-103 | two scores get the same colour iff they get the same prediction iff they share a band |
| SensorUtils.GetSystemStatus | src/scripts/sensorUtils.ts:110-114 | critical iff any status is critical; warning iff none is critical and some is warning; normal otherwise |
| SensorUtils.NormalMeansAllOptimal | src/scripts/sensorUtils.ts:110-114 | normal iff every status is optimal; the empty list is normal |
| SensorUtils.SystemStatusIsWorstOf | src/scripts/sensorUtils.ts:110-114 | the system status equals an independent fold taking the maximum severity |
| SensorUtils.SystemStatusPermutationInvariant | src/scripts/sensorUtils.ts:110-114 | reordering the statuses does not change the system status |
| ResponseApi.MapReadableHistory | src/composables/responseApi.ts:102-107 | same length; each value kept; each time the locale rendering of the time at that index |
| ResponseApi.ValuesPreserved | src/composables/responseApi.ts:105 | the sequence of values is unchanged by rendering |
| ResponseApi.MapReadableHistoryAppend | src/composables/responseApi.ts:102-107 | rendering distributes over concatenation, reading by reading |
| ResponseApi.ParseModificationStatus | src/composables/responseApi.ts:44 | parses exactly the four record statuses, inverse to their keys |
| ResponseApi.StatusVocabulariesDiffer | src/composables/responseApi.ts:36-46 | `unknown` is a record status only; `normal` and `inactive` are dashboard statuses only; the other three are shared; the record trends are the three trend words |
| SensorDataUtils.ResolveEntry | src/scripts/sensorDataUtils.ts:60-61 | the file-API key's entry when that key is non-empty and defined, else the sensor key's entry, else none |
| SensorDataUtils.FileKeyPriority | src/scripts/sensorDataUtils.ts:60-61 | the file-API entry wins iff its key is non-empty; without a file-API key the sensor key's entry is used |
| SensorDataUtils.UpdateSensorDataFromResponse | src/scripts/sensorDataUtils.ts:52-81 | no response or no entry leaves the record unchanged; otherwise the value is the last reading's (0 when there is none) and the history is rendered one to one; the unit is replaced only when the entry has one; missing thresholds become 0 and a missing status and trend become `unknown` and `stable`; present ones are kept |
| SensorDataUtils.UpdateIdempotent | src/scripts/sensorDataUtils.ts:52-81 | applying the same response twice equals applying it once |
| SensorDataUtils.UpdateKeepsModificationStatus | src/scripts/sensorDataUtils.ts:79 | a record whose status is a record status (or missing) still has one after an update |
| SensorDataUtils.UpdateSensorStatus | src/scripts/sensorDataUtils.ts:89-105 | nothing changes when the stored min or max is missing; otherwise only the status changes, and it is critical and optimal exactly as the passed thresholds classify the value |
| SensorDataUtils.StatusIgnoresStoredThresholds | src/scripts/sensorDataUtils.ts:104 | records that differ only in stored thresholds get the same status |
| SensorDataUtils.UpdateSensorTrend | src/scripts/sensorDataUtils.ts:111-117 | with fewer than two points nothing changes; otherwise only the trend changes, and it is `up`, `down` or `stable` exactly as the last value is above, below or equal to the one before |
| SensorDataUtils.TrendScenario | src/scripts/sensorDataUtils.ts:111-117 | readings 10 then 15 give `up`; a single reading keeps the previous trend |
| SensorDataUtils.FormatSensorDataForExport | src/scripts/sensorDataUtils.ts:141-159 | the history one to one as export points (time to timestamp, value kept); the info is the given name with the record's unit |
| SensorDataUtils.FormatForExportRoundTrip | src/scripts/sensorDataUtils.ts:148-151 | the history can be read back from the export points unchanged |
| SensorHelpers.GetSensorStatusConfig | src/utils/sensorHelpers.ts:59-61 | the status's styling, else `inactive`'s |
| SensorHelpers.GetSensorTrendConfig | src/utils/sensorHelpers.ts:68-70 | the trend's styling, else `stable`'s |
| SensorHelpers.GetCategoryColorConfig | src/utils/sensorHelpers.ts:77-79 | the category's colour, else `Environment`'s |
| SensorHelpers.GetSensorIconClass | src/utils/sensorHelpers.ts:86-88 | the icon class, else `mdi-circle` |
| SensorHelpers.GetChartColorTheme | src/utils/sensorHelpers.ts:95-97 | the colour's chart theme, else the `#10B981` theme |
| SensorHelpers.LookupsTotalOnVocabulary | src/utils/sensorHelpers.ts:59-79 | no status, trend or category of the vocabulary falls back |
| SensorHelpers.UpdatedTrendWordsAreNotTrends | src/scripts/sensorDataUtils.ts:115 | the `up` and `down` that updateSensorTrend writes fail trend validation and are styled as `stable` |
| SensorHelpers.GetDefaultUnit | src/utils/sensorHelpers.ts:162-172 | a non-empty unit for the five dashboard ids, the empty text otherwise |
| SensorHelpers.MappingsResolve | src/utils/sensorHelpers.ts:105-141 | every mapping's icon key has an icon class and every id a default unit |
| SensorHelpers.TransformOne | src/utils/sensorHelpers.ts:144-154 | the value, unit and status are taken from the raw entry when present (an existing 0 is kept), else 0, the default unit and `inactive`; the trend is `stable`; the name and category come from the mapping; the update time is rendered relatively |
| SensorHelpers.TransformSensorData | src/utils/sensorHelpers.ts:104-155 | always the five dashboard sensors in fixed order, each with the fallbacks above, and each `lastUpdate` the relative time of its reading's time, or of the empty string when there is none |
| SensorHelpers.TransformReadsOnlyMappedKeys | src/utils/sensorHelpers.ts:144-154 | raw data that agrees on the five data keys transforms alike, whatever else it holds |
| SensorHelpers.CapitalizeFirst | src/utils/sensorHelpers.ts:179-181 | the upper-cased first character followed by the rest unchanged; empty stays empty |
| SensorHelpers.CapitalizeFirstKeepsRest | src/utils/sensorHelpers.ts:179-181 | with a one-character upper case, the length and everything after the first position are kept |
| SensorHelpers.IsValidSensorStatus | src/utils/sensorHelpers.ts:199-201 | true exactly for the five statuses |
| SensorHelpers.IsValidSensorTrend | src/utils/sensorHelpers.ts:208-210 | true exactly for the three trends |
| SensorHelpers.IsValidSensorStatusAsWritten | src/utils/sensorHelpers.ts:199-201 | the `in` test as written accepts the five statuses and every inherited object name |
| SensorHelpers.IsValidSensorTrendAsWritten | src/utils/sensorHelpers.ts:208-210 | the `in` test as written accepts the three trends and every inherited object name |
| SensorHelpers.InheritedNameAcceptedAsStatus | src/utils/sensorHelpers.ts:199-210 | `toString` passes both guards as written but is neither a status nor a trend |
| SensorHelpers.InheritedNamesAreNotStatuses | src/utils/sensorHelpers.ts:199-201 | no inherited name is a status |
| SensorHelpers.InheritedNamesAreNotTrends | src/utils/sensorHelpers.ts:208-210 | no inherited name is a trend |
| SensorHelpers.GetMinMax | src/utils/sensorHelpers.ts:212-222 | 0 and 0 for an empty history; otherwise every value lies between min and max, and both are attained |
| StrOrder.SortDistinct | src/utils/exportUtils.ts:66-75 | strictly ascending and holding exactly the input's elements |
| StrOrder.SortDistinctSetOnly | src/utils/exportUtils.ts:66-75 | the sorted result depends only on the set of timestamps; sorting twice changes nothing |
| ExportUtils.HeaderColumns | src/utils/exportUtils.ts:57-64 | one column per sensor with info, in caller order; as many columns as sensors iff every sensor has info; none when none has |
| ExportUtils.HeaderColumnsAppend | src/utils/exportUtils.ts:58-62 | one more sensor adds its `name (unit)` column at the end if it has info and nothing otherwise, which fixes the header for any mix of sensors |
| ExportUtils.CollectedAreListed | src/utils/exportUtils.ts:66-73 | the collected timestamps are exactly those of the requested sensors' readings |
| ExportUtils.RowKeys | src/utils/exportUtils.ts:66-75 | strictly ascending with no duplicates; a timestamp is a key iff a requested sensor has a reading there |
| ExportUtils.RowKeysCanonical | src/utils/exportUtils.ts:66-75 | any strictly sorted list of exactly those timestamps is the row keys |
| ExportUtils.ValueAt | src/utils/exportUtils.ts:81-87 | no value exactly when the series has no reading at that timestamp |
| ExportUtils.ValueAtIsLastReading | src/utils/exportUtils.ts:81-87 | the value found is that of the last reading at that timestamp |
| ExportUtils.AlignTable | src/utils/exportUtils.ts:89-100 | one row per row key, in order, each with one cell per requested sensor |
| ExportUtils.TableRowsAscend | src/utils/exportUtils.ts:75 | the rows' timestamps strictly ascend |
| ExportUtils.TableSoundness | src/utils/exportUtils.ts:81-97 | a cell is empty iff its sensor has no reading at the row's timestamp; a filled cell holds the last such reading (0 included) |
| ExportUtils.TableCompleteness | src/utils/exportUtils.ts:66-97 | every reading of a requested sensor has a row at its timestamp with that sensor's cell filled |
| ExportUtils.HeaderLineRoundTrip | src/utils/exportUtils.ts:57-64 | splitting the header line at commas gives `Timestamp` and the header columns |
| ExportUtils.RowLineRoundTrip | src/utils/exportUtils.ts:89-99 | splitting a row line at commas gives the date and one field per cell |
| ExportUtils.ExportAsCsv | src/utils/exportUtils.ts:51-103 | the CSV text opens with the `Timestamp` header and ends with a newline; CsvRoundTrip reads its fields back |
| ExportUtils.ExportAsExcel | src/utils/exportUtils.ts:162-169 | the Excel export's text is the CSV export's text for the same data, sensors and info |
| ExportUtils.CsvRoundTrip | src/utils/exportUtils.ts:57-100 | parsing the CSV text gives back the header fields and the aligned table's fields, row by row |
| ExportUtils.CsvCellsEmptyIffMissing | src/utils/exportUtils.ts:94-97 | read back, each row has a field per sensor after the date, empty exactly where the table has no value |
| ExportUtils.DataTypeOf | src/utils/exportUtils.ts:145 | the longest underscore-free prefix of the file name |
| ExportUtils.ExportAsJson | src/utils/exportUtils.ts:112-151 | an entry exactly for each requested sensor with a series, holding its readings unchanged; the name is the info's non-empty name, else the id; the unit is the info's unit, else empty; the data type comes from the file name |
| ExportUtils.JsonAgreesWithCsv | src/utils/exportUtils.ts:127-139 | every JSON reading has a CSV row at its timestamp with the sensor's cell filled |
| ExportUtils.ExcelIsCsv | src/utils/exportUtils.ts:162-169 | the Excel export writes exactly the CSV text, under a different file name |
| ExportUtils.FormatDateRangeForFilename | src/utils/exportUtils.ts:194-196 | the range text opens with the start date and `_to_`, and everything after them is exactly the end date |
| ExportUtils.DateRangeRoundTrip | src/utils/exportUtils.ts:194-196 | with underscore-free dates, splitting at underscores gives start, `to`, end |
| ExportUtils.GenerateExportFilename | src/utils/exportUtils.ts:205-212 | starts with the data type and `_data_`, continues with the `start_to_end` range text, and ends with a dot and the format's extension (`xlsx` for Excel) |
| ExportUtils.FilenameRangeRoundTrip | src/utils/exportUtils.ts:194-212 | with underscore-free type and dates, splitting the name at underscores gives back the type, `data`, the start, `to`, and the end with the extension |
| ExportUtils.FilenameDataTypeRoundTrip | src/utils/exportUtils.ts:205-212 | the data type read back from the file name is the one given iff it has no underscore |
| ExportUtils.FilenameDeterminesFormat | src/utils/exportUtils.ts:205-212 | two file names for the same type and range are equal iff the formats are |
| ExportUtils.SensorIds | src/utils/exportUtils.ts:235 | one id per requested sensor, in request order, a bare id or a described sensor's id |
| ExportUtils.DefaultInfo | src/utils/exportUtils.ts:241-245 | a bare id names itself with no unit; a described sensor keeps a given name or unit (even an empty one) and otherwise falls back to its id and the empty unit |
| ExportUtils.BuildSensorInfo | src/utils/exportUtils.ts:239-247 | an info entry for every requested id and for no other |
| ExportUtils.LastRequestWins | src/utils/exportUtils.ts:240-246 | an id's info comes from its last request: `name ?? id` and `unit ?? ''`, or the id and no unit for a bare id |
| ExportUtils.DistinctRequestsKeepTheirInfo | src/utils/exportUtils.ts:240-246 | with distinct ids, every request's info is its own |
| ExportUtils.ExportRange | src/utils/exportUtils.ts:228-233 | each end of the range is the requested one when given, else the default, independently of the other |
| ExportUtils.InfoToUse | src/utils/exportUtils.ts:237-247 | supplied info is used as it is; otherwise there is info for exactly the requested ids |
| ExportUtils.DataToUse | src/utils/exportUtils.ts:249-272 | supplied data is used as it is; otherwise there is a series for exactly the requested ids, each the generated one |
| ExportUtils.HandleDataExport | src/utils/exportUtils.ts:222-296 | the file name is made from `sensor`, the format and the resolved range; a JSON document iff JSON was asked for, with data type `sensor`; the serializer receives the requested ids in order, the resolved info and the resolved data |
| ExportUtils.EntryPointCsvShape | src/utils/exportUtils.ts:235-285 | without supplied info a CSV or Excel export reads back as `Timestamp` plus a column per requested sensor, then a row per distinct timestamp with a field per requested sensor after the date |
| ExportUtils.TimeRangeIgnored | src/utils/exportUtils.ts:228-233 | only the date range is read: changing the time range changes nothing |
| ExportUtils.HeaderCompleteWithoutInfo | src/utils/exportUtils.ts:239-247 | without supplied info, every requested sensor has a header column |
| ExportUtils.GeneratedCoversEverySensor | src/utils/exportUtils.ts:249-272 | without supplied data, the JSON document has an entry for exactly the requested ids, each with its generated series |

## Left out

- `downloadFile` and the download itself are not modelled, because they need a Blob, a URL and the DOM. An export yields the file name and the content instead.
- ExportUtils.ExportAsJson: models the document as a structured value. The `JSON.stringify` text, the key order and the `exportDate` stamp from the clock are not modelled.
- ExportUtils.HandleDataExport: the default date range comes from the clock in the source. Here it is the parameter `defaultRange`.
- ExportUtils.HandleDataExport: the source makes stand-in series with `Math.random` when no data is supplied. Here the series comes from the `generate` parameter.
- ExportUtils.HandleDataExport: the `console.error` branch for an unknown format cannot be reached, because the format is a closed datatype.
- ExportUtils.HandleDataExport: the `try`/`catch` and promise rejection are not modelled, since no modelled step can throw.
- ExportUtils.RowKeys: sorts by code-point order (`StrOrder.Less`) instead of `localeCompare`, whose collation belongs to the host. Dafny characters are Unicode scalar values, so this is not UTF-16 code-unit order either: a character above U+FFFF sorts after U+FF61 here, but before it in UTF-16.
- SensorHelpers.CapitalizeFirst: takes the first Unicode scalar value. JavaScript's `charAt(0)` of a string starting above U+FFFF is a lone surrogate, which `toUpperCase` leaves unchanged.
- ExportUtils.CsvRoundTrip: holds only when names, units and rendered dates and numbers contain no comma or newline. The source writes fields unquoted, so any other text does not read back.
- SensorUtils.CalculateParameterScore: floating-point rounding and division are not modelled, and neither is NaN. Numbers are exact reals.
- SensorHelpers.GetMinMax: the engine's argument-count limit on `Math.min(...values)` is not modelled, and neither is NaN.
- SensorDataUtils.UpdateSensorStatus: the record's `value` is always present here, so the `value === undefined` guard is not modelled.
- SensorDataUtils.UpdateSensorStatus: `None` means `undefined` here. The source's guard tests `=== undefined`, so it would re-classify a record whose stored min or max is `null`. The model does not represent a stored `null` threshold.
- SensorHelpers.TransformSensorData: the `console.log(rawData)` logging is not modelled. It has no effect on the result.
- SensorDataUtils.SensorData: omits the optional `latest` field, which no modelled operation reads or writes.
- Lookups on plain objects elsewhere (the mapping maps, the unit map, the config lookups `getSensorStatusConfig`, `getSensorTrendConfig`, `getCategoryColorConfig`, `getSensorIconClass` and `getChartColorTheme`, the response lookup `response[fileApiKey]`, the CSV `dataMap`, the JSON `data[sensorId]`) are own-key maps. Inherited object names are modelled only for the two validation guards, listed under Findings.
- `getDateRangeFromTimeframe` is not modelled, because it reads the clock.
- `formatSensorValue` is not modelled, because it relies on the float formatting of `toFixed`.
- The network client, toast notifications, router, error handler, date and random-data utilities are outside this core.

## Findings

| source | as written | input that shows it | evidently intended | confidence | as-written member | corrected member |
|---|---|---|---|---|---|---|
| src/utils/sensorHelpers.ts:199-210 | `status in SENSOR_STATUS_CONFIG` (and the trend twin) tests the prototype chain too | `"toString"` is accepted as a status and as a trend | true only for the table's own keys: the five statuses and the three trends | not executed; high | SensorHelpers.InheritedNameAcceptedAsStatus | SensorHelpers.IsValidSensorStatus |
