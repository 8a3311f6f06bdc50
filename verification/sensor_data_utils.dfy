/** The normalizer and the per-sensor updates. The source mutates a sensor
    record in place; here each update is a function returning the updated
    record. */
module SensorDataUtils {
  import opened Wrappers
  import opened ResponseApi
  import opened ExportRecords
  import SensorUtils

  /** A history point: the same shape as a reading. */
  type DataPoint = SensorReading

  /** A sensor record. Threshold, status and trend fields may be missing
      (`None` is `undefined`; a stored `null` is not modelled); status and
      trend are free strings, as the source's `status?: string`. */
  datatype SensorData = SensorData(
    value: real,
    unit: string,
    min: Option<real>,
    max: Option<real>,
    optimalMin: Option<real>,
    optimalMax: Option<real>,
    status: Option<string>,
    trend: Option<string>,
    history: seq<DataPoint>)

  /** What the API sends for one sensor; both fields may be missing. */
  datatype SensorResponse = SensorResponse(history: Option<seq<SensorReading>>, unit: Option<string>)

  /** A response maps keys to entries. A key present with a `null` entry
      maps to `None`; an absent key is not in the map. */
  type Response = map<string, Option<SensorResponse>>

  /** The file-API key is used when it is given, non-empty (the source tests
      it for truthiness) and defined in the response. */
  predicate IsFileApiFormat(response: Response, fileApiKey: Option<string>) {
    fileApiKey.Some? && fileApiKey.value != "" && fileApiKey.value in response
  }

  /** The entry the update reads: the file-API key's entry if it applies,
      otherwise the sensor key's entry; None when that is absent or null. */
  function ResolveEntry(response: Response, sensorKey: string, fileApiKey: Option<string>): (r: Option<SensorResponse>)
    ensures IsFileApiFormat(response, fileApiKey) ==> r == response[fileApiKey.value]
    ensures !IsFileApiFormat(response, fileApiKey) && sensorKey in response ==> r == response[sensorKey]
    ensures !IsFileApiFormat(response, fileApiKey) && sensorKey !in response ==> r == None
  {
    if IsFileApiFormat(response, fileApiKey) then response[fileApiKey.value]
    else if sensorKey in response then response[sensorKey]
    else None
  }

  /** The value of the last reading, or 0 with no readings. */
  function LatestValue(history: Option<seq<SensorReading>>): real {
    if history.Some? && |history.value| > 0 then history.value[|history.value| - 1].value else 0.0
  }

  /** The invariant an update establishes: the value is the last history
      point's value, or 0 when the history is empty. */
  predicate ValueMatchesHistory(s: SensorData) {
    if |s.history| > 0 then s.value == s.history[|s.history| - 1].value else s.value == 0.0
  }

  /** updateSensorDataFromResponse. No response, or no entry under the chosen
      key, leaves the record as it is. Otherwise the value becomes the last
      reading's value, the history the rendered readings, the unit the
      entry's unit if it has one; missing thresholds become 0, a missing
      status `unknown` and a missing trend `stable`, and present ones are kept. */
  function UpdateSensorDataFromResponse(
    sensorData: SensorData, response: Option<Response>, sensorKey: string,
    fileApiKey: Option<string>, locale: string -> string): (r: SensorData)
    ensures response.None? ==> r == sensorData
    ensures response.Some? && ResolveEntry(response.value, sensorKey, fileApiKey).None? ==> r == sensorData
    ensures response.Some? && ResolveEntry(response.value, sensorKey, fileApiKey).Some? ==>
      var entry := ResolveEntry(response.value, sensorKey, fileApiKey).value;
      && ValueMatchesHistory(r)
      && (entry.history.None? ==> r.history == [] && r.value == 0.0)
      && (entry.history.Some? ==>
            && |r.history| == |entry.history.value|
            && forall i :: 0 <= i < |r.history| ==>
                 r.history[i] == SensorReading(locale(entry.history.value[i].time), entry.history.value[i].value))
      && r.unit == (if entry.unit.Some? then entry.unit.value else sensorData.unit)
      && r.min == Some(sensorData.min.GetOr(0.0))
      && r.max == Some(sensorData.max.GetOr(0.0))
      && r.optimalMin == Some(sensorData.optimalMin.GetOr(0.0))
      && r.optimalMax == Some(sensorData.optimalMax.GetOr(0.0))
      && r.status == Some(sensorData.status.GetOr("unknown"))
      && r.trend == Some(sensorData.trend.GetOr("stable"))
  {
    if response.None? then sensorData
    else
      var entry := ResolveEntry(response.value, sensorKey, fileApiKey);
      if entry.None? then sensorData
      else
        var e := entry.value;
        SensorData(
          value := LatestValue(e.history),
          unit := e.unit.GetOr(sensorData.unit),
          min := Some(sensorData.min.GetOr(0.0)),
          max := Some(sensorData.max.GetOr(0.0)),
          optimalMin := Some(sensorData.optimalMin.GetOr(0.0)),
          optimalMax := Some(sensorData.optimalMax.GetOr(0.0)),
          status := Some(sensorData.status.GetOr("unknown")),
          trend := Some(sensorData.trend.GetOr("stable")),
          history := if e.history.Some? then MapReadableHistory(e.history.value, locale) else [])
  }

  /** Applying the same response twice is the same as applying it once. */
  lemma UpdateIdempotent(sensorData: SensorData, response: Option<Response>, sensorKey: string,
                         fileApiKey: Option<string>, locale: string -> string)
    ensures var once := UpdateSensorDataFromResponse(sensorData, response, sensorKey, fileApiKey, locale);
            UpdateSensorDataFromResponse(once, response, sensorKey, fileApiKey, locale) == once
  {
  }

  /** A stored status that is a record status (or none) stays a record
      status through an update; the update never invents another word. */
  lemma UpdateKeepsModificationStatus(sensorData: SensorData, response: Option<Response>, sensorKey: string,
                                      fileApiKey: Option<string>, locale: string -> string)
    requires sensorData.status.None? || ParseModificationStatus(sensorData.status.value).Some?
    ensures var r := UpdateSensorDataFromResponse(sensorData, response, sensorKey, fileApiKey, locale);
            r.status.None? || ParseModificationStatus(r.status.value).Some?
  {
  }

  /** The file-API key wins exactly when it is non-empty and present; an
      empty file-API key is ignored even when the response defines it. */
  lemma FileKeyPriority(response: Response, sensorKey: string, fileApiKey: string)
    requires fileApiKey in response && sensorKey in response && response[fileApiKey] != response[sensorKey]
    ensures ResolveEntry(response, sensorKey, Some(fileApiKey)) == response[fileApiKey] <==> fileApiKey != ""
    ensures ResolveEntry(response, sensorKey, None) == response[sensorKey]
  {
  }

  /** updateSensorStatus. With the stored min or max missing nothing changes;
      otherwise the status is classified from the stored value against the
      thresholds passed in (the stored thresholds are not read), and nothing
      else changes. */
  function UpdateSensorStatus(sensorData: SensorData, min: real, max: real, optimalMin: real, optimalMax: real): (r: SensorData)
    ensures sensorData.min.None? || sensorData.max.None? ==> r == sensorData
    ensures sensorData.min.Some? && sensorData.max.Some? ==>
      r.status.Some? && r == sensorData.(status := r.status)
    ensures sensorData.min.Some? && sensorData.max.Some? ==>
      (r.status == Some("critical") <==> sensorData.value < min || max < sensorData.value)
    ensures sensorData.min.Some? && sensorData.max.Some? ==>
      (r.status == Some("optimal") <==> min <= sensorData.value <= max && optimalMin <= sensorData.value <= optimalMax)
    ensures sensorData.min.Some? && sensorData.max.Some? ==>
      r.status.value in ["critical", "warning", "optimal"]
  {
    if sensorData.min.None? || sensorData.max.None? then sensorData
    else
      sensorData.(status := Some(SensorUtils.StatusValueKey(
        SensorUtils.GetSensorStatus(sensorData.value, min, max, optimalMin, optimalMax))))
  }

  /** The stored thresholds do not influence the status: two records that
      differ only in them classify alike. */
  lemma StatusIgnoresStoredThresholds(a: SensorData, b: SensorData, min: real, max: real, optimalMin: real, optimalMax: real)
    requires a.min.Some? && a.max.Some? && b.min.Some? && b.max.Some?
    requires a.value == b.value
    ensures UpdateSensorStatus(a, min, max, optimalMin, optimalMax).status
         == UpdateSensorStatus(b, min, max, optimalMin, optimalMax).status
  {
  }

  /** updateSensorTrend. With fewer than two points nothing changes;
      otherwise the last two values decide `up`, `down` or `stable` (the
      source's words, not the trend vocabulary's `increasing`/`decreasing`),
      and nothing else changes. */
  function UpdateSensorTrend(sensorData: SensorData): (r: SensorData)
    ensures |sensorData.history| < 2 ==> r == sensorData
    ensures |sensorData.history| >= 2 ==>
      var h := sensorData.history;
      var current := h[|h| - 1].value;
      var previous := h[|h| - 2].value;
      && r == sensorData.(trend := r.trend)
      && (r.trend == Some("up") <==> current > previous)
      && (r.trend == Some("down") <==> current < previous)
      && (r.trend == Some("stable") <==> current == previous)
  {
    var h := sensorData.history;
    if |h| >= 2 then
      var current := h[|h| - 1].value;
      var previous := h[|h| - 2].value;
      sensorData.(trend := Some(if current > previous then "up" else if current < previous then "down" else "stable"))
    else sensorData
  }

  /** Two rising readings give `up`, and one reading keeps the old trend. */
  lemma TrendScenario(s: SensorData)
    ensures UpdateSensorTrend(s.(history := [SensorReading("t1", 10.0), SensorReading("t2", 15.0)])).trend == Some("up")
    ensures UpdateSensorTrend(s.(history := [SensorReading("t1", 10.0)])).trend == s.trend
  {
  }

  /** formatSensorDataForExport: the history one to one as export points
      (time becomes timestamp, the value is kept), and the sensor's info is
      the given name with the record's unit. */
  function FormatSensorDataForExport(sensorData: SensorData, sensorName: string): (r: (seq<ExportPoint>, SensorInfo))
    ensures |r.0| == |sensorData.history|
    ensures forall i :: 0 <= i < |r.0| ==>
      r.0[i].timestamp == sensorData.history[i].time && r.0[i].value == sensorData.history[i].value
    ensures r.1 == SensorInfo(sensorName, sensorData.unit)
  {
    (seq(|sensorData.history|, i requires 0 <= i < |sensorData.history| =>
       ExportPoint(sensorData.history[i].time, sensorData.history[i].value)),
     SensorInfo(sensorName, sensorData.unit))
  }

  function ToHistory(points: seq<ExportPoint>): seq<DataPoint> {
    seq(|points|, i requires 0 <= i < |points| => SensorReading(points[i].timestamp, points[i].value))
  }

  /** Export formatting loses nothing: the history can be read back. */
  lemma FormatForExportRoundTrip(sensorData: SensorData, sensorName: string)
    ensures ToHistory(FormatSensorDataForExport(sensorData, sensorName).0) == sensorData.history
  {
  }
}
