/** Helpers shared by the sensor cards: configuration lookups with their
    fallbacks, the fixed-shape transformation of raw dashboard data, default
    units, capitalisation, status/trend validation and the range of a
    history. Host functions (`toUpperCase` of one character, the relative-time
    formatter) enter as parameters. */
module SensorHelpers {
  import opened Wrappers
  import opened SensorConstants
  import SensorDataUtils

  /** getSensorStatusConfig: the status's styling, `inactive`'s for an
      unknown key. */
  function GetSensorStatusConfig(status: string): (r: StatusConfig)
    ensures status in SensorStatusConfig ==> r == SensorStatusConfig[status]
    ensures status !in SensorStatusConfig ==> r == SensorStatusConfig["inactive"]
  {
    if status in SensorStatusConfig then SensorStatusConfig[status] else SensorStatusConfig["inactive"]
  }

  /** getSensorTrendConfig: the trend's styling, `stable`'s for an unknown key. */
  function GetSensorTrendConfig(trend: string): (r: TrendConfig)
    ensures trend in SensorTrendConfig ==> r == SensorTrendConfig[trend]
    ensures trend !in SensorTrendConfig ==> r == SensorTrendConfig["stable"]
  {
    if trend in SensorTrendConfig then SensorTrendConfig[trend] else SensorTrendConfig["stable"]
  }

  /** getCategoryColorConfig: `CATEGORY_COLOR_CONFIG[c] || ...Environment`. */
  function GetCategoryColorConfig(category: string): (r: string)
    ensures category in CategoryColorConfig ==> r == CategoryColorConfig[category]
    ensures category !in CategoryColorConfig ==> r == CategoryColorConfig["Environment"]
  {
    if category in CategoryColorConfig && CategoryColorConfig[category] != "" then CategoryColorConfig[category]
    else CategoryColorConfig["Environment"]
  }

  /** getSensorIconClass: the icon class, the default `mdi-circle` otherwise. */
  function GetSensorIconClass(iconKey: string): (r: string)
    ensures iconKey in SensorIconMap ==> r == SensorIconMap[iconKey]
    ensures iconKey !in SensorIconMap ==> r == "mdi-circle"
  {
    if iconKey in SensorIconMap && SensorIconMap[iconKey] != "" then SensorIconMap[iconKey]
    else DefaultSensorConfig.icon
  }

  /** getChartColorTheme: the colour's theme, the `#10B981` theme otherwise. */
  function GetChartColorTheme(color: string): (r: ChartColorTheme)
    ensures color in ChartColorThemes ==> r == ChartColorThemes[color]
    ensures color !in ChartColorThemes ==> r == ChartColorThemes["#10B981"]
  {
    if color in ChartColorThemes then ChartColorThemes[color] else ChartColorThemes["#10B981"]
  }

  /** Every status and trend has its own styling: the lookups fall back only
      for strings outside the vocabulary. */
  lemma LookupsTotalOnVocabulary(s: SensorStatus, t: SensorTrend, c: SensorCategory)
    ensures GetSensorStatusConfig(StatusKey(s)) == SensorStatusConfig[StatusKey(s)]
    ensures GetSensorTrendConfig(TrendKey(t)) == SensorTrendConfig[TrendKey(t)]
    ensures GetCategoryColorConfig(CategoryKey(c)) == CategoryColorConfig[CategoryKey(c)]
  {
  }

  /** The trend words `up` and `down` that updateSensorTrend writes are not
      trends: validation rejects them and the trend styling shows them as
      `stable`. */
  lemma UpdatedTrendWordsAreNotTrends(s: SensorDataUtils.SensorData)
    requires |s.history| >= 2
    requires s.history[|s.history| - 1].value != s.history[|s.history| - 2].value
    ensures var t := SensorDataUtils.UpdateSensorTrend(s).trend.value;
      && !IsValidSensorTrend(t)
      && GetSensorTrendConfig(t) == GetSensorTrendConfig("stable")
  {
  }

  /** One raw reading of the dashboard data; every field may be missing. */
  datatype RawEntry = RawEntry(value: Option<real>, unit: Option<string>, status: Option<string>, time: Option<string>)

  type RawSensorData = map<string, RawEntry>

  datatype SensorMapping = SensorMapping(id: string, name: string, icon: string, category: SensorCategory, dataKey: string)

  /** The five dashboard sensors, in display order. */
  const SensorMappings: seq<SensorMapping> := [
    SensorMapping("soilTemperature", "Soil Temperature", "thermometer", Soil, "soilTemperature"),
    SensorMapping("soilMoisture", "Soil Moisture", "water-percent", Soil, "soilMoisture"),
    SensorMapping("soilPH", "Soil pH Level", "flask", Soil, "soilPH"),
    SensorMapping("airTemperature", "Air Temperature", "weather-partly-cloudy", Air, "airTemperature"),
    SensorMapping("airHumidity", "Air Humidity", "water", Air, "airHumidity")
  ]

  const UnitMap: map<string, string> := map[
    "soilTemperature" := "°C",
    "soilMoisture" := "%",
    "soilPH" := "pH",
    "airTemperature" := "°C",
    "airHumidity" := "%"
  ]

  /** getDefaultUnit: the unit of a known dashboard id, `''` otherwise. */
  function GetDefaultUnit(sensorId: string): (r: string)
    ensures sensorId in UnitMap ==> r == UnitMap[sensorId] && r != ""
    ensures sensorId !in UnitMap ==> r == ""
  {
    if sensorId in UnitMap && UnitMap[sensorId] != "" then UnitMap[sensorId] else ""
  }

  /** Every mapping's icon key has an icon class and its id a default unit. */
  lemma MappingsResolve()
    ensures forall i :: 0 <= i < |SensorMappings| ==>
      SensorMappings[i].icon in SensorIconMap && SensorMappings[i].id in UnitMap
  {
    forall i | 0 <= i < |SensorMappings|
      ensures SensorMappings[i].icon in SensorIconMap && SensorMappings[i].id in UnitMap
    {
      if i == 0 {
      } else if i == 1 {
      } else if i == 2 {
      } else if i == 3 {
      } else {
      }
    }
  }

  /** One dashboard record from its mapping and the raw data: raw value,
      unit and status where present (an existing 0 is kept), else 0, the
      default unit and `inactive`; always trend `stable`. */
  function TransformOne(m: SensorMapping, raw: RawSensorData, relativeTime: string -> string): (r: SensorDataStructure)
    ensures r.id == m.id && r.name == m.name && r.category == m.category && r.trend == Stable
    ensures r.icon == GetSensorIconClass(m.icon)
    ensures m.dataKey in raw && raw[m.dataKey].value.Some? ==> r.value == raw[m.dataKey].value.value
    ensures !(m.dataKey in raw && raw[m.dataKey].value.Some?) ==> r.value == 0.0
    ensures m.dataKey in raw && raw[m.dataKey].unit.Some? ==> r.unit == raw[m.dataKey].unit.value
    ensures !(m.dataKey in raw && raw[m.dataKey].unit.Some?) ==> r.unit == GetDefaultUnit(m.id)
    ensures m.dataKey in raw && raw[m.dataKey].status.Some? ==> r.status == raw[m.dataKey].status.value
    ensures !(m.dataKey in raw && raw[m.dataKey].status.Some?) ==> r.status == "inactive"
    ensures r.lastUpdate == relativeTime(if m.dataKey in raw && raw[m.dataKey].time.Some? then raw[m.dataKey].time.value else "")
  {
    var e := if m.dataKey in raw then Some(raw[m.dataKey]) else None;
    SensorDataStructure(
      id := m.id,
      name := m.name,
      value := if e.Some? && e.value.value.Some? then e.value.value.value else DefaultSensorConfig.value,
      unit := if e.Some? && e.value.unit.Some? then e.value.unit.value else GetDefaultUnit(m.id),
      status := if e.Some? && e.value.status.Some? then e.value.status.value else StatusKey(DefaultSensorConfig.status),
      icon := GetSensorIconClass(m.icon),
      category := m.category,
      lastUpdate := relativeTime(if e.Some? && e.value.time.Some? then e.value.time.value else ""),
      trend := DefaultSensorConfig.trend)
  }

  /** transformSensorData: always the five dashboard sensors in fixed order,
      whatever keys the raw data has. */
  function TransformSensorData(raw: RawSensorData, relativeTime: string -> string): (r: seq<SensorDataStructure>)
    ensures |r| == 5
    ensures [r[0].id, r[1].id, r[2].id, r[3].id, r[4].id]
         == ["soilTemperature", "soilMoisture", "soilPH", "airTemperature", "airHumidity"]
    ensures forall i :: 0 <= i < 5 ==>
      var m := SensorMappings[i];
      && r[i].name == m.name && r[i].category == m.category
      && r[i].trend == Stable
      && r[i].icon == SensorIconMap[m.icon]
      && (m.dataKey in raw && raw[m.dataKey].value.Some? ==> r[i].value == raw[m.dataKey].value.value)
      && (!(m.dataKey in raw && raw[m.dataKey].value.Some?) ==> r[i].value == 0.0)
      && (m.dataKey in raw && raw[m.dataKey].unit.Some? ==> r[i].unit == raw[m.dataKey].unit.value)
      && (!(m.dataKey in raw && raw[m.dataKey].unit.Some?) ==> r[i].unit == UnitMap[m.id] && r[i].unit != "")
      && (m.dataKey in raw && raw[m.dataKey].status.Some? ==> r[i].status == raw[m.dataKey].status.value)
      && (!(m.dataKey in raw && raw[m.dataKey].status.Some?) ==> r[i].status == "inactive")
      && r[i].lastUpdate == relativeTime(if m.dataKey in raw && raw[m.dataKey].time.Some? then raw[m.dataKey].time.value else "")
  {
    MappingsResolve();
    seq(5, i requires 0 <= i < 5 => TransformOne(SensorMappings[i], raw, relativeTime))
  }

  /** Only the five data keys are read: raw data that agrees on them
      transforms alike, whatever else it holds. */
  lemma TransformReadsOnlyMappedKeys(a: RawSensorData, b: RawSensorData, relativeTime: string -> string)
    requires forall i :: 0 <= i < |SensorMappings| ==>
      (SensorMappings[i].dataKey in a <==> SensorMappings[i].dataKey in b)
      && (SensorMappings[i].dataKey in a ==> a[SensorMappings[i].dataKey] == b[SensorMappings[i].dataKey])
    ensures TransformSensorData(a, relativeTime) == TransformSensorData(b, relativeTime)
  {
    var ra := TransformSensorData(a, relativeTime);
    var rb := TransformSensorData(b, relativeTime);
    forall i | 0 <= i < 5 ensures ra[i] == rb[i] {
      TransformOneReadsOnlyItsKey(SensorMappings[i], a, b, relativeTime);
    }
  }

  lemma TransformOneReadsOnlyItsKey(m: SensorMapping, a: RawSensorData, b: RawSensorData, relativeTime: string -> string)
    requires (m.dataKey in a <==> m.dataKey in b) && (m.dataKey in a ==> a[m.dataKey] == b[m.dataKey])
    ensures TransformOne(m, a, relativeTime) == TransformOne(m, b, relativeTime)
  {
  }

  /** `toUpperCase` of a string: each character (a Unicode scalar value)
      upper-cased by the host's `upper`, which may expand one character into
      several, as for ß. */
  function ToUpperCase(s: string, upper: char -> string): (r: string)
    ensures s == "" ==> r == ""
  {
    if |s| == 0 then "" else upper(s[0]) + ToUpperCase(s[1..], upper)
  }

  /** `charAt(0)`: the first character, or `''` for the empty string. */
  function CharAt0(s: string): (r: string)
    ensures |r| <= 1 && (s != "" ==> r == [s[0]])
  {
    if |s| == 0 then "" else [s[0]]
  }

  /** `slice(1)`: all but the first character; `''` stays `''`. */
  function SliceFrom1(s: string): (r: string)
    ensures s != "" ==> r == s[1..]
    ensures s == "" ==> r == ""
  {
    if |s| == 0 then "" else s[1..]
  }

  /** capitalizeFirst: the first character upper-cased, the rest unchanged;
      `''` gives `''`. */
  function CapitalizeFirst(s: string, upper: char -> string): (r: string)
    ensures s == "" ==> r == ""
    ensures s != "" ==> r == upper(s[0]) + s[1..]
  {
    ToUpperCase(CharAt0(s), upper) + SliceFrom1(s)
  }

  /** When upper-casing keeps one character as one, capitalisation keeps the
      length, and changes nothing after the first position. */
  lemma CapitalizeFirstKeepsRest(s: string, upper: char -> string)
    requires s != "" && |upper(s[0])| == 1
    ensures |CapitalizeFirst(s, upper)| == |s|
    ensures CapitalizeFirst(s, upper)[1..] == s[1..]
    ensures CapitalizeFirst(s, upper)[0] == upper(s[0])[0]
  {
  }

  /** isValidSensorStatus as it should read: true exactly for the five
      statuses, the own keys of the status table. */
  function IsValidSensorStatus(status: string): (r: bool)
    ensures r <==> ParseStatus(status).Some?
  {
    StatusConfigTotal();
    status in SensorStatusConfig
  }

  /** isValidSensorTrend as it should read: true exactly for the three trends. */
  function IsValidSensorTrend(trend: string): (r: bool)
    ensures r <==> ParseTrend(trend).Some?
  {
    TrendAndCategoryConfigTotal();
    trend in SensorTrendConfig
  }

  /** The names every object literal inherits from Object.prototype. */
  const InheritedNames: set<string> := {
    "constructor", "hasOwnProperty", "isPrototypeOf", "propertyIsEnumerable",
    "toLocaleString", "toString", "valueOf", "__proto__",
    "__defineGetter__", "__defineSetter__", "__lookupGetter__", "__lookupSetter__"
  }

  /** The source's `status in SENSOR_STATUS_CONFIG`: the `in` operator also
      finds the inherited names. */
  function IsValidSensorStatusAsWritten(status: string): (r: bool)
    ensures r <==> IsValidSensorStatus(status) || status in InheritedNames
  {
    status in SensorStatusConfig || status in InheritedNames
  }

  function IsValidSensorTrendAsWritten(trend: string): (r: bool)
    ensures r <==> IsValidSensorTrend(trend) || trend in InheritedNames
  {
    trend in SensorTrendConfig || trend in InheritedNames
  }

  /** The guard as written accepts `toString` as a status and as a trend,
      though neither is one. */
  lemma InheritedNameAcceptedAsStatus()
    ensures IsValidSensorStatusAsWritten("toString") && !IsValidSensorStatus("toString")
    ensures IsValidSensorTrendAsWritten("toString") && !IsValidSensorTrend("toString")
  {
  }

  /** No inherited name is a status or a trend, so every one the guard as
      written lets through is wrongly accepted. */
  lemma InheritedNamesAreNotStatuses()
    ensures forall k :: k in InheritedNames ==> ParseStatus(k).None?
  {
  }

  lemma InheritedNamesAreNotTrends()
    ensures forall k :: k in InheritedNames ==> ParseTrend(k).None?
  {
  }

  /** getMinMax: {0, 0} for an empty history; otherwise the smallest and
      largest value, each attained by some point. */
  method GetMinMax(history: seq<SensorDataUtils.DataPoint>) returns (min: real, max: real)
    ensures |history| == 0 ==> min == 0.0 && max == 0.0
    ensures forall i :: 0 <= i < |history| ==> min <= history[i].value <= max
    ensures |history| > 0 ==> exists i :: 0 <= i < |history| && history[i].value == min
    ensures |history| > 0 ==> exists j :: 0 <= j < |history| && history[j].value == max
  {
    if |history| == 0 {
      return 0.0, 0.0;
    }
    min, max := history[0].value, history[0].value;
    ghost var lo, hi := 0, 0;
    var k := 1;
    while k < |history|
      invariant 1 <= k <= |history|
      invariant 0 <= lo < k && history[lo].value == min
      invariant 0 <= hi < k && history[hi].value == max
      invariant forall i :: 0 <= i < k ==> min <= history[i].value <= max
    {
      if history[k].value < min {
        min, lo := history[k].value, k;
      }
      if history[k].value > max {
        max, hi := history[k].value, k;
      }
      k := k + 1;
    }
  }
}
