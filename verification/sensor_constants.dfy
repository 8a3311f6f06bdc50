/** Sensor vocabulary shared by the dashboard: the status, trend and category
    enumerations, the styling tables keyed by them, the icon and chart-colour
    tables, and the default sensor configuration. The tables are dictionaries
    keyed by strings, as in the source, so that lookups of arbitrary strings
    (and their fallbacks) can be stated. */
module SensorConstants {
  import opened Wrappers

  datatype SensorStatus = Optimal | Normal | Warning | Critical | Inactive
  datatype SensorTrend = Increasing | Decreasing | Stable
  datatype SensorCategory = Soil | Air | Environment

  const AllStatuses: seq<SensorStatus> := [Optimal, Normal, Warning, Critical, Inactive]
  const AllTrends: seq<SensorTrend> := [Increasing, Decreasing, Stable]
  const AllCategories: seq<SensorCategory> := [Soil, Air, Environment]

  /** The string a status has in the source's string-literal union type. */
  function StatusKey(s: SensorStatus): string {
    match s
    case Optimal => "optimal"
    case Normal => "normal"
    case Warning => "warning"
    case Critical => "critical"
    case Inactive => "inactive"
  }

  function TrendKey(t: SensorTrend): string {
    match t
    case Increasing => "increasing"
    case Decreasing => "decreasing"
    case Stable => "stable"
  }

  function CategoryKey(c: SensorCategory): string {
    match c
    case Soil => "Soil"
    case Air => "Air"
    case Environment => "Environment"
  }

  /** Reads a status back from its string; the inverse of StatusKey. */
  function ParseStatus(k: string): (r: Option<SensorStatus>)
    ensures r.Some? ==> StatusKey(r.value) == k
  {
    if k == "optimal" then Some(Optimal)
    else if k == "normal" then Some(Normal)
    else if k == "warning" then Some(Warning)
    else if k == "critical" then Some(Critical)
    else if k == "inactive" then Some(Inactive)
    else None
  }

  function ParseTrend(k: string): (r: Option<SensorTrend>)
    ensures r.Some? ==> TrendKey(r.value) == k
  {
    if k == "increasing" then Some(Increasing)
    else if k == "decreasing" then Some(Decreasing)
    else if k == "stable" then Some(Stable)
    else None
  }

  lemma StatusKeyRoundTrip(s: SensorStatus)
    ensures ParseStatus(StatusKey(s)) == Some(s)
  {
  }

  lemma TrendKeyRoundTrip(t: SensorTrend)
    ensures ParseTrend(TrendKey(t)) == Some(t)
  {
  }

  /** The three enumerations have exactly five, three and three members,
      listed in AllStatuses, AllTrends and AllCategories without repetition. */
  lemma EnumerationSizes()
    ensures forall s: SensorStatus :: s in AllStatuses
    ensures forall t: SensorTrend :: t in AllTrends
    ensures forall c: SensorCategory :: c in AllCategories
    ensures |AllStatuses| == 5
    ensures |AllTrends| == 3 && |AllCategories| == 3
    ensures forall i, j :: 0 <= i < j < |AllStatuses| ==> StatusKey(AllStatuses[i]) != StatusKey(AllStatuses[j])
    ensures ParseStatus("unknown") == None
  {
    forall s: SensorStatus ensures s in AllStatuses {
      match s
      case Optimal => assert AllStatuses[0] == s;
      case Normal => assert AllStatuses[1] == s;
      case Warning => assert AllStatuses[2] == s;
      case Critical => assert AllStatuses[3] == s;
      case Inactive => assert AllStatuses[4] == s;
    }
    forall t: SensorTrend ensures t in AllTrends {
      match t
      case Increasing => assert AllTrends[0] == t;
      case Decreasing => assert AllTrends[1] == t;
      case Stable => assert AllTrends[2] == t;
    }
    forall c: SensorCategory ensures c in AllCategories {
      match c
      case Soil => assert AllCategories[0] == c;
      case Air => assert AllCategories[1] == c;
      case Environment => assert AllCategories[2] == c;
    }
  }

  datatype StatusConfig = StatusConfig(badge: string, dot: string, iconBg: string, iconColor: string, ring: string)
  datatype TrendConfig = TrendConfig(icon: string, color: string, bg: string)
  datatype ChartColorTheme = ChartColorTheme(primary: string, light: string, bg: string, gradient: seq<string>)

  const EmeraldStyle := StatusConfig(
    "bg-emerald-100 text-emerald-700 dark:bg-emerald-900/30 dark:text-emerald-300",
    "bg-emerald-500",
    "bg-emerald-50 dark:bg-emerald-900/20",
    "text-emerald-600 dark:text-emerald-400",
    "ring-emerald-200/50 dark:ring-emerald-700/30")

  /** SENSOR_STATUS_CONFIG. The source writes the same five class strings out
      twice, for `optimal` and for `normal`; here both keys share EmeraldStyle. */
  const SensorStatusConfig: map<string, StatusConfig> := map[
    "optimal" := EmeraldStyle,
    "normal" := EmeraldStyle,
    "warning" := StatusConfig(
      "bg-amber-100 text-amber-700 dark:bg-amber-900/30 dark:text-amber-300",
      "bg-amber-500",
      "bg-amber-50 dark:bg-amber-900/20",
      "text-amber-600 dark:text-amber-400",
      "ring-amber-200/50 dark:ring-amber-700/30"),
    "critical" := StatusConfig(
      "bg-red-100 text-red-700 dark:bg-red-900/30 dark:text-red-300",
      "bg-red-500",
      "bg-red-50 dark:bg-red-900/20",
      "text-red-600 dark:text-red-400",
      "ring-red-200/50 dark:ring-red-700/30"),
    "inactive" := StatusConfig(
      "bg-gray-100 text-gray-700 dark:bg-gray-800 dark:text-gray-300",
      "bg-gray-400",
      "bg-gray-50 dark:bg-gray-800/30",
      "text-gray-500 dark:text-gray-400",
      "ring-gray-200/50 dark:ring-gray-700/30")
  ]

  const SensorTrendConfig: map<string, TrendConfig> := map[
    "increasing" := TrendConfig("mdi-trending-up", "text-emerald-500", "bg-emerald-50 dark:bg-emerald-900/20"),
    "decreasing" := TrendConfig("mdi-trending-down", "text-red-500", "bg-red-50 dark:bg-red-900/20"),
    "stable" := TrendConfig("mdi-trending-neutral", "text-gray-500", "bg-gray-50 dark:bg-gray-800/30")
  ]

  const CategoryColorConfig: map<string, string> := map[
    "Soil" := "bg-emerald-100 text-emerald-700 dark:bg-emerald-900/30 dark:text-emerald-300",
    "Air" := "bg-blue-100 text-blue-700 dark:bg-blue-900/30 dark:text-blue-300",
    "Environment" := "bg-amber-100 text-amber-700 dark:bg-amber-900/30 dark:text-amber-300"
  ]

  /** SENSOR_ICON_MAP: icon keys to Material Design Icon classes. */
  const SensorIconMap: map<string, string> := map[
    "thermometer" := "mdi-thermometer",
    "water-percent" := "mdi-water-percent",
    "flask" := "mdi-flask",
    "weather-partly-cloudy" := "mdi-weather-partly-cloudy",
    "water" := "mdi-water",
    "white-balance-sunny" := "mdi-white-balance-sunny"
  ]

  const ChartColorThemes: map<string, ChartColorTheme> := map[
    "#10B981" := ChartColorTheme("#10B981", "#34D399", "rgba(16, 185, 129, 0.1)",
      ["rgba(16, 185, 129, 0.2)", "rgba(16, 185, 129, 0.05)", "rgba(16, 185, 129, 0.01)"]),
    "#0D9488" := ChartColorTheme("#0D9488", "#14B8A6", "rgba(13, 148, 136, 0.1)",
      ["rgba(13, 148, 136, 0.2)", "rgba(13, 148, 136, 0.05)", "rgba(13, 148, 136, 0.01)"]),
    "#7C3AED" := ChartColorTheme("#7C3AED", "#8B5CF6", "rgba(124, 58, 237, 0.1)",
      ["rgba(124, 58, 237, 0.2)", "rgba(124, 58, 237, 0.05)", "rgba(124, 58, 237, 0.01)"]),
    "#F59E0B" := ChartColorTheme("#F59E0B", "#FBBF24", "rgba(245, 158, 11, 0.1)",
      ["rgba(245, 158, 11, 0.2)", "rgba(245, 158, 11, 0.05)", "rgba(245, 158, 11, 0.01)"])
  ]

  datatype DefaultConfig = DefaultConfig(status: SensorStatus, trend: SensorTrend, icon: string, unit: string, value: real)

  const DefaultSensorConfig := DefaultConfig(Inactive, Stable, "mdi-circle", "", 0.0)

  /** SensorDataStructure. `status` is a string: the source fills it with a
      cast of whatever status string the raw data carries, unchecked. */
  datatype SensorDataStructure = SensorDataStructure(
    id: string, name: string, value: real, unit: string, status: string,
    icon: string, category: SensorCategory, lastUpdate: string, trend: SensorTrend)

  /** The status table has an entry for exactly the five statuses, and
      `optimal` and `normal` are styled identically. */
  lemma StatusConfigTotal()
    ensures forall s: SensorStatus :: StatusKey(s) in SensorStatusConfig
    ensures forall k :: k in SensorStatusConfig <==> ParseStatus(k).Some?
    ensures SensorStatusConfig["optimal"] == SensorStatusConfig["normal"]
    ensures SensorStatusConfig["optimal"] != SensorStatusConfig["warning"]
  {
  }

  /** The trend table has an entry for exactly the three trends, the
      category table for exactly the three categories. */
  lemma TrendAndCategoryConfigTotal()
    ensures forall t: SensorTrend :: TrendKey(t) in SensorTrendConfig
    ensures forall k :: k in SensorTrendConfig <==> ParseTrend(k).Some?
    ensures forall c: SensorCategory :: CategoryKey(c) in CategoryColorConfig
    ensures |CategoryColorConfig| == 3
  {
  }

  lemma DefaultSensorConfigValues()
    ensures DefaultSensorConfig.status == Inactive && StatusKey(DefaultSensorConfig.status) in SensorStatusConfig
    ensures DefaultSensorConfig.trend == Stable && TrendKey(DefaultSensorConfig.trend) in SensorTrendConfig
    ensures DefaultSensorConfig.icon == "mdi-circle" && DefaultSensorConfig.icon !in SensorIconMap.Values
    ensures DefaultSensorConfig.unit == "" && DefaultSensorConfig.value == 0.0
  {
  }
}
