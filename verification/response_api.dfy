/** The API's reading shape, the display rendering of a history, and the
    status and trend vocabulary of the per-sensor records the settings view
    edits. `new Date(t).toLocaleString()` is host behaviour and enters as the
    parameter `locale`. */
module ResponseApi {
  import opened Wrappers
  import SensorConstants

  /** One reading: the time as the API sent it, and the measured value. */
  datatype SensorReading = SensorReading(time: string, value: real)

  /** Renders every reading's time for display, keeping its value. */
  function MapReadableHistory(history: seq<SensorReading>, locale: string -> string): (r: seq<SensorReading>)
    ensures |r| == |history|
    ensures forall i :: 0 <= i < |r| ==> r[i].value == history[i].value
    ensures forall i :: 0 <= i < |r| ==> r[i].time == locale(history[i].time)
  {
    if |history| == 0 then []
    else [SensorReading(locale(history[0].time), history[0].value)] + MapReadableHistory(history[1..], locale)
  }

  function Values(history: seq<SensorReading>): (r: seq<real>)
    ensures |r| == |history| && forall i :: 0 <= i < |r| ==> r[i] == history[i].value
  {
    seq(|history|, i requires 0 <= i < |history| => history[i].value)
  }

  /** Rendering leaves the sequence of values untouched. */
  lemma ValuesPreserved(history: seq<SensorReading>, locale: string -> string)
    ensures Values(MapReadableHistory(history, locale)) == Values(history)
  {
  }

  /** Rendering works reading by reading: it distributes over concatenation. */
  lemma {:induction false} MapReadableHistoryAppend(a: seq<SensorReading>, b: seq<SensorReading>, locale: string -> string)
    ensures MapReadableHistory(a + b, locale) == MapReadableHistory(a, locale) + MapReadableHistory(b, locale)
  {
    if |a| == 0 {
      assert a + b == b;
    } else {
      assert (a + b)[1..] == a[1..] + b;
      MapReadableHistoryAppend(a[1..], b, locale);
    }
  }

  /** The status a per-sensor record may carry: the classifier's three plus
      `unknown`, for a record not yet classified. */
  datatype ModificationStatus = ModOptimal | ModWarning | ModCritical | ModUnknown

  function ModificationStatusKey(s: ModificationStatus): string {
    match s
    case ModOptimal => "optimal"
    case ModWarning => "warning"
    case ModCritical => "critical"
    case ModUnknown => "unknown"
  }

  function ParseModificationStatus(k: string): (r: Option<ModificationStatus>)
    ensures r.Some? ==> ModificationStatusKey(r.value) == k
    ensures forall s :: ModificationStatusKey(s) == k ==> r == Some(s)
  {
    if k == "optimal" then Some(ModOptimal)
    else if k == "warning" then Some(ModWarning)
    else if k == "critical" then Some(ModCritical)
    else if k == "unknown" then Some(ModUnknown)
    else None
  }

  /** The record's trend uses the same three words as SensorConstants.SensorTrend. */
  predicate IsModificationTrendKey(k: string) {
    SensorConstants.ParseTrend(k).Some?
  }

  /** The record's four statuses and the dashboard's five overlap in three:
      `unknown` is only a record status; `normal` and `inactive` only
      dashboard statuses. */
  lemma StatusVocabulariesDiffer()
    ensures ParseModificationStatus("unknown").Some? && SensorConstants.ParseStatus("unknown").None?
    ensures ParseModificationStatus("normal").None? && SensorConstants.ParseStatus("normal").Some?
    ensures ParseModificationStatus("inactive").None? && SensorConstants.ParseStatus("inactive").Some?
    ensures forall s :: s != ModUnknown ==> SensorConstants.ParseStatus(ModificationStatusKey(s)).Some?
    ensures forall k :: IsModificationTrendKey(k) <==> k in ["increasing", "decreasing", "stable"]
  {
  }
}
