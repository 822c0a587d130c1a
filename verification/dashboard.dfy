/** One pass of the dashboard script: fetch the latest reading, and when
    there is one, show its verdict. */
module Dashboard {
  import opened PyValues
  import opened Maintenance
  import opened Telemetry

  /** What one pass of the script ends in: the "unable to fetch" error
      message, a snapshot with its verdict and the text shown for it (in red
      when `red` holds), or an exception from the conversions, which escapes
      the script. */
  datatype Screen =
    | Unavailable
    | Shown(snapshot: Snapshot, verdict: Verdict, message: string, red: bool)
    | Crashed(error: ParseError)

  /** `sensor_data = fetch_data()`, then `predict_maintenance(sensor_data,
      model)` when `sensor_data` is truthy. A parsed snapshot always holds
      eight keys, so it is always truthy, and its verdict never raises. */
  function RunOnce(reply: Reply, text: TextParsers, predict: Snapshot -> int): (c: Screen)
    ensures c.Unavailable? <==> FetchData(reply, text).Absent?
    ensures c.Crashed? <==> FetchData(reply, text).Raised?
    ensures c.Crashed? ==> c.error == FetchData(reply, text).error
    ensures c.Shown? ==> FetchData(reply, text) == Parsed(c.snapshot)
    ensures c.Shown? && AllSafe(c.snapshot) ==> c.verdict == GoodCondition
    ensures c.Shown? && !AllSafe(c.snapshot) ==>
      (c.verdict == MaintenanceRequired <==> predict(c.snapshot) == 1)
    ensures c.Shown? ==> c.message == Message(c.verdict)
    ensures c.Shown? ==> (c.red <==> c.verdict == MaintenanceRequired)
  {
    match FetchData(reply, text)
    case Absent => Unavailable
    case Raised(e) => Crashed(e)
    case Parsed(s) =>
      ParsedSnapshotIsComplete(reply, text);
      var verdict := PredictMaintenance(s, predict).value;
      var message := Message(verdict);
      Shown(s, verdict, message, '\U{1F534}' in message)
  }

  /** A feed entry whose Temperature field is `t` and whose other fields are
      healthy: Humidity 50, Hall Effect 0, Sound 50, Current 5, Gas 100,
      Flame 0, Relay Status 0. Other keys (a timestamp, an entry id) may be
      present too. */
  predicate Reading(entry: Entry, t: real)
  {
    && Get(entry, "field1") == JFloat(t) && Get(entry, "field2") == JInt(50)
    && Get(entry, "field3") == JInt(0) && Get(entry, "field4") == JInt(50)
    && Get(entry, "field5") == JInt(5) && Get(entry, "field6") == JInt(100)
    && Get(entry, "field7") == JInt(0) && Get(entry, "field8") == JInt(0)
  }

  /** Each field of such an entry converts to the number it holds. */
  lemma ReadingConverts(entry: Entry, t: real, text: TextParsers)
    requires Reading(entry, t)
    ensures ConvertField(entry, Columns[0], text) == Ok(RealNum(t))
    ensures ConvertField(entry, Columns[1], text) == Ok(RealNum(50.0))
    ensures ConvertField(entry, Columns[2], text) == Ok(IntNum(0))
    ensures ConvertField(entry, Columns[3], text) == Ok(RealNum(50.0))
    ensures ConvertField(entry, Columns[4], text) == Ok(RealNum(5.0))
    ensures ConvertField(entry, Columns[5], text) == Ok(RealNum(100.0))
    ensures ConvertField(entry, Columns[6], text) == Ok(IntNum(0))
    ensures ConvertField(entry, Columns[7], text) == Ok(IntNum(0))
  {
  }

  /** The snapshot such an entry parses to, sensor by sensor. */
  predicate HoldsReading(s: Snapshot, t: real)
  {
      && SafeRanges[0].sensor in s && s[SafeRanges[0].sensor] == RealNum(t)
      && SafeRanges[1].sensor in s && s[SafeRanges[1].sensor] == RealNum(50.0)
      && SafeRanges[2].sensor in s && s[SafeRanges[2].sensor] == IntNum(0)
      && SafeRanges[3].sensor in s && s[SafeRanges[3].sensor] == RealNum(50.0)
      && SafeRanges[4].sensor in s && s[SafeRanges[4].sensor] == RealNum(5.0)
      && SafeRanges[5].sensor in s && s[SafeRanges[5].sensor] == RealNum(100.0)
      && SafeRanges[6].sensor in s && s[SafeRanges[6].sensor] == IntNum(0)
      && SafeRanges[7].sensor in s && s[SafeRanges[7].sensor] == IntNum(0)
  }

  /** Such an entry parses to the numbers it holds. */
  lemma ReadingParsesTo(entry: Entry, t: real, text: TextParsers)
    requires Reading(entry, t)
    ensures FetchData(Received(Response(Some([entry]))), text).Parsed?
    ensures HoldsReading(FetchData(Received(Response(Some([entry]))), text).snapshot, t)
  {
    ColumnsMatchTable();
    ReadingConverts(entry, t, text);
    var reply := Received(Response(Some([entry])));
    assert forall k :: 0 <= k < 8 ==> ConvertField(entry, Columns[k], text).Ok? by {
      forall k | 0 <= k < 8 ensures ConvertField(entry, Columns[k], text).Ok? {
        assert k == 0 || k == 1 || k == 2 || k == 3 || k == 4 || k == 5 || k == 6 || k == 7;
      }
    }
    var s := FetchData(reply, text).snapshot;
    assert forall k :: 0 <= k < 8 ==>
      (SafeRanges[k].sensor in s && s[SafeRanges[k].sensor] == ConvertField(entry, Columns[k], text).value);
  }

  /** Such a snapshot is complete, and safe exactly when `t` is within
      20..40. */
  lemma ReadingSafety(s: Snapshot, t: real)
    requires HoldsReading(s, t)
    ensures Complete(s) && "Temperature" in s && s["Temperature"] == RealNum(t)
    ensures AllSafe(s) <==> 20.0 <= t <= 40.0
  {
  }

  /** Such an entry parses; its Temperature is `t`, and the whole snapshot is
      safe exactly when `t` is within 20..40. */
  lemma ReadingParses(entry: Entry, t: real, text: TextParsers)
    requires Reading(entry, t)
    ensures FetchData(Received(Response(Some([entry]))), text).Parsed?
    ensures var s := FetchData(Received(Response(Some([entry]))), text).snapshot;
      && Complete(s) && "Temperature" in s && s["Temperature"] == RealNum(t)
      && (AllSafe(s) <==> 20.0 <= t <= 40.0)
  {
    ReadingParsesTo(entry, t, text);
    ReadingSafety(FetchData(Received(Response(Some([entry]))), text).snapshot, t);
  }

  /** A healthy reading (Temperature 25) is shown as "Good Condition"
      whatever the classifier would answer. */
  lemma HealthyReadingIsGood(entry: Entry, text: TextParsers, predict: Snapshot -> int)
    requires Reading(entry, 25.0)
    ensures RunOnce(Received(Response(Some([entry]))), text, predict).Shown?
    ensures RunOnce(Received(Response(Some([entry]))), text, predict).verdict == GoodCondition
  {
    ReadingParses(entry, 25.0, text);
  }

  /** A Temperature on the maximum, 40, is still safe. */
  lemma MaximumTemperatureIsGood(entry: Entry, text: TextParsers, predict: Snapshot -> int)
    requires Reading(entry, 40.0)
    ensures RunOnce(Received(Response(Some([entry]))), text, predict) ==
      Shown(FetchData(Received(Response(Some([entry]))), text).snapshot, GoodCondition,
        "\U{1F7E2} Good Condition", false)
  {
    ReadingParses(entry, 40.0, text);
  }

  /** A Temperature of 60 leaves its range, so the classifier decides. */
  lemma HotReadingAsksClassifier(entry: Entry, text: TextParsers, predict: Snapshot -> int)
    requires Reading(entry, 60.0)
    ensures RunOnce(Received(Response(Some([entry]))), text, predict).Shown?
    ensures var c := RunOnce(Received(Response(Some([entry]))), text, predict);
      c.verdict == MaintenanceRequired <==> predict(c.snapshot) == 1
  {
  }

  /** An empty `feeds` list shows the "unable to fetch" message. */
  lemma EmptyFeedsUnavailable(text: TextParsers, predict: Snapshot -> int)
    ensures RunOnce(Received(Response(Some([]))), text, predict) == Unavailable
    ensures RunOnce(Received(Response(None)), text, predict) == Unavailable
    ensures RunOnce(RequestFailed, text, predict) == Unavailable
  {
  }
}
