/** Reading the latest snapshot out of a decoded channel-feed reply: the
    `feeds` shape check, the choice of the first entry, and the dictionary
    that maps `field1`..`field8` to the eight sensor names. */
module Telemetry {
  import opened PyValues
  import opened Maintenance

  /** One entry of the `feeds` list: a JSON object. */
  type Entry = map<string, Json>

  /** The decoded reply body. `feeds` is `None` when the key is missing or
      holds JSON null: the first is caught by the membership test, the second
      by the falsiness test, and both give "no data". */
  datatype Response = Response(feeds: Option<seq<Entry>>)

  /** The outcome of the HTTP request: a `RequestException`, or a decoded
      body. */
  datatype Reply = RequestFailed | Received(body: Response)

  /** Which conversion a field goes through. */
  datatype Cast = AsFloat | AsInt

  /** One line of the snapshot dictionary: the feed key read, the sensor name
      written, and the conversion applied. */
  datatype Column = Column(key: string, sensor: string, cast: Cast)

  /** The snapshot dictionary, line by line, in the order it is written. */
  const Columns: seq<Column> := [
    Column("field1", "Temperature", AsFloat),
    Column("field2", "Humidity", AsFloat),
    Column("field3", "Hall Effect", AsInt),
    Column("field4", "Sound", AsFloat),
    Column("field5", "Current", AsFloat),
    Column("field6", "Gas", AsFloat),
    Column("field7", "Flame", AsInt),
    Column("field8", "Relay Status", AsInt)
  ]

  /** A conversion that raised while the dictionary was being built. */
  datatype ParseError = ParseError(key: string, sensor: string, error: PyError)

  /** What `fetch_data` ends in: `None` (no data), a snapshot, or an
      exception that escapes it (only request errors are caught). */
  datatype Fetched = Absent | Parsed(snapshot: Snapshot) | Raised(error: ParseError)

  /** `entry.get(key, 0)`. */
  function Get(entry: Entry, key: string): (v: Json)
    ensures key in entry ==> v == entry[key]
    ensures key !in entry ==> v == JInt(0)
  {
    if key in entry then entry[key] else JInt(0)
  }

  /** `float(entry.get(key, 0))` or `int(entry.get(key, 0))`, as the column
      says. A missing key converts to zero of the column's type. */
  function ConvertField(entry: Entry, c: Column, text: TextParsers): (r: Result<Number, PyError>)
    ensures r.Ok? ==> (r.value.RealNum? <==> c.cast == AsFloat)
    ensures c.key !in entry ==> r == Ok(if c.cast == AsFloat then RealNum(0.0) else IntNum(0))
    ensures c.cast == AsFloat ==> (r.Ok? <==> ToFloat(Get(entry, c.key), text).Ok?)
    ensures c.cast == AsInt ==> (r.Ok? <==> ToInt(Get(entry, c.key), text).Ok?)
    ensures r.Ok? && c.cast == AsFloat ==> r.value == RealNum(ToFloat(Get(entry, c.key), text).value)
    ensures r.Ok? && c.cast == AsInt ==> r.value == IntNum(ToInt(Get(entry, c.key), text).value)
    ensures r.Err? && c.cast == AsFloat ==> ToFloat(Get(entry, c.key), text) == Err(r.error)
    ensures r.Err? && c.cast == AsInt ==> ToInt(Get(entry, c.key), text) == Err(r.error)
  {
    var v := Get(entry, c.key);
    match c.cast
    case AsFloat =>
      (match ToFloat(v, text)
       case Ok(x) => Ok(RealNum(x))
       case Err(e) => Err(e))
    case AsInt =>
      (match ToInt(v, text)
       case Ok(i) => Ok(IntNum(i))
       case Err(e) => Err(e))
  }

  /** No two columns write the same sensor name. */
  predicate DistinctSensors(cols: seq<Column>)
  {
    forall j, k :: 0 <= j < k < |cols| ==> cols[j].sensor != cols[k].sensor
  }

  /** The sensor names the columns write. */
  function Sensors(cols: seq<Column>): set<string>
  {
    set c | c in cols :: c.sensor
  }

  /** Building the dictionary: the values are converted left to right and
      the first conversion that raises ends the evaluation. */
  function ParseColumns(entry: Entry, cols: seq<Column>, text: TextParsers): (r: Result<Snapshot, ParseError>)
    requires DistinctSensors(cols)
    ensures r.Ok? <==> forall k :: 0 <= k < |cols| ==> ConvertField(entry, cols[k], text).Ok?
    ensures r.Ok? ==> r.value.Keys == Sensors(cols)
    ensures r.Ok? ==> forall k :: 0 <= k < |cols| ==>
      cols[k].sensor in r.value && r.value[cols[k].sensor] == ConvertField(entry, cols[k], text).value
    ensures r.Err? ==>
      (exists k :: 0 <= k < |cols| && ConvertField(entry, cols[k], text).Err?
        && r.error == ParseError(cols[k].key, cols[k].sensor, ConvertField(entry, cols[k], text).error)
        && forall j :: 0 <= j < k ==> ConvertField(entry, cols[j], text).Ok?)
  {
    if cols == [] then Ok(map[])
    else
      var c := cols[0];
      match ConvertField(entry, c, text)
      case Err(e) => Err(ParseError(c.key, c.sensor, e))
      case Ok(v) =>
        var rest := ParseColumns(entry, cols[1..], text);
        TailShift(cols);
        match rest
        case Err(e) =>
          LaterFailureShifts(entry, cols, text, e);
          Err(e)
        case Ok(m) =>
          HeadExtends(entry, cols, text, m);
          Ok(m[c.sensor := v])
  }

  /** Adding the head's sensor to the tail's dictionary gives the dictionary
      of the whole sequence. */
  lemma HeadExtends(entry: Entry, cols: seq<Column>, text: TextParsers, m: Snapshot)
    requires |cols| > 0 && DistinctSensors(cols) && ConvertField(entry, cols[0], text).Ok?
    requires forall k :: 0 <= k < |cols| - 1 ==> ConvertField(entry, cols[1..][k], text).Ok?
    requires m.Keys == Sensors(cols[1..])
    requires forall k :: 0 <= k < |cols| - 1 ==>
      cols[1..][k].sensor in m && m[cols[1..][k].sensor] == ConvertField(entry, cols[1..][k], text).value
    ensures forall k :: 0 <= k < |cols| ==> ConvertField(entry, cols[k], text).Ok?
    ensures m[cols[0].sensor := ConvertField(entry, cols[0], text).value].Keys == Sensors(cols)
    ensures forall k :: 0 <= k < |cols| ==>
      var m' := m[cols[0].sensor := ConvertField(entry, cols[0], text).value];
      cols[k].sensor in m' && m'[cols[k].sensor] == ConvertField(entry, cols[k], text).value
  {
    TailShift(cols);
    var m' := m[cols[0].sensor := ConvertField(entry, cols[0], text).value];
    forall k | 0 <= k < |cols|
      ensures ConvertField(entry, cols[k], text).Ok?
      ensures cols[k].sensor in m' && m'[cols[k].sensor] == ConvertField(entry, cols[k], text).value
    {
      if k > 0 {
        assert cols[k] == cols[1..][k - 1];
        assert cols[k].sensor != cols[0].sensor;
      }
    }
  }

  /** A failure of the tail is the first failure of the whole sequence when
      its head converts. */
  lemma LaterFailureShifts(entry: Entry, cols: seq<Column>, text: TextParsers, e: ParseError)
    requires |cols| > 0 && ConvertField(entry, cols[0], text).Ok?
    requires exists k :: (0 <= k < |cols| - 1 && ConvertField(entry, cols[1..][k], text).Err?
      && e == ParseError(cols[1..][k].key, cols[1..][k].sensor, ConvertField(entry, cols[1..][k], text).error)
      && forall j :: 0 <= j < k ==> ConvertField(entry, cols[1..][j], text).Ok?)
    ensures exists k :: (0 <= k < |cols| && ConvertField(entry, cols[k], text).Err?
      && e == ParseError(cols[k].key, cols[k].sensor, ConvertField(entry, cols[k], text).error)
      && forall j :: 0 <= j < k ==> ConvertField(entry, cols[j], text).Ok?)
  {
    var k :| 0 <= k < |cols| - 1 && ConvertField(entry, cols[1..][k], text).Err?
      && e == ParseError(cols[1..][k].key, cols[1..][k].sensor, ConvertField(entry, cols[1..][k], text).error)
      && forall j :: 0 <= j < k ==> ConvertField(entry, cols[1..][j], text).Ok?;
    assert cols[k + 1] == cols[1..][k];
    forall j | 0 <= j < k + 1 ensures ConvertField(entry, cols[j], text).Ok? {
      if j > 0 {
        assert cols[j] == cols[1..][j - 1];
      }
    }
  }

  /** The facts about `cols[1..]` that carry over to `cols`. */
  lemma TailShift(cols: seq<Column>)
    requires |cols| > 0 && DistinctSensors(cols)
    ensures DistinctSensors(cols[1..])
    ensures forall k :: 1 <= k < |cols| ==> cols[k] == cols[1..][k - 1]
    ensures Sensors(cols) == {cols[0].sensor} + Sensors(cols[1..])
    ensures cols[0].sensor !in Sensors(cols[1..])
  {
  }

  /** `fetch_data()` after the request: no data when the request failed or
      `feeds` is missing or empty, otherwise the snapshot built from
      `feeds[0]` alone, or the exception a conversion raised. */
  function FetchData(reply: Reply, text: TextParsers): (r: Fetched)
    ensures r.Absent? <==>
      (reply.RequestFailed? || reply.body.feeds.None? || |reply.body.feeds.value| == 0)
    ensures r.Parsed? ==> r.snapshot.Keys == Sensors(Columns)
    ensures r.Raised? ==> reply.Received? && r.error.key in reply.body.feeds.value[0]
  {
    match reply
    case RequestFailed => Absent
    case Received(body) =>
      match body.feeds
      case None => Absent
      case Some(feeds) =>
        if |feeds| == 0 then Absent
        else
          var entry := feeds[0];
          match ParseColumns(entry, Columns, text)
          case Ok(s) => Parsed(s)
          case Err(e) => Raised(e)
  }

  /** The columns read `field1`..`field8` in order, write the sensor names of
      the safe-range table in its order, and cast with `int()` exactly the
      three binary sensors. */
  lemma ColumnsMatchTable()
    ensures |Columns| == |SafeRanges| == 8
    ensures DistinctSensors(Columns)
    ensures forall k :: 0 <= k < 8 ==> Columns[k].key == "field" + [(('1' as int) + k) as char]
    ensures forall k :: 0 <= k < 8 ==> Columns[k].sensor == SafeRanges[k].sensor
    ensures forall k :: 0 <= k < 8 ==>
      (Columns[k].cast == AsInt <==> Columns[k].sensor in {"Hall Effect", "Flame", "Relay Status"})
  {
  }

  /** A parsed snapshot holds exactly the sensors of the safe-range table, so
      the verdict never raises a KeyError on it. */
  lemma ParsedSnapshotIsComplete(reply: Reply, text: TextParsers)
    ensures FetchData(reply, text).Parsed? ==>
      FetchData(reply, text).snapshot.Keys == set r | r in SafeRanges :: r.sensor
    ensures FetchData(reply, text).Parsed? ==> Complete(FetchData(reply, text).snapshot)
  {
    if !FetchData(reply, text).Parsed? {
      return;
    }
    ColumnsMatchTable();
    var s := FetchData(reply, text).snapshot;
    assert Sensors(Columns) == set r | r in SafeRanges :: r.sensor by {
      forall x | x in Sensors(Columns) ensures x in set r | r in SafeRanges :: r.sensor {
        var c :| c in Columns && c.sensor == x;
        var k :| 0 <= k < 8 && Columns[k] == c;
        assert SafeRanges[k] in SafeRanges;
      }
      forall x | x in set r | r in SafeRanges :: r.sensor ensures x in Sensors(Columns) {
        var r :| r in SafeRanges && r.sensor == x;
        var k :| 0 <= k < 8 && SafeRanges[k] == r;
        assert Columns[k] in Columns;
      }
    }
    forall k | 0 <= k < |SafeRanges| ensures SafeRanges[k].sensor in s {
      assert SafeRanges[k] in SafeRanges;
    }
  }

  /** Only the first entry of `feeds` is read: two replies whose first
      entries agree give the same outcome, whatever follows them. */
  lemma OnlyFirstFeedMatters(a: seq<Entry>, b: seq<Entry>, text: TextParsers)
    requires |a| > 0 && |b| > 0 && a[0] == b[0]
    ensures FetchData(Received(Response(Some(a))), text) == FetchData(Received(Response(Some(b))), text)
  {
  }

  /** Each sensor holds the conversion of its own feed key: `field1` to
      Temperature, ..., `field8` to Relay Status, as a float or an int. */
  lemma FieldMapping(entry: Entry, text: TextParsers)
    ensures FetchData(Received(Response(Some([entry]))), text).Parsed? ==>
      var s := FetchData(Received(Response(Some([entry]))), text).snapshot;
      && "Temperature" in s && ToFloat(Get(entry, "field1"), text).Ok? && s["Temperature"] == RealNum(ToFloat(Get(entry, "field1"), text).value)
      && "Humidity" in s && ToFloat(Get(entry, "field2"), text).Ok? && s["Humidity"] == RealNum(ToFloat(Get(entry, "field2"), text).value)
      && "Hall Effect" in s && ToInt(Get(entry, "field3"), text).Ok? && s["Hall Effect"] == IntNum(ToInt(Get(entry, "field3"), text).value)
      && "Sound" in s && ToFloat(Get(entry, "field4"), text).Ok? && s["Sound"] == RealNum(ToFloat(Get(entry, "field4"), text).value)
      && "Current" in s && ToFloat(Get(entry, "field5"), text).Ok? && s["Current"] == RealNum(ToFloat(Get(entry, "field5"), text).value)
      && "Gas" in s && ToFloat(Get(entry, "field6"), text).Ok? && s["Gas"] == RealNum(ToFloat(Get(entry, "field6"), text).value)
      && "Flame" in s && ToInt(Get(entry, "field7"), text).Ok? && s["Flame"] == IntNum(ToInt(Get(entry, "field7"), text).value)
      && "Relay Status" in s && ToInt(Get(entry, "field8"), text).Ok? && s["Relay Status"] == IntNum(ToInt(Get(entry, "field8"), text).value)
  {
    if !FetchData(Received(Response(Some([entry]))), text).Parsed? {
      return;
    }
    ColumnValue(entry, text, 0);
    ColumnValue(entry, text, 1);
    ColumnValue(entry, text, 2);
    ColumnValue(entry, text, 3);
    ColumnValue(entry, text, 4);
    ColumnValue(entry, text, 5);
    ColumnValue(entry, text, 6);
    ColumnValue(entry, text, 7);
    assert Columns[0] == Column("field1", "Temperature", AsFloat);
    assert Columns[1] == Column("field2", "Humidity", AsFloat);
    assert Columns[2] == Column("field3", "Hall Effect", AsInt);
    assert Columns[3] == Column("field4", "Sound", AsFloat);
    assert Columns[4] == Column("field5", "Current", AsFloat);
    assert Columns[5] == Column("field6", "Gas", AsFloat);
    assert Columns[6] == Column("field7", "Flame", AsInt);
    assert Columns[7] == Column("field8", "Relay Status", AsInt);
  }

  /** Column `k` of a parsed snapshot holds the conversion of its own key. */
  lemma ColumnValue(entry: Entry, text: TextParsers, k: nat)
    requires k < |Columns|
    ensures FetchData(Received(Response(Some([entry]))), text).Parsed? ==>
      var s := FetchData(Received(Response(Some([entry]))), text).snapshot;
      && Columns[k].sensor in s
      && (Columns[k].cast == AsFloat ==>
           ToFloat(Get(entry, Columns[k].key), text).Ok?
           && s[Columns[k].sensor] == RealNum(ToFloat(Get(entry, Columns[k].key), text).value))
      && (Columns[k].cast == AsInt ==>
           ToInt(Get(entry, Columns[k].key), text).Ok?
           && s[Columns[k].sensor] == IntNum(ToInt(Get(entry, Columns[k].key), text).value))
  {
    ColumnsMatchTable();
  }

  /** A key missing from the entry is read as 0 and converted to zero of
      the column's type, whatever the other keys hold. */
  lemma MissingKeyDefaultsToZero(entry: Entry, text: TextParsers, k: nat)
    requires k < |Columns| && Columns[k].key !in entry
    ensures FetchData(Received(Response(Some([entry]))), text).Parsed? ==>
      var s := FetchData(Received(Response(Some([entry]))), text).snapshot;
      && Columns[k].sensor in s
      && s[Columns[k].sensor] == if Columns[k].cast == AsFloat then RealNum(0.0) else IntNum(0)
  {
  }

  /** Missing keys never make the parse fail: an entry holding none of the
      eight keys yields a snapshot of zeros, whatever the text parsers. */
  lemma EmptyEntryParsesToZeros(text: TextParsers)
    ensures FetchData(Received(Response(Some([map[]]))), text).Parsed?
    ensures var s := FetchData(Received(Response(Some([map[]]))), text).snapshot;
      forall k :: 0 <= k < |Columns| ==>
        (Columns[k].sensor in s && Value(s[Columns[k].sensor]) == 0.0)
  {
  }

  /** A key that is present but holds JSON null is not defaulted: `.get`
      returns `None`, and `float(None)` or `int(None)` raises a TypeError
      that escapes, unless an earlier column has already failed. */
  lemma NullFieldRaises(entry: Entry, text: TextParsers, k: nat)
    requires k < |Columns| && Columns[k].key in entry && entry[Columns[k].key] == JNull
    requires forall j :: 0 <= j < k ==> ConvertField(entry, Columns[j], text).Ok?
    ensures FetchData(Received(Response(Some([entry]))), text)
      == Raised(ParseError(Columns[k].key, Columns[k].sensor, TypeError))
  {
    FirstFailureIsReported(entry, text, k);
  }

  /** A conversion failure is an error outcome, never "no data"; it is the
      failure of the first column, in dictionary order, whose conversion
      fails. */
  lemma FirstFailureIsReported(entry: Entry, text: TextParsers, k: nat)
    requires k < |Columns|
    requires ConvertField(entry, Columns[k], text).Err?
    requires forall j :: 0 <= j < k ==> ConvertField(entry, Columns[j], text).Ok?
    ensures FetchData(Received(Response(Some([entry]))), text)
      == Raised(ParseError(Columns[k].key, Columns[k].sensor, ConvertField(entry, Columns[k], text).error))
  {
  }
}
