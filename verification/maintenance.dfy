/** The maintenance verdict: the static table of safe operating ranges and
    the rule that consults the classifier only when a reading leaves it. */
module Maintenance {
  import opened PyValues

  /** A sensor reading as the dashboard holds it: a dictionary from sensor
      name to number. */
  type Snapshot = map<string, Number>

  /** One entry of the safe-range table: a sensor name and its inclusive
      bounds. */
  datatype Range = Range(sensor: string, lo: int, hi: int)

  /** The table of safe ranges, in the order its entries are written (the
      order in which a Python dictionary is iterated). */
  const SafeRanges: seq<Range> := [
    Range("Temperature", 20, 40),
    Range("Humidity", 30, 80),
    Range("Hall Effect", 0, 1),
    Range("Sound", 20, 200),
    Range("Current", 0, 500),
    Range("Gas", 0, 500),
    Range("Flame", 0, 1),
    Range("Relay Status", 0, 1)
  ]

  /** The two verdicts the dashboard can show. */
  datatype Verdict = GoodCondition | MaintenanceRequired

  /** The exact text shown for a verdict. The page draws it in red exactly
      when it contains the red circle, which is exactly for "Maintenance
      Required". */
  function Message(v: Verdict): (s: string)
    ensures s == "\U{1F7E2} Good Condition" || s == "\U{1F534} Maintenance Required"
    ensures v == GoodCondition <==> s == "\U{1F7E2} Good Condition"
    ensures '\U{1F534}' in s <==> v == MaintenanceRequired
  {
    match v
    case GoodCondition => "\U{1F7E2} Good Condition"
    case MaintenanceRequired => "\U{1F534} Maintenance Required"
  }

  /** `lo <= value <= hi`, both ends included. */
  predicate InRange(n: Number, r: Range)
    ensures n.IntNum? ==> (InRange(n, r) <==> r.lo <= n.i <= r.hi)
    ensures InRange(n, r) ==> r.lo <= r.hi
  {
    r.lo as real <= Value(n) <= r.hi as real
  }

  /** The sensor of `r` is present in `data` and its value is within bounds. */
  predicate Safe(data: Snapshot, r: Range)
  {
    r.sensor in data && InRange(data[r.sensor], r)
  }

  /** Every sensor of the table is present in `data`. */
  predicate Complete(data: Snapshot)
  {
    forall k :: 0 <= k < |SafeRanges| ==> SafeRanges[k].sensor in data
  }

  /** Every sensor of the table is present in `data` and within bounds. */
  predicate AllSafe(data: Snapshot)
  {
    forall k :: 0 <= k < |SafeRanges| ==> Safe(data, SafeRanges[k])
  }

  /** The generator `all(lo <= data[key] <= hi for key in table)`: it visits
      the entries in order and stops at the first one that fails, either with
      `False` or with a KeyError naming a sensor missing from `data`. */
  function CheckRanges(data: Snapshot, ranges: seq<Range>): (res: Result<bool, string>)
    ensures res == Ok(true) <==> forall k :: 0 <= k < |ranges| ==> Safe(data, ranges[k])
    ensures res == Ok(false) <==>
      exists k :: 0 <= k < |ranges| && ranges[k].sensor in data && !InRange(data[ranges[k].sensor], ranges[k])
        && forall j :: 0 <= j < k ==> Safe(data, ranges[j])
    ensures res.Err? ==>
      exists k :: 0 <= k < |ranges| && ranges[k].sensor == res.error && res.error !in data
        && forall j :: 0 <= j < k ==> Safe(data, ranges[j])
  {
    if ranges == [] then Ok(true)
    else
      var r := ranges[0];
      if r.sensor !in data then Err(r.sensor)
      else if !InRange(data[r.sensor], r) then Ok(false)
      else
        var rest := CheckRanges(data, ranges[1..]);
        assert forall k :: 1 <= k < |ranges| ==> ranges[k] == ranges[1..][k - 1];
        rest
  }

  /** `predict_maintenance(data, model)`: the verdict is "Good Condition" when
      every reading is within its safe range; otherwise it is what the
      classifier says, where 1 means "Maintenance Required". A sensor missing
      from `data` before any reading fails raises a KeyError, modelled as
      `Err` with the missing name. */
  function PredictMaintenance(data: Snapshot, predict: Snapshot -> int): (r: Result<Verdict, string>)
    ensures AllSafe(data) ==> r == Ok(GoodCondition)
    ensures Complete(data) && !AllSafe(data) ==>
      r == Ok(if predict(data) == 1 then MaintenanceRequired else GoodCondition)
    ensures Complete(data) ==> r.Ok?
    ensures r.Ok? <==> (AllSafe(data) ||
      (exists k :: 0 <= k < |SafeRanges| && SafeRanges[k].sensor in data
        && !InRange(data[SafeRanges[k].sensor], SafeRanges[k]) && forall j :: 0 <= j < k ==> Safe(data, SafeRanges[j])))
    ensures r.Ok? && !AllSafe(data) ==>
      r == Ok(if predict(data) == 1 then MaintenanceRequired else GoodCondition)
    ensures r.Err? ==> (r.error !in data &&
      exists k :: 0 <= k < |SafeRanges| && SafeRanges[k].sensor == r.error
        && forall j :: 0 <= j < k ==> Safe(data, SafeRanges[j]))
  {
    match CheckRanges(data, SafeRanges)
    case Err(key) => Err(key)
    case Ok(safe) =>
      if safe then Ok(GoodCondition)
      else
        var prediction := predict(data);
        Ok(if prediction == 1 then MaintenanceRequired else GoodCondition)
  }

  /** Every entry of the table is a proper interval and names a distinct
      sensor. */
  lemma SafeRangesWellFormed()
    ensures |SafeRanges| == 8
    ensures forall k :: 0 <= k < |SafeRanges| ==> SafeRanges[k].lo <= SafeRanges[k].hi
    ensures forall j, k :: 0 <= j < k < |SafeRanges| ==> SafeRanges[j].sensor != SafeRanges[k].sensor
  {
  }

  /** When every reading is within bounds the verdict is "Good Condition"
      whatever the classifier would answer: it is not consulted. */
  lemma ClassifierNotConsultedWhenSafe(data: Snapshot, p: Snapshot -> int, q: Snapshot -> int)
    requires AllSafe(data)
    ensures PredictMaintenance(data, p) == PredictMaintenance(data, q) == Ok(GoodCondition)
  {
  }

  /** The bounds are inclusive: readings that sit exactly on a minimum or on a
      maximum are safe. */
  lemma BoundsInclusive(data: Snapshot, predict: Snapshot -> int)
    requires forall k :: 0 <= k < |SafeRanges| ==>
      (SafeRanges[k].sensor in data &&
       (Value(data[SafeRanges[k].sensor]) == SafeRanges[k].lo as real ||
        Value(data[SafeRanges[k].sensor]) == SafeRanges[k].hi as real))
    ensures PredictMaintenance(data, predict) == Ok(GoodCondition)
  {
  }

  /** With every sensor present and one reading out of range, the verdict is
      "Maintenance Required" exactly when the classifier answers 1. */
  lemma ClassifierDecidesWhenUnsafe(data: Snapshot, predict: Snapshot -> int, k: nat)
    requires Complete(data)
    requires k < |SafeRanges| && !InRange(data[SafeRanges[k].sensor], SafeRanges[k])
    ensures PredictMaintenance(data, predict) == Ok(MaintenanceRequired) <==> predict(data) == 1
    ensures PredictMaintenance(data, predict) == Ok(GoodCondition) <==> predict(data) != 1
  {
  }
}
