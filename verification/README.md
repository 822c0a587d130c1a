# IoT predictive maintenance: the decision core, in Dafny

This project models the decision logic of a small Streamlit dashboard. The
dashboard reads the latest reading of an eight-sensor channel from a
ThingSpeak feed and shows a maintenance verdict for it. Two pieces of the
app carry that logic:

- **Snapshot parsing** (`fetch_data`). The decoded reply gives "no data" when
  the request failed, or when `feeds` is missing or empty. Otherwise only
  `feeds[0]` is read. Its keys `field1`..`field8` become Temperature,
  Humidity, Hall Effect, Sound, Current, Gas, Flame and Relay Status, in that
  order. A missing key reads as `0`. Hall Effect, Flame and Relay Status go
  through `int()`; the other five go through `float()`. Only request errors
  are caught, so a value that `float()` or `int()` refuses raises an
  exception out of `fetch_data`. The model keeps that exception as its own
  outcome (`Telemetry.Fetched.Raised`), separate from "no data".
- **The verdict** (`predict_maintenance` with the `SAFE_RANGES` table). The
  table gives inclusive integer bounds for each of the eight sensors. If
  every reading is within its bounds, the verdict is "Good Condition" and the
  classifier is not consulted. Otherwise the classifier decides: `1` means
  "Maintenance Required", and anything else means "Good Condition".

Modules, one per concern:

- `PyValues` (values.dfy): decoded JSON values, snapshot numbers, and
  Python's `float()` and `int()` on them (`int()` of a float truncates
  toward zero). How text is turned into a number is a pair of partial
  functions passed in as `TextParsers`.
- `Maintenance` (maintenance.dfy): the safe-range table, the `all(...)` check
  in the table's order, and the verdict.
- `Telemetry` (telemetry.dfy): the reply shape, the field-to-sensor table,
  and `fetch_data` after the HTTP call.
- `Dashboard` (dashboard.dfy): one pass of the script (fetch, then the
  verdict when there is a snapshot), with end-to-end scenarios.

The snapshot is a map from sensor name to number, like the Python dict. That
makes "the parsed snapshot has exactly the table's keys" something to prove.
`predict_maintenance` indexes the snapshot by every table key it reaches, so
a snapshot that lacks one raises a KeyError. The model returns that as
`Err(name)` instead of requiring the key.

The classifier is a parameter `predict: Snapshot -> int`. A verdict that does
not depend on `predict` is how the model says "the classifier is not
consulted".

## Model

| member | source | states |
|---|---|---|
| `PyValues.Value` | app.py:65 | a number compares with an integer bound by its exact value: an `int` as itself (its floor is itself), a `float` as itself |
| `PyValues.ToFloat` | app.py:46-55 | `float()` of a decoded value: ints, floats and booleans convert; text converts exactly when the text parser accepts it, to the parser's value, otherwise ValueError; null, arrays and objects raise TypeError |
| `PyValues.Truncate` | app.py:49 | `int()` of a float truncates toward zero: the result is within 1 of the input, on the same side of zero, and never larger in magnitude |
| `PyValues.ToInt` | app.py:46-55 | `int()` of a decoded value: ints unchanged, floats truncated toward zero (`Truncate`), booleans 0/1, text to the text parser's value or ValueError, null/arrays/objects TypeError |
| `Maintenance.Message` | app.py:67-74 | the verdict text is one of exactly two strings; "Good Condition" is returned exactly for the good verdict, and the text contains the red circle exactly for "Maintenance Required" |
| `Maintenance.InRange` | app.py:65 | the chained `lo <= value <= hi` includes both ends; for an `int` reading it is the integer comparison; it never holds for an empty range |
| `Maintenance.CheckRanges` | app.py:65 | the `all(...)` check yields True exactly when every entry is present and within bounds; False exactly when the first failing entry is present but out of range; a KeyError only for a missing sensor reached before any failing entry |
| `Maintenance.PredictMaintenance` | app.py:63-74 | all readings safe gives "Good Condition"; whenever a verdict is returned and some reading is unsafe, it is "Maintenance Required" exactly when the classifier returns 1; a verdict is returned exactly when the check reaches an out-of-range reading or passes every entry, and always for a complete snapshot; a KeyError names the first table sensor reached that is missing, every entry before it being safe |
| `Maintenance.SafeRangesWellFormed` | app.py:21-30 | the table has eight entries, each with min <= max, naming distinct sensors |
| `Maintenance.ClassifierNotConsultedWhenSafe` | app.py:65-68 | when every reading is safe, the verdict is "Good Condition" and is the same for any two classifiers |
| `Maintenance.BoundsInclusive` | app.py:65 | readings lying exactly on a minimum or on a maximum are safe, so the verdict is "Good Condition" |
| `Maintenance.ClassifierDecidesWhenUnsafe` | app.py:70-74 | with every sensor present and some reading out of range, "Maintenance Required" holds iff the classifier returns 1, and "Good Condition" holds iff it does not |
| `Telemetry.Get` | app.py:47-54 | `feeds.get(key, 0)`: the entry's value when the key is present, the integer 0 when it is missing |
| `Telemetry.ConvertField` | app.py:46-55 | a field converts to a float for a float column and to an int for an int column, with the value `float()` or `int()` gives; a missing key converts to zero of the column's type; a failure carries exactly the exception `float()` or `int()` raises (TypeError for null, ValueError for refused text) |
| `Telemetry.ParseColumns` | app.py:46-55 | the dictionary is built iff every field converts; it then holds exactly the column sensors, each mapped to its own field's conversion; otherwise the error is that of the first column, in order, whose conversion fails |
| `Telemetry.FetchData` | app.py:34-59 | "no data" exactly when the request failed or `feeds` is missing or empty; a parsed snapshot has exactly the column sensors; a raised error names a key present in `feeds[0]` |
| `Telemetry.ColumnsMatchTable` | app.py:46-55 | the columns read `field1`..`field8` in order, write the table's sensors in the table's order, and use `int()` exactly for Hall Effect, Flame and Relay Status |
| `Telemetry.ParsedSnapshotIsComplete` | app.py:46-55 | a parsed snapshot's keys are exactly the safe-range table's sensors, so the verdict's lookups never miss |
| `Telemetry.OnlyFirstFeedMatters` | app.py:44 | replies whose first feed entries agree give the same outcome, whatever entries follow |
| `Telemetry.FieldMapping` | app.py:46-55 | each sensor holds the `float()` or `int()` of its own key, `field1` for Temperature through `field8` for Relay Status |
| `Telemetry.MissingKeyDefaultsToZero` | app.py:46-55 | a key missing from the entry gives zero of its column's type, whatever the other keys hold |
| `Telemetry.EmptyEntryParsesToZeros` | app.py:46-55 | an entry with none of the eight keys still parses, whatever the text parsers, and every sensor is zero |
| `Telemetry.NullFieldRaises` | app.py:46-55 | a key that is present but holds JSON null is not defaulted: when every earlier field converts, the parse raises TypeError at that field, for any of the eight columns |
| `Telemetry.FirstFailureIsReported` | app.py:46-59 | a conversion failure is raised, never turned into "no data", and it is the failure of the first failing column in dictionary order |
| `Dashboard.RunOnce` | app.py:86-111 | one pass shows the "unable to fetch" message exactly when there is no data, crashes exactly when the parse raised, and otherwise shows the parsed snapshot with a verdict that obeys the threshold-then-classifier rule, its text, and a red heading exactly for "Maintenance Required" |
| `Dashboard.ReadingParses` | app.py:46-55 | an entry holding the scenario's field values parses to a complete snapshot with the given Temperature, which is safe exactly when the Temperature is within 20..40 |
| `Dashboard.HealthyReadingIsGood` | app.py:63-68 | a reading with every value in range (Temperature 25) is shown as "Good Condition" for any classifier |
| `Dashboard.MaximumTemperatureIsGood` | app.py:22 | a Temperature of exactly 40, the table's maximum, still gives "Good Condition" |
| `Dashboard.HotReadingAsksClassifier` | app.py:70-74 | a Temperature of 60 is out of range, so the verdict is "Maintenance Required" exactly when the classifier returns 1 |
| `Dashboard.EmptyFeedsUnavailable` | app.py:40-42 | an empty `feeds` list, a missing `feeds` key or a failed request shows the "unable to fetch" message |

## Left out

- The HTTP request, `raise_for_status` and JSON decoding (app.py:36-38) are I/O. The model starts from their outcome: a request error, or a decoded body.
- The `st.warning` and `st.error` side effects (app.py:41, app.py:58) are presentation. The page layout, sidebar, chart and HTML markup (app.py:77-105) are presentation too; only the choice of red or green for the verdict heading (app.py:104) is modelled.
- Loading the classifier with `joblib` (app.py:16-17), and the `DataFrame` and `model.predict` internals (app.py:71-72), are foreign library calls. The model uses an abstract `predict` parameter instead.
- The 15-second sleep and the re-run of the script (app.py:107-109) are a timing loop driven by the UI framework. The model covers one pass. The re-run sits inside `if sensor_data:`, so it follows only a shown verdict: with no data (app.py:110-111), or when a conversion raises, the script ends without re-running.
- The channel id, API key and URL (app.py:10-12) are configuration only.
- train.py is not part of this model. It generates random data and trains a scikit-learn classifier.
- Floating point: a Python float is modelled as an exact `real`. `float()` of a very large integer (rounding, overflow) is not modelled. Non-finite floats are not modelled: neither text that names one (`"nan"`, `"inf"`), nor the JSON number literals `NaN`, `Infinity` and `-Infinity` that Python's `json` accepts, nor a literal such as `1e400` that decodes to infinity. A `real` cannot hold these values, so the ValueError or OverflowError that `int()` raises on them is not modelled either.
- Python's grammar for numbers written as text is not modelled. `PyValues.ToFloat` and `PyValues.ToInt` read text through the parameters `TextParsers.toReal` and `TextParsers.toInt`: each is a partial function that either accepts the text with a value or refuses it with ValueError.
- A `feeds` value that is neither a list nor null, and a decoded body or feed entry that is not a JSON object, are not modelled. A missing `feeds` key is caught by the `"feeds" not in data` test; `feeds: null`, like an empty list, is caught by the `not data["feeds"]` falsiness test (app.py:40). The model gives both the missing key and null as `None`, since both end in "no data".
- app.py has a single aggregate rule (app.py:63-74). There is no per-sensor mode, no second table and no verdict naming a sensor.
- `fetch_data` catches only `requests.exceptions.RequestException` (app.py:57). A ValueError or TypeError from `float()` or `int()` escapes it, and the model keeps that as `Raised`.
