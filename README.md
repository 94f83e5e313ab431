# Campus energy dashboard and monitor: a Dafny model

This project models the logic at the core of a campus energy dashboard, a
React front end, and of its Python monitoring script, and proves properties
of that model.

- **CSV upload** (`CsvUpload`). A selected file must end in `.csv`. The
  parser's outcome is then checked in a fixed order: parser errors, empty
  data, required headers, rows. Header validation trims and lower-cases the
  headers. Each row's five required fields are looked up through the
  exact/lower-case/upper-case fallbacks. The first incomplete row aborts the
  whole load with a `Row N: missing required fields: ...` message. The four
  numeric fields go through `Number`. The component state (`file`,
  `parsedData`, `error`, `isLoading`) and the calls to the parent's
  `onDataLoaded` are fields of the class `Uploader`.
- **Filter panel** (`FilterPanel`). The date-range handler replaces one bound
  of the range. The department and system handlers toggle an id in a list:
  they remove every occurrence of it, or append it.
- **Alert panel** (`AlertPanel`). It shows the alerts not dismissed, grouped
  by type, and the recommendations, grouped by priority. It also covers the
  badge, the empty states and the closed panel.
- **Alert card** (`AlertCard`). The card picks its classes and icon by alert
  type, shows the relative age ("Just now", "Nh ago", "Nd ago") and handles
  the dismiss button.
- **Historical chart** (`HistoricalChart`). The chart keeps the days inside
  the inclusive date range. It builds its datasets by conditional pushes
  chosen by the selected systems. Its labels and the total-energy sum are
  also modelled.
- **Energy monitor** (`EnergyMonitor`). This is the Python script's rule
  logic:
  - the threshold alerts;
  - the choice of the best model by R2 score, in the class `ModelComparator`;
  - the non-negative prediction clamp;
  - the cost projection;
  - appliance registration, in the class `IoTEnergyMonitor`.

`Seqs` (order-preserving filter, subsequences), `Text` (ASCII case mapping,
JavaScript `trim` with its full white-space set, `join`, decimal digits) and `Dates` (dates as milliseconds,
`Math.floor` of hours) are shared helpers.

Where the component updates state step by step, the model is imperative:
- `Uploader` is a class whose methods assign its fields;
- the row normalisation is a loop with an early exit;
- `BuildDatasets` does the four guarded pushes;
- `CheckThresholds`, `TrainAndCompare` and `RegisterAppliances` are the
  Python loops.

Each of these methods is proved against a function of its inputs. The
properties are proved about those functions.

A header spelled `Timestamp` passes header validation, which lower-cases the
headers (`CSVUpload.jsx:15`). The row lookup, however, tries only
`timestamp` and `TIMESTAMP` (`CSVUpload.jsx:83`), so such a file is rejected
on its first row. `CsvUpload.MixedCaseHeaderRejected` proves this.

One behaviour of `train_and_compare_models` is modelled as written. It
resets `best_score` at the start of every run, but not `best_model`. A run in
which every model fails therefore keeps the best model of an earlier run. The
contract of `EnergyMonitor.ModelComparator.TrainAndCompare` states this.

## Model

| member | source | states |
|---|---|---|
| CsvUpload.ValidateHeadersSpec | CSVUpload.jsx:14-27 | the headers are valid exactly when every required name occurs among the trimmed, lower-cased headers; otherwise the message is `Missing required headers: ` followed by the missing names joined by `, ` |
| CsvUpload.MissingHeadersExact | CSVUpload.jsx:14-18 | the missing list holds exactly the required fields absent from the normalised headers, in required-header order (a subsequence of the schema); it is empty exactly when all are present |
| CsvUpload.ExtraHeadersIgnored | CSVUpload.jsx:14-18 | appending headers that normalise to no required name changes neither the missing list nor the validation result |
| CsvUpload.HeaderOrderIrrelevant | CSVUpload.jsx:15-18 | two header lists with the same set of normalised names validate identically, whatever their order, casing, padding or repetitions |
| CsvUpload.MixedCaseHeadersValid | CSVUpload.jsx:14-27 | a header list spelled `Timestamp, temperature, humidity, current, predicted_energy` passes validation |
| CsvUpload.MixedCaseNormalized | CSVUpload.jsx:15 | trimming and lower-casing those headers gives the five required names in order |
| CsvUpload.NormalizedHeadersIdempotent | CSVUpload.jsx:15 | every normalised header has no upper-case letter and no white space at either end, so normalising again changes nothing |
| CsvUpload.EmptyStringStopsLookup | CSVUpload.jsx:83-88 | an empty string under the exact name is taken as the value (the fallbacks are not consulted), so the field is missing and the row incomplete |
| CsvUpload.UpperCaseColumnFound | CSVUpload.jsx:83 | with no column of the exact name, a non-nullish value under the upper-case name is found |
| CsvUpload.MissingIn | CSVUpload.jsx:88 | the missing list of a built object holds exactly its null, undefined or empty fields, in schema order, and is empty exactly when all five are present |
| CsvUpload.MissingFields | CSVUpload.jsx:82-88 | a row's missing list holds exactly the schema fields whose fallback lookup is null, undefined or empty, in schema order, and is empty exactly when the row is complete |
| CsvUpload.OnlyTimestampMissing | CSVUpload.jsx:88 | an object in which only the timestamp is missing has missing list `[timestamp]` |
| CsvUpload.OnlyTimestampMissingIn | CSVUpload.jsx:82-88 | a row with no `timestamp` or `TIMESTAMP` column whose other fields are present misses exactly the timestamp |
| CsvUpload.ToNumber | CSVUpload.jsx:94 | `Number` always yields a number or NaN and leaves a number unchanged |
| CsvUpload.NumberOfDigits | CSVUpload.jsx:94 | `Number` reads a non-empty string of decimal digits as its value |
| CsvUpload.NumberOfRendering | CSVUpload.jsx:94 | `Number` reads back the decimal rendering of any whole number |
| CsvUpload.NonNumericKeptAsNaN | CSVUpload.jsx:94-98 | a non-numeric text such as `n/a` in a numeric column becomes NaN; it is not rejected |
| CsvUpload.NormalizeComplete | CSVUpload.jsx:93-100 | a complete row yields a well-formed record: the timestamp as found, the four numeric fields as `Number` reads them |
| CsvUpload.FirstIncompleteFails | CSVUpload.jsx:80-91 | the first incomplete row, when there is one, is indeed incomplete |
| CsvUpload.BeforeFirstIncomplete | CSVUpload.jsx:80-91 | every row before the first incomplete one is complete |
| CsvUpload.NormalizeRows | CSVUpload.jsx:80-106 | the row loop with early exit returns the message of the first incomplete row, or all rows normalised in order |
| CsvUpload.NormalizeAllWellFormed | CSVUpload.jsx:80-101 | every record of a successful normalisation is well formed |
| CsvUpload.CheckOrder | CSVUpload.jsx:58-106 | each rejection stage happens exactly when the earlier checks pass and its own fails, in the order parser errors (`CSV parsing error: ` and the first error), empty data (`CSV file is empty`), headers (`Missing required headers: ` and the missing names joined by `, `), rows; the load succeeds exactly when all checks pass and every row is complete |
| CsvUpload.LoadedRecords | CSVUpload.jsx:80-101 | a successful load keeps every row, in order, as a well-formed record with the timestamp unchanged and the numeric fields as `Number` made them |
| CsvUpload.RowFailure | CSVUpload.jsx:80-91 | a load stopped by a row names the first incomplete row as `Row <index+2>` with its missing fields in schema order; every earlier row was complete |
| CsvUpload.RowStageMessage | CSVUpload.jsx:88-106 | a rejection at the row stage carries the message of the first incomplete row |
| CsvUpload.FailingRow | CSVUpload.jsx:80-91 | the rows before the first incomplete one are complete and the incomplete one has a non-empty missing list in schema order |
| CsvUpload.FirstRowTimestampMessage | CSVUpload.jsx:90 | the message for a first data row missing only its timestamp is `Row 2: missing required fields: timestamp` |
| CsvUpload.MixedCaseHeaderRejected | CSVUpload.jsx:14-91 | a file headed `Timestamp` passes the header check but is rejected at the row stage with `Row 2: missing required fields: timestamp` |
| CsvUpload.Check | CSVUpload.jsx:55-109 | the checks of the `complete` callback, made in source order, give the outcome `Ingest` describes; a load yields only well-formed records |
| CsvUpload.Uploader.constructor | CSVUpload.jsx:6-9 | the component starts with no file, no data, no error, not loading, and nothing handed to the parent |
| CsvUpload.Uploader.SelectFile | CSVUpload.jsx:30-49 | no file clears file, data and error; a name not ending in `.csv` sets `Please select a CSV file`, clears `file` and keeps `parsedData`; a `.csv` file is stored, the error cleared, loading set, and parsing starts exactly then |
| CsvUpload.Uploader.OnParseComplete | CSVUpload.jsx:55-115 | loading stops; a success stores the records, clears the error and hands the same records to the parent when it listens; a rejection sets its message and clears `parsedData` only at the row stage |
| CsvUpload.Uploader.OnParseError | CSVUpload.jsx:116-119 | loading stops and the error is `Failed to parse CSV: <message>`; nothing else changes |
| CsvUpload.Uploader.Clear | CSVUpload.jsx:123-135 | file, data and error become null and the parent, when it listens, receives null |
| FilterPanel.SetBound | FilterPanel.jsx:12-15 | the spread update sets the chosen bound and keeps the other |
| FilterPanel.HandleDateChange | FilterPanel.jsx:10-16 | the date handler's patch replaces only `dateRange[field]` and keeps the other bound |
| FilterPanel.SetBoundTwice | FilterPanel.jsx:10-16 | writing a bound twice keeps only the second value |
| FilterPanel.SetBoundsCommute | FilterPanel.jsx:10-16 | changing the two different bounds in either order gives the same range |
| FilterPanel.SetBoundSame | FilterPanel.jsx:10-16 | writing back a bound's current value leaves the range unchanged |
| FilterPanel.HandleDepartmentChange | FilterPanel.jsx:19-27 | the department patch flips the membership of the clicked id and of no other id |
| FilterPanel.HandleSystemChange | FilterPanel.jsx:29-37 | the system patch flips the membership of the clicked id and of no other id |
| FilterPanel.ToggleFlips | FilterPanel.jsx:20-22 | a toggle flips the membership of the id and keeps every other id's membership |
| FilterPanel.RemoveAllMultiset | FilterPanel.jsx:21 | filtering out an id removes all its occurrences and keeps every other id with its multiplicity |
| FilterPanel.ToggleRemoves | FilterPanel.jsx:20-21 | when the id is present the new list has no occurrence of it, keeps the other ids in order and with their multiplicities, and is shorter by the id's count |
| FilterPanel.ToggleAppends | FilterPanel.jsx:20-22 | when the id is absent the new list is the old list followed by the id |
| FilterPanel.ToggleTwiceAbsent | FilterPanel.jsx:20-22 | toggling an absent id twice restores the list |
| FilterPanel.ToggleTwicePresent | FilterPanel.jsx:20-22 | toggling a present id twice removes its occurrences and appends it once at the end |
| FilterPanel.ToggleKeepsNoDuplicates | FilterPanel.jsx:20-22 | a list without repeated ids keeps that property through a toggle |
| AlertPanel.Panel | AlertPanel.jsx:13-80 | the panel renders nothing exactly when it is closed, and otherwise shows the content of the selected tab |
| AlertPanel.ActiveAlertsExact | AlertPanel.jsx:15 | the active alerts are exactly the alerts whose id is not dismissed, each as often as in the input, in their original order |
| AlertPanel.TypeGroupExact | AlertPanel.jsx:16-18 | each type group holds exactly the active alerts of that exact type, each as often as it is active, in order |
| AlertPanel.TypeGroupsDisjoint | AlertPanel.jsx:16-18 | groups of different types share no alert |
| AlertPanel.OtherTypesUngrouped | AlertPanel.jsx:16-18 | an active alert of any other type is in no group, and the three groups plus those alerts account for every active alert |
| AlertPanel.BadgeAndEmptyState | AlertPanel.jsx:59-133 | the badge shows the number of active alerts and appears exactly when there is one; the "No active alerts" state shows exactly when there is none |
| AlertPanel.PriorityGroupExact | AlertPanel.jsx:20-22 | each priority group holds exactly the recommendations of that exact priority, each as often as in the list, in order, and groups of different priorities are disjoint |
| AlertPanel.DismissFromCard | AlertCard.jsx:49-51 | the card passes its alert's id to `dismissAlert`; dismissing its alert removes from the active list exactly the alerts with its id and keeps the order of the rest |
| AlertCard.KindOf | AlertCard.jsx:8-32 | the switch case is `critical`, `warning` or `info` exactly when the type is that string, and the default otherwise |
| AlertCard.StylesByKind | AlertCard.jsx:8-32 | a type gets the gray default classes and icon exactly when it is none of the three known types, and types of different cases get different classes and icons |
| AlertCard.StylesDistinct | AlertCard.jsx:8-32 | the four cases have four different class strings and four different icons |
| Dates.FloorHours | AlertCard.jsx:37 | the whole number of hours is the floor of the milliseconds over 3600000 |
| AlertCard.JustNowBucket | AlertCard.jsx:37-40 | the card shows `Just now` exactly when the timestamp is less than one hour old, future timestamps included |
| AlertCard.HoursBucket | AlertCard.jsx:37-42 | from one to 24 hours the text is the decimal number of whole hours elapsed followed by `h ago` |
| AlertCard.DaysBucket | AlertCard.jsx:43-46 | from 24 hours on the text is the decimal number of whole days elapsed followed by `d ago` |
| AlertCard.HoursLabelDeterminesAge | AlertCard.jsx:41-42 | two timestamps shown with the same `Nh ago` text are the same whole number of hours old |
| HistoricalChart.FilteredDataExact | HistoricalChart.jsx:31-37 | the shown days are exactly those with `from <= date <= to`, both bounds inclusive and all dates valid, in their original order |
| HistoricalChart.BuildDatasets | HistoricalChart.jsx:39-93 | the four guarded pushes build one dataset per chosen series, in push order, each with its label and its column of the shown days |
| HistoricalChart.NoSystemsAllSeries | HistoricalChart.jsx:42-93 | with no system selected the datasets are HVAC, Lighting, Machinery and Total, in that order |
| HistoricalChart.SelectedSystemsOnly | HistoricalChart.jsx:42-93 | with systems selected a series is drawn exactly when its id is selected, the total never, and in the fixed order HVAC, lighting, machinery |
| HistoricalChart.SelectedInOrder | HistoricalChart.jsx:42-79 | with systems selected the drawn series are a subsequence of HVAC, lighting, machinery |
| HistoricalChart.UnknownIdIgnored | HistoricalChart.jsx:42-93 | an id naming none of the three systems adds no dataset to a non-empty selection |
| HistoricalChart.DatasetLengths | HistoricalChart.jsx:45-102 | every dataset has one value per shown day, as many as there are labels |
| HistoricalChart.TotalEnergyAppend | HistoricalChart.jsx:197 | the total over two runs of days is the sum of their totals |
| HistoricalChart.TotalEnergyCons | HistoricalChart.jsx:197 | the total is the first day's total plus the rest's |
| HistoricalChart.TotalEnergySplit | HistoricalChart.jsx:197 | splitting the days by any predicate splits the total |
| HistoricalChart.RangeTotalBounded | HistoricalChart.jsx:31-197 | with non-negative day totals the range total is non-negative, at most the total of all data, and 0 for an empty range |
| HistoricalChart.TotalNonNegative | HistoricalChart.jsx:197 | days with non-negative totals sum to a non-negative total |
| EnergyMonitor.CheckThresholds | energy_model_training.py:439-457 | the loop returns the energy alert, then the appliance alerts in usage order, then the temperature alert |
| EnergyMonitor.ApplianceCheck | energy_model_training.py:447-452 | one running appliance adds the air-conditioning alert, then the lights alert, each under its own rule |
| EnergyMonitor.EnergyAlertRule | energy_model_training.py:442-445 | at most one energy alert is raised, and it comes first: critical from 120, high from 100 below 120, none below 100 |
| EnergyMonitor.TemperatureAlertRule | energy_model_training.py:454-455 | the temperature alert is raised exactly above 32 degrees, and it is the last alert |
| EnergyMonitor.AcAlertRule | energy_model_training.py:447-450 | an air-conditioning alert is raised for a name exactly when occupancy is below 20, the name contains `AC` and the appliance runs with positive power |
| EnergyMonitor.LightsAlertRule | energy_model_training.py:447-452 | a lights alert is raised for a name exactly when occupancy is below 10, the name contains `Lights` and the appliance runs with positive power |
| EnergyMonitor.IdleAppliancesSilent | energy_model_training.py:447-452 | appliances drawing no power raise no alert: dropping them leaves the alerts unchanged |
| EnergyMonitor.UsageAlertsNotEnergy | energy_model_training.py:447-452 | the appliance rules raise neither energy nor temperature alerts |
| EnergyMonitor.SelectIsFirstArgmax | energy_model_training.py:229-258 | the chosen model is the first with the strictly highest R2: none scores higher, every earlier one scores lower, a failed model is never chosen, and one is chosen exactly when some model succeeded |
| EnergyMonitor.TieKeepsEarlier | energy_model_training.py:250-252 | of two models with equal scores the later one is never chosen |
| EnergyMonitor.ResultsOfEntry | energy_model_training.py:242-258 | with distinct model names each name maps to its own score, or to `None` when it failed |
| EnergyMonitor.ModelComparator.constructor | energy_model_training.py:206-211 | no models, no results, no best model and a best score of minus infinity |
| EnergyMonitor.ModelComparator.InitializeModels | energy_model_training.py:214-224 | the four regressors by name, in order; nothing else changes |
| EnergyMonitor.ModelComparator.TrainAndCompare | energy_model_training.py:226-258 | results map each model to its score or `None`; the best score is the selection's over this run; the best model is the selected one, or the previous best when every model failed |
| EnergyMonitor.BestModelHasResult | energy_model_training.py:242-258 | when some model succeeded, the best model's stored result is a score, equal to the best score |
| EnergyMonitor.IoTEnergyMonitor.constructor | energy_model_training.py:342-353 | the monitor holds the comparator's best model, if any, and no appliances; a best model must have a stored result |
| EnergyMonitor.PredictEnergy | energy_model_training.py:419-426 | the prediction is never negative: 0 without a model, otherwise the model's value clamped at 0 from below |
| EnergyMonitor.IoTEnergyMonitor.RegisterAppliances | energy_model_training.py:355-361 | every profile's entry is assigned over the existing map, and new names are appended to the key order while existing names keep their place |
| EnergyMonitor.FreshRegistration | energy_model_training.py:355-361 | registering into an empty monitor gives exactly one idle entry per profile, copying its location and power range, in profile order |
| EnergyMonitor.CostsAdditive | energy_model_training.py:468-472 | the daily, monthly and annual costs of two loads add up |
| EnergyMonitor.CostsOrdered | energy_model_training.py:468-472 | for non-negative energy the costs are non-negative with daily <= monthly <= annual, and more energy never costs less |
| EnergyMonitor.PredictedCostsNonNegative | energy_model_training.py:503-513 | the costs the monitoring cycle computes from the clamped prediction are never negative, are ordered daily <= monthly <= annual, and do not fall when the raw prediction rises |

## Left out

- The PapaParse tokenizer is not modelled. Its outcome (`errors`, `data`,
  `meta.fields`) is an input, and its `error` callback is a message string.
- Asynchronous completion is not modelled; each callback is one atomic method
  call.
- The file-input reset in `handleClear` is not modelled, because it is DOM
  access (`document.getElementById`).
- The report download of the filter panel is not modelled, because it is
  Blob/URL/DOM work.
- CsvUpload.ToNumber: models JavaScript `Number` on strings as an optionally
  signed decimal literal after trimming JavaScript white space. Exponents,
  hexadecimal (`0x`), octal (`0o`), binary (`0b`) literals and `Infinity`
  read as NaN here. Values are exact reals, not IEEE doubles.
- EnergyMonitor.CostsAdditive: additivity of the three costs holds for exact
  reals; with double-precision multiplication and addition the two sides can
  differ by rounding.
- Case mapping covers ASCII letters only: `toLowerCase` and `toUpperCase` of
  other letters are not modelled. Trimming removes the full JavaScript
  white-space and line-terminator set.
- Which strings the parser's dynamic typing (`CSVUpload.jsx:54`) turns into
  numbers, booleans or dates is the parser's decision and part of its
  outcome, an input here. The cells it can produce are modelled, and
  `Number` of each (booleans give 1 and 0, dates their time).
- The day totals and `TotalEnergy` (`HistoricalChart.jsx:197`) are exact
  reals. The component sums IEEE doubles with `reduce`, whose rounding is not
  modelled.
- HistoricalChart.TotalEnergyAppend: the regrouping of the total over two runs
  of days holds for exact reals only; a double-precision `reduce` can round
  the two groupings differently.
- HistoricalChart.TotalEnergyCons: the first-day decomposition of the total
  holds for exact reals only; the component's left-to-right double sum can
  differ from it by rounding.
- HistoricalChart.TotalEnergySplit: splitting the total by a predicate holds
  for exact reals only; with doubles the two partial sums can round
  differently from the whole.
- Dates are milliseconds since the epoch or an invalid date. Parsing date
  strings (`new Date(...)`) and the clock are inputs.
- The locale text of the chart labels (`toLocaleDateString`) is not
  modelled. Each label is represented by the day's date.
- The locale formatting of the displayed total (`toLocaleString`) is not
  modelled.
- The chart colours, widths and point sizes of each dataset, and all JSX and
  class-string rendering, are left out. The exception is the alert card's
  class and icon choice, which is modelled.
- The `setFilters` merge and the `dismissAlert` reducer are not part of this
  model. The handlers' arguments are modelled; how the context merges them is
  not.
- The text of the monitor's alerts (`:.1f` formatting) is not modelled. Each
  alert is a case carrying its value or appliance name.
- The monitor's readings and scores are exact reals. NaN R2 scores and
  floating-point rounding are not modelled.
- Model fitting, R2/RMSE computation, preprocessing, scaling, sensor
  simulation, persistence, printing and sleeping are not modelled. They rely
  on pandas, scikit-learn, random and joblib. The outcome of fitting each
  model (its R2 score or a failure) is an input.
- Predicting with the model is not modelled: `predict_energy`'s model output
  is an input, and only the clamp is modelled.
- The `model`, `rmse` and `y_pred` entries of each result are not kept; a
  result is the R2 score or `None`.
- The carbon-impact computation is not modelled; it is not part of this
  model's core.
