# TSO scheduling constraints and import layer: a Dafny model

This project models three pieces of the TSO telescope-scheduling code:

- **The weather admission rule** (`Weather`, weather_constraint.dfy). A `WeatherConstraint` is built for one scheduling window and some thresholds. It derives the window's span in days and a "today" flag. Its evaluation then picks one of three arms:
  - a decision table on the current weather report;
  - a forecast arm, which averages the cloud coverage of one forecast day and compares it with a threshold;
  - an unconditional admission.
- **The planned-outage constraint** (`Outage`, outage_constraint.dfy). A `TsoOutageConstraint` holds an outage configuration. Its evaluation folds the configured windows into a per-time boolean mask.
- **The import layer** (`DataImporter`, data_importer.dfy). It keeps fetched observation-block rows whose program priority is within a bound and attaches each block's exposure count. It assembles the observations query text, and folds the exposure-count rows into a map. Each of its database-facing entry points first checks that a database configuration is present.

`Wrappers` (wrappers.dfy) holds `Option` and `Result`. `Decimal` (decimal.dfy) is Python's `str` on integers, which the query text uses, together with its inverse.

The clock, the weather service and the database are not called. They are parameters:
- "today" is a day ordinal;
- the current report and the forecast are values;
- fetched rows are sequences.

Dates are day ordinals and times of day are minutes. Outage times are seconds since 1970-01-01T00:00:00 UTC.

The model follows the code as written. Where the code does something other than what its comments and names describe, both readings are modelled and compared (see "## Findings"):
- The weather evaluation's first test reads `start_today & days == 0`. Python parses this as `(start_today & days) == 0`. `Weather.Dispatch` models that parse, and proves that the forecast arm can never be reached.
- The "today" flag compares the window's END date with today, not its start date. The code is followed.
- The forecast average divides the summed coverage of the samples up to the end time by the number of all samples of the day, not by the number of samples up to the end time. An empty day is a division by zero.
- The outage test, as written, ignores each window's own times. `Outage.LiteralFold` is what the code computes. `Outage.IntendedFold` is the reading its comment describes: a time outside the window is valid.
- No check rejects an outage window whose start is after its end, because the code has none.

## Model

| member | source | states |
|---|---|---|
| `Weather.WeatherConstraint.constructor` | src/tso/scheduler/weather_constraint.py:14-38 | `days` is end date minus start date; `startToday` holds exactly when the END date equals today; the times of day and the three thresholds are stored unchanged |
| `Weather.BoolAndInt` | src/tso/scheduler/weather_constraint.py:61 | Python's `bool & int`: False gives 0; True gives the lowest two's-complement bit of the int, the one r in {0, 1} with n - r even (also for negative n) |
| `Weather.Dispatch` | src/tso/scheduler/weather_constraint.py:61-114 | under Python's parse `(start_today & days) == 0` the current-weather arm is taken exactly when `startToday` is false or `days` is even, the unconditional arm exactly when `startToday` holds and `days` is odd, and the forecast arm never |
| `Weather.IntendedDispatch` | src/tso/scheduler/weather_constraint.py:60-114 | the classification the comments describe: current weather exactly for a one-day window ending today, forecast exactly for a one-day window not ending today, unconditional exactly for a window spanning several days |
| `Weather.DispatchMisroutes` | src/tso/scheduler/weather_constraint.py:61 | a one-day window not ending today, and a two-day window, both go to the current-weather arm where the intended classification sends them to the forecast and unconditional arms |
| `Weather.CurrentWeatherAdmits` | src/tso/scheduler/weather_constraint.py:69-86 | Clear always admits; Clouds admits iff coverage is at most the cloud threshold; Rain admits iff coverage is at most the rain threshold; any other condition refuses |
| `Weather.CurrentWeatherIgnoresLocation` | src/tso/scheduler/weather_constraint.py:63-67 | a report from any location gets the same verdict as one from 'Volcano', since the failed location assertion is caught and dropped |
| `Weather.CurrentWeatherMonotone` | src/tso/scheduler/weather_constraint.py:73-83 | raising the cloud or rain threshold never turns an admission into a refusal |
| `Weather.PythonIndex` | src/tso/scheduler/weather_constraint.py:98 | indexing the forecast succeeds exactly for an index in -n..n-1; a non-negative index picks that element and a negative one picks element n + i, counted from the end |
| `Weather.SumCoverageUpTo` | src/tso/scheduler/weather_constraint.py:100-104 | the loop leaves in `ccSum` the summed coverage of the samples whose time is at or before the end time |
| `Weather.CoverageUpTo` | src/tso/scheduler/weather_constraint.py:100-104 | the summed coverage of the samples up to the end time is non-negative for non-negative coverages, and zero when every sample is after the end time |
| `Weather.CoverageUpToMonotone` | src/tso/scheduler/weather_constraint.py:102-104 | with non-negative coverage, a later end time never gives a smaller sum |
| `Weather.MeanBelowIff` | src/tso/scheduler/weather_constraint.py:106-108 | for a positive count, the real mean `sum / count` is below the threshold exactly when `sum < threshold * count` |
| `Weather.ForecastDayAdmits` | src/tso/scheduler/weather_constraint.py:106-111 | fails with a division by zero exactly for an empty day; otherwise admits iff the real quotient of the sum by the number of ALL samples is below the average threshold |
| `Weather.LateSampleOnlyDilutes` | src/tso/scheduler/weather_constraint.py:103-106 | because the denominator counts every sample, a sample after the end time keeps an admission an admission (for a non-negative threshold) |
| `Weather.ForecastDayExample` | src/tso/scheduler/weather_constraint.py:100-111 | samples of 20% at 10:00 and 40% at 12:00 with end time 12:00: refused at threshold 25, admitted at threshold 35 |
| `Weather.ForecastAdmits` | src/tso/scheduler/weather_constraint.py:93-98 | beyond 5 days ahead the forecast arm admits whatever the forecast holds; within it the day at that index is judged (a negative index from -n to -1 judges day n + i, counted from the end), and an index outside -n..n-1 raises |
| `Weather.EvaluateForecast` | src/tso/scheduler/weather_constraint.py:93-111 | the forecast arm's code (cut-off, day choice, sum loop, division) returns exactly `ForecastAdmits` |
| `Weather.WeatherConstraint.ComputeConstraint` | src/tso/scheduler/weather_constraint.py:41-114 | the evaluation returns the verdict of the arm `Dispatch` picks; hence it never fails and never reads the forecast: it is the current-weather table when `startToday` is false or `days` is even, and true otherwise |
| `Outage.LiteralWindowMask` | src/tso/scheduler/constraints/tso_outage_constraint.py:26-35 | a window lacking either key fails (a time built from None); a window with both keys yields, for every time, whether it lies strictly between 1950-01-01 and 2120-01-01, whatever the window's own times |
| `Outage.LiteralFold` | src/tso/scheduler/constraints/tso_outage_constraint.py:29-36 | a successful fold has one entry per time |
| `Outage.LiteralMask` | src/tso/scheduler/constraints/tso_outage_constraint.py:23-36 | a configuration without `times` fails with a missing attribute; otherwise the evaluation fails exactly when some configured window lacks a key, and a successful mask has one entry per time |
| `Outage.LiteralFoldCharacterized` | src/tso/scheduler/constraints/tso_outage_constraint.py:29-36 | the fold fails exactly when some window lacks a key; otherwise entry i is true iff there are no windows or times[i] lies strictly between the sentinels, so it depends on times[i] alone |
| `Outage.LiteralFoldMonotone` | src/tso/scheduler/constraints/tso_outage_constraint.py:29-35 | adding a window never turns an entry from false to true |
| `Outage.LiteralFoldOrderIndependent` | src/tso/scheduler/constraints/tso_outage_constraint.py:30-35 | two configurations listing the same windows in different orders give the same result |
| `Outage.IntendedFold` | src/tso/scheduler/constraints/tso_outage_constraint.py:34 | the intended mask has one entry per time |
| `Outage.IntendedFoldCharacterized` | src/tso/scheduler/constraints/tso_outage_constraint.py:34 | an entry of the intended mask is true iff its time is before the start or after the end of every window |
| `Outage.IntendedMaskOutsideInside` | src/tso/scheduler/constraints/tso_outage_constraint.py:34 | for windows with both keys, a time outside every window is observable and a time strictly inside any window is not |
| `Outage.IntendedMaskEmpty` | src/tso/scheduler/constraints/tso_outage_constraint.py:29-36 | with no windows every time is observable |
| `Outage.IntendedFoldMonotone` | src/tso/scheduler/constraints/tso_outage_constraint.py:29-35 | adding a window never turns an intended entry from false to true |
| `Outage.IntendedFoldOrderIndependent` | src/tso/scheduler/constraints/tso_outage_constraint.py:30-35 | the intended mask does not depend on the order of the windows |
| `Outage.LiteralAndIntendedDisagree` | src/tso/scheduler/constraints/tso_outage_constraint.py:31-35 | for a window 2024-01-01 to 2024-01-05 evaluated at 2024-01-03 and 2024-02-01 the code gives [true, true] where the intended mask is [false, true] |
| `Outage.DefaultOutageConfig` | src/tso/scheduler/constraints/tso_outage_constraint.py:15-18 | the default configuration lists no windows, and, having no `times` attribute, makes every literal evaluation fail |
| `Outage.TsoOutageConstraint.constructor` | src/tso/scheduler/constraints/tso_outage_constraint.py:20-21 | keeps the given configuration, or the default one when given None |
| `Outage.TsoOutageConstraint.ComputeConstraint` | src/tso/scheduler/constraints/tso_outage_constraint.py:23-36 | the window loop returns exactly the literal fold of the configured windows, or fails when the configuration has no `times` |
| `DataImporter.Lookup` | src/tso/importer/data_importer.py:38 | `dict.get` gives a value exactly for a present key, and then the stored one |
| `DataImporter.Converted` | src/tso/importer/data_importer.py:28-43 | the output is no longer than the input, and every kept block has program priority within the bound and the exposure count looked up for its id (None when absent) |
| `DataImporter.ConvertedSelectsInOrder` | src/tso/importer/data_importer.py:28-43 | the output is the input rows at strictly increasing indices, and those indices are exactly the rows with program priority at most the bound |
| `DataImporter.ConvertedMonotone` | src/tso/importer/data_importer.py:35 | raising the priority bound never removes a block and never shortens the output |
| `DataImporter.ConvertedKeepsAll` | src/tso/importer/data_importer.py:35 | when no row exceeds the bound, every row is kept |
| `DataImporter.ConvertToCfht` | src/tso/importer/data_importer.py:13-43 | the loop returns exactly `Converted` of its inputs |
| `DataImporter.ExposureCounts` | src/tso/importer/data_importer.py:175-177 | every entry of the exposure map is the id and count of some fetched row |
| `DataImporter.ExposureCountsKeys` | src/tso/importer/data_importer.py:175-177 | the exposure map has a key exactly for each id that some row carries |
| `DataImporter.ExposureCountsLastWins` | src/tso/importer/data_importer.py:175-177 | the value for an id is the count of the last row carrying that id |
| `DataImporter.GetExposureCountsPerObservationId` | src/tso/importer/data_importer.py:151-179 | raises RuntimeError without a configuration; otherwise the loop returns exactly the row-by-row map |
| `DataImporter.Clause` | src/tso/importer/data_importer.py:132-138 | the select statement and each optional clause end with the decimal text of their bound, so on a digit, and the bound reads back exactly from that tail |
| `DataImporter.AppendWhen` | src/tso/importer/data_importer.py:133-138 | one guarded `sql +=` step: for a positive bound the text so far is followed by exactly the clause, otherwise it is unchanged |
| `DataImporter.WithClauses` | src/tso/importer/data_importer.py:133-138 | the three guarded steps leave the text so far followed by exactly the clauses whose bounds are positive, in the order remaining chances, minimum duration, maximum duration |
| `DataImporter.WithClausesShape` | src/tso/importer/data_importer.py:133-138 | the clauses keep the text so far as a prefix, and add nothing exactly when no bound is positive |
| `DataImporter.ObservationsQuery` | src/tso/importer/data_importer.py:132-138 | the query always begins with the select statement on the priority bound followed by ';', and is that head followed by the clauses with positive bounds, all placed after the terminator |
| `DataImporter.IntendedObservationsQuery` | src/tso/importer/data_importer.py:132-138 | the corrected query is the select statement, then the clauses with positive bounds, then the terminator ';' as its last character |
| `DataImporter.QueryClausesFollowTerminator` | src/tso/importer/data_importer.py:132-138 | the written query ends with ';' exactly when no clause is appended; in that case it equals the corrected one |
| `DataImporter.ObservationsQueryDefaults` | src/tso/importer/data_importer.py:105-138 | with the default arguments exactly one clause is appended, the maximum-duration one, since sys.maxsize is positive |
| `DataImporter.BuildObservationsQuery` | src/tso/importer/data_importer.py:132-138 | growing the text with `+=` gives exactly `ObservationsQuery` |
| `DataImporter.GetAllObservations` | src/tso/importer/data_importer.py:46-74 | raises RuntimeError without a configuration; otherwise converts the fetched rows with bound sys.maxsize and the exposure map, keeping every row whose priority fits in 64 bits |
| `DataImporter.GetObservations` | src/tso/importer/data_importer.py:105-148 | raises RuntimeError without a configuration, before anything else; otherwise yields the assembled query and the conversion of the rows it returned |
| `DataImporter.GetObservationsWithArgs` | src/tso/importer/data_importer.py:77-102 | raises RuntimeError without a configuration; raises TypeError when a keyword argument is missing; otherwise is `GetObservations` on the given arguments |
| `Decimal.NatToString` | src/tso/importer/data_importer.py:132 | `str` of a natural number is non-empty, all digits, with a leading '0' only for 0 |
| `Decimal.IntToString` | src/tso/importer/data_importer.py:132 | `str` of an int is digits with a leading '-' exactly for negatives, and ends in a digit |
| `Decimal.IntToStringRoundTrip` | src/tso/importer/data_importer.py:132-138 | reading back the decimal text spliced into the query gives the number again |

## Findings

| source | as written | input that shows it | evidently intended | confidence | as-written member | corrected member |
|---|---|---|---|---|---|---|
| src/tso/scheduler/weather_constraint.py:61 | `self.start_today & self.days == 0`, parsed as `(start_today & days) == 0` | a window not ending today with `days` 0 or 2: both take the current-weather arm, and the forecast arm is unreachable | `self.start_today and self.days == 0` | high; not executed | `Weather.DispatchMisroutes` | `Weather.IntendedDispatch` |
| src/tso/scheduler/constraints/tso_outage_constraint.py:31-35 | `... if "start" not in outage else max_time` and the same for "end", then `np.logical_and(times < min_out_time, times > max_out_time)` | window 2024-01-01 to 2024-01-05, time 2024-01-03: reported observable | `in` instead of `not in`, and `np.logical_or`, so a time inside a window is blocked | high; not executed | `Outage.LiteralAndIntendedDisagree` | `Outage.IntendedMaskOutsideInside` |
| src/tso/importer/data_importer.py:132-138 | the `AND` clauses are appended after the `;` that ends the select statement | the default arguments: `DataImporter.ObservationsQueryDefaults` shows the query is the select statement, `;`, then ` AND contiguous_exposure_time_millis <= 9223372036854775807`, so every default call sends text after the `;` | the clauses come before the terminating `;` | high; not executed | `DataImporter.QueryClausesFollowTerminator` | `DataImporter.IntendedObservationsQuery` |

The constraint objects and the importer entry points keep the as-written behaviour, since that is what the system does. The corrected definitions stand beside them, each with its property proved.

## Left out

- The weather service call (`WeImp.getWeather`, weather_constraint.py:62,97) is a network fetch. Its answers are the `report` and `forecast` parameters of `ComputeConstraint`. A failed fetch is not modelled.
- `datetime.utcnow()` (weather_constraint.py:18,90) becomes a `today` parameter. `strptime` becomes pre-parsed `Timestamp` values.
- The forecast arm's `end_date` at weather_constraint.py:91 is an undefined local name, which would raise NameError. The model reads it as the constraint's end date. The difference is unobservable, because the arm is unreachable (`Weather.Dispatch`).
- The float division at weather_constraint.py:106 is replaced by an integer comparison. `Weather.ForecastDayAdmits` proves that comparison equal to the real quotient. Cloud coverages and thresholds are integers (percent); fractional values are not modelled.
- The `times`, `observer` and `targets` arguments of the weather evaluation are unused by the code, and are left out. The weather evaluation returns a single boolean.
- The astroplan `Constraint` base class and its broadcasting of results are not part of this model. The constraint aggregator is not part of this model either; no code for it is among the modelled files.
- `Outage.LiteralFold`: successive window masks are combined elementwise. The code's `mask and <array>` (tso_outage_constraint.py:35) instead raises ValueError at the second window when there is more than one time, and for a single time picks one operand. With no windows the code returns the scalar `True`; the model returns a mask that is true at every time.
- astropy `Time` parsing of configured strings is not modelled. Window bounds are pre-parsed integers. Building a time from a missing key (`Time(None)`) is modelled as the `InvalidTime` failure.
- Database connections, cursors, `execute` and `fetchall` (data_importer.py:66-68,140-142,170-173) are I/O. The rows they return are inputs. The database's own filtering by the query text is not modelled.
- `json.loads` of the block data, the `CFHTObservationBlock` class and `int(...)` conversions are not modelled: rows carry integer ids and priorities. `CFHTObservationBlock` is not part of this model. A non-numeric priority, which would make `int` raise ValueError, is not modelled.
- `sys.maxsize` is taken as 2^63 - 1, the value on a 64-bit interpreter.
- The mutable default `exposure_count_data={}` is never mutated by `convert_to_cfht`, so it leaks nothing between calls. It is a plain map parameter here.
- db/generate_test_data.py (random mock data, file writing) and src/tso/importer/tests/test_transformer_integration.py (tests against a live database and a transformer module that is not part of this model) hold no decision logic.
