# wanderdata-scripts collectors, modelled in Dafny

wanderdata-scripts is a set of small Python collectors for personal data.
This project models the logic they hold between an API client on one side
and a file or a BigQuery table on the other:

- **Check-in collector** (7-eleven-swarm). It pages through a user's
  Foursquare check-ins in a time window, 250 at a time, newest first, until
  a page comes back empty. It then appends everything it collected, as one
  JSON document, to `data/checkins.json`.
- **Steps collector** (fitbit_steps). It asks Fitbit for the 15-minute
  intraday steps of every day in an inclusive date range. It flattens each
  day's dataset into `(date, time, value)` rows. Its `append_to_csv`
  appends a frame to `filename.csv`, with a header only when that file does
  not exist yet.
- **Shared CSV helper** (fitbit/common.py). This is the same `append_to_csv`,
  except that it tests whether `filename` exists, not `filename.csv`.
- **Sleep collector** (fitbit-sleep). It asks for the sleep log of every day
  from a base date through today and keeps only the main sleep records. It
  tags each record with that day's stage summary (deep, light, rem, wake)
  to form a 15-column frame.
- **Weather collector** (weather). Every 600 seconds it requests the current
  weather and the UV index and builds a 26-field row for the table schema.
  The row uses `-1` and `''` for absent optional values. It inserts the row
  and sleeps until the next multiple of the period after the start.

External services are function parameters: the Foursquare and Fitbit
clients and `requests`. A Python exception raised by such a call, or while
looking up a field of a reply, is an `Err` of `Json.Result`. For the weather
collector, each `requests.get` is an input that is either a reply or such an
error (a connection error, say). The BigQuery table is a class whose insert
is told whether the service accepts the row.

Other environment pieces are plain values:

- The filesystem is a map from paths to line sequences, held by the class
  `Files.FileStore`.
- The BigQuery table is the class `WeatherCollector.Table`.
- Days are integers, and "today" is an input.

Modules, one per file:

- `Json`: JSON values and the Python dictionary operations the collectors
  use.
- `Seqs`: flattening groups of rows.
- `Calendar`: the inclusive day range.
- `Files`: the filesystem.
- `Csv`: what `to_csv` writes.
- `CheckinsCollector`, `StepsCollector`, `FitbitCommon`, `SleepCollector`
  and `WeatherCollector`: one per core source file.

## Model

| member | source | states |
|---|---|---|
| Calendar.Days | fitbit_steps/get_steps_data.py:35-38 | the date list has `end - start + 1` entries when `end >= start` and none otherwise, and entry `i` is `start + i` |
| Calendar.DaysContents | fitbit-sleep/get_data.py:30-32 | the day list is strictly increasing, holds exactly the days from the first to the last day inclusive, and starts and ends at them |
| Files.Appended | fitbit_steps/get_steps_data.py:25 | opening in append mode creates the file if it is absent, keeps its old content as a prefix, puts the written units right after it, and changes no other file |
| Files.FileStore.Append | 7-eleven-swarm/get_data.py:58-59 | an append replaces the filesystem by `Appended` of the old one |
| Csv.CsvPath | fitbit_steps/get_steps_data.py:24-25 | `filename.csv` is four characters longer than `filename` and never equals it |
| Csv.ToCsv | fitbit_steps/get_steps_data.py:26 | `to_csv(header=h, index=False)` writes one line per row, plus a first header line with the column names exactly when `h` holds; row `i` becomes the line carrying only that row |
| Csv.HeaderCountConcat | fitbit_steps/get_steps_data.py:25-26 | the header lines of two concatenated writes are the sum of their header lines |
| Csv.RowLinesHaveNoHeader | fitbit/common.py:8 | the row lines of a write never contain a header line |
| Csv.ToCsvHeaderCount | fitbit_steps/get_steps_data.py:26 | a write contains one header line when asked for one and none otherwise |
| Files.AppendedPath | fitbit_steps/get_steps_data.py:25 | the appended file is exactly its old content followed by the written units |
| Csv.ConcatLinesRows | fitbit/common.py:8 | after the old lines and the optional header, line `i` of the write is row `i` of the frame |
| Csv.AppendedCsvLines | fitbit/common.py:7-8 | appending a write keeps the old lines as a prefix, puts the header (if any) right after them, and then the frame's rows, in order, up to the end of the file |
| Csv.AppendedCsvHeaders | fitbit/common.py:7-8 | appending a write adds exactly one header line when asked for one and none otherwise |
| Seqs.FlattenSnoc | 7-eleven-swarm/get_data.py:54-55 | appending one more group to the accumulator appends exactly that group's items |
| Seqs.FlattenLength | fitbit_steps/get_steps_data.py:41-46 | the flattened rows are as many as the groups' lengths together |
| Seqs.FlattenAt | fitbit_steps/get_steps_data.py:41-46 | item `i` of group `k` sits in the flattened rows right after all items of the groups before `k` |
| CheckinsCollector.Pages | 7-eleven-swarm/get_data.py:43-56 | page `j` is the item list the API returns for the request with offset `250 * j`, or nothing for a failed call |
| CheckinsCollector.CollectedSnoc | 7-eleven-swarm/get_data.py:54-56 | one more non-empty page appends exactly that page's items, in API order |
| CheckinsCollector.CollectedOrder | 7-eleven-swarm/get_data.py:54-55 | the accumulator is as long as all pages together, and item `i` of page `j` sits in it right after all items of the earlier pages |
| CheckinsCollector.FetchCheckins | 7-eleven-swarm/get_data.py:40-56 | every request carries the same window, `sort='newestfirst'`, `limit=250` and offset `250 * j`; every page before the last is non-empty, the last one is empty or failed, and no request follows it; the final offset is 250 times the number of non-empty pages; on success the result is all their items in request order |
| CheckinsCollector.CollectCheckins | 7-eleven-swarm/get_data.py:40-59 | the same requests as `FetchCheckins`; after a successful loop the collected list is appended once to `data/checkins.json`, and a failed run writes nothing |
| CheckinsCollector.EmptyWindowDumpsEmptyList | 7-eleven-swarm/get_data.py:51-59 | for any API whose first page (offset 0) is empty, exactly that one request is made and an empty list is still appended once to `data/checkins.json` |
| StepsCollector.AppendedSteps | fitbit_steps/get_steps_data.py:24-26 | the filesystem after one `append_to_csv`; no contract of its own; `AppendedStepsMeaning` states its meaning |
| StepsCollector.AppendToCsv | fitbit_steps/get_steps_data.py:18-26 | the filesystem after `append_to_csv(filename, df)` is `AppendedSteps` of the one before |
| StepsCollector.AppendedStepsMeaning | fitbit_steps/get_steps_data.py:24-26 | `filename.csv` keeps its old content as a prefix, then gets a header with the frame's columns as its first line exactly when it was absent, then the frame's rows in order up to its end; it gains a header line iff it was absent, and no other file changes |
| StepsCollector.HeaderWrittenOnce | fitbit_steps/get_steps_data.py:24-26 | any number of appends to a fresh `filename.csv` leave exactly one header line, and it is the first line |
| StepsCollector.EntryRows | fitbit_steps/get_steps_data.py:45-46 | the rows the inner loop appends for one day's entries, or the first entry's error; no contract of its own; `EntryRowsMeaning` states its meaning |
| StepsCollector.DayRows | fitbit_steps/get_steps_data.py:43-46 | one day's call, dataset lookup and rows; no contract of its own; `FetchDay` and `StepsGroupsMeaning` state its meaning |
| StepsCollector.StepsGroups | fitbit_steps/get_steps_data.py:41-46 | the rows of each day, one group per day, stopping at the first failing day; no contract of its own; `StepsGroupsMeaning` states its meaning |
| StepsCollector.EntryRowsMeaning | fitbit_steps/get_steps_data.py:45-46 | a day's entries yield rows iff each entry is a dictionary; then there is one row per entry, in order, carrying the day, the entry's `time` and its `value` |
| StepsCollector.EntryRowsErrExtends | fitbit_steps/get_steps_data.py:45-46 | an entry that raises ends the function with that error |
| StepsCollector.StepsGroupsErrExtends | fitbit_steps/get_steps_data.py:41-46 | a day that raises ends the function with that error |
| StepsCollector.StepsGroupsMeaning | fitbit_steps/get_steps_data.py:41-46 | the rows exist iff every day's call and dataset lookup succeed; then group `k` is the rows of day `k` |
| StepsCollector.StepsRowCount | fitbit_steps/get_steps_data.py:41-46 | the number of rows is the sum of the per-day dataset lengths |
| StepsCollector.StepsRowsOrdered | fitbit_steps/get_steps_data.py:38-46 | for an increasing day list, every row's date is one of the days, and rows are grouped by day in date order |
| StepsCollector.StepsRowAt | fitbit_steps/get_steps_data.py:41-46 | entry `i` of day `k` is the row right after all rows of the earlier days, with date `days[k]` |
| StepsCollector.IntradaySteps | fitbit_steps/get_steps_data.py:48 | the frame has exactly the columns date, time, value |
| StepsCollector.IntradayStepsMeaning | fitbit_steps/get_steps_data.py:29-48 | the frame has as many rows as the days' datasets together; every row's date lies in the inclusive range, and the dates never decrease |
| StepsCollector.FetchDay | fitbit_steps/get_steps_data.py:43-46 | the inner loop for one day computes `DayRows`: one call, the dataset lookup, one row per entry |
| StepsCollector.GetIntradayStepsData | fitbit_steps/get_steps_data.py:29-48 | the loops compute `IntradaySteps`; call `i` asks `activities/steps` at `15min` for day `i` of the range; all days are asked on success; on failure, the days before the last asked one succeeded and the last one failed |
| FitbitCommon.AppendedCommon | fitbit/common.py:6-8 | the filesystem after one `append_to_csv`, with the header test on `filename`; no contract of its own; `AppendedCommonMeaning` states its meaning |
| FitbitCommon.AppendToCsv | fitbit/common.py:5-8 | the filesystem after `append_to_csv(filename, df)` is `AppendedCommon` of the one before |
| FitbitCommon.AppendedCommonMeaning | fitbit/common.py:5-8 | `filename.csv` keeps its old content as a prefix; right after it comes a header line with the frame's columns exactly when the path `filename` (not `filename.csv`) is absent; then the frame's rows in order up to its end; it gains a header line iff `filename` is absent; `filename` itself is never created, and no other file changes |
| FitbitCommon.HeaderOnEveryAppend | fitbit/common.py:6-8 | while no file is named plain `filename`, every call appends another header: after `n` calls `filename.csv` holds `n` more header lines |
| FitbitCommon.HeaderNeverWrittenWhenBareExists | fitbit/common.py:6 | when a file named plain `filename` exists, no header is ever written |
| FitbitCommon.TwoAppendsTwoHeaders | fitbit/common.py:6-8 | two appends of `data/steps` to an empty directory leave two header lines in `data/steps.csv` |
| SleepCollector.SleepRow | fitbit-sleep/get_data.py:43-57 | the row has 15 fields: the 11 record fields in order, then the day's deep, light, rem and wake values |
| SleepCollector.StageValues | fitbit-sleep/get_data.py:54-57 | the stage values are `deep`, `light`, `rem` and `wake` of the day's summary, in that order |
| SleepCollector.ColumnsNameTheirSources | fitbit-sleep/get_data.py:59-67 | each column is named after the field it is read from, except `date`, which holds `dateOfSleep` |
| SleepCollector.MainSleeps | fitbit-sleep/get_data.py:38-41 | the kept records are main sleeps, and there are no more of them than records |
| SleepCollector.MainSleepsMembers | fitbit-sleep/get_data.py:38-41 | a record is kept iff it is one of the day's records and a main sleep |
| SleepCollector.MainSleepsSingle | fitbit-sleep/get_data.py:40-41 | a single record is kept iff it is a main sleep; a nap is skipped |
| SleepCollector.MainSleepsConcat | fitbit-sleep/get_data.py:38-41 | the filter keeps API order: the kept records of two batches in a row are those of the first, then those of the second |
| SleepCollector.MainSleepRows | fitbit-sleep/get_data.py:38-57 | the rows the inner loop appends for one day's records, or the first error; no contract of its own; `MainSleepRowsMeaning` states its meaning |
| SleepCollector.DaySleepRows | fitbit-sleep/get_data.py:36-57 | one day's call, stage summary and rows; no contract of its own; `FetchSleepDay`, `DaySleepRowsWidth` and `SleepGroupsMeaning` state its meaning |
| SleepCollector.SleepGroups | fitbit-sleep/get_data.py:35-57 | the rows of each day, one group per day, stopping at the first failing day; no contract of its own; `SleepGroupsMeaning` states its meaning |
| SleepCollector.MainSleepRowsMeaning | fitbit-sleep/get_data.py:38-57 | a day's records yield rows iff every record is a dictionary and, when there is a main sleep, the stage summary is a dictionary; then there is one row per main sleep, in API order, naps give none, and every row carries that day's stage values |
| SleepCollector.MainSleepRowsErrExtends | fitbit-sleep/get_data.py:38-57 | a record that raises ends the function with that error |
| SleepCollector.SleepGroupsErrExtends | fitbit-sleep/get_data.py:35-57 | a day that raises ends the function with that error |
| SleepCollector.SleepGroupsMeaning | fitbit-sleep/get_data.py:35-57 | the rows exist iff every day succeeds; then group `k` is the rows of day `k` |
| SleepCollector.SleepRowCount | fitbit-sleep/get_data.py:35-57 | the number of rows is the number of main sleep records across all days |
| SleepCollector.SleepRowAt | fitbit-sleep/get_data.py:35-57 | row `i` of day `k` sits right after all rows of the earlier days: rows are ordered by day, then by API order |
| SleepCollector.DaySleepRowsWidth | fitbit-sleep/get_data.py:43-57 | every row a day yields has 15 fields |
| SleepCollector.SleepData | fitbit-sleep/get_data.py:59-67 | the frame's columns are the 15 names, in order |
| SleepCollector.SleepDataMeaning | fitbit-sleep/get_data.py:25-67 | the frame has the 15 columns, one row per main sleep from the base day through today, and every row has 15 fields |
| SleepCollector.RowWidth | fitbit-sleep/get_data.py:59 | flattening groups of 15-field rows gives 15-field rows |
| SleepCollector.FetchSleepDay | fitbit-sleep/get_data.py:36-57 | the inner loop with `continue` computes `DaySleepRows` for one day |
| SleepCollector.GetSleepData | fitbit-sleep/get_data.py:25-67 | the loops compute `SleepData`; the calls are the days from the base day on, in order, one per day; all days through today are asked on success; on failure, the days before the last asked one succeeded and the last one failed |
| WeatherCollector.ColumnNamesDistinct | weather/get_data.py:10-35 | no two columns share a name |
| WeatherCollector.SchemaIndexFinds | weather/get_data.py:9-36 | every column has a position in the schema, and that position holds it |
| WeatherCollector.SchemaIndexInverts | weather/get_data.py:9-36 | schema position `i` holds the column whose position is `i`, so no column is listed twice |
| WeatherCollector.SchemaNamesDistinct | weather/get_data.py:10-35 | the table's 26 column names are pairwise distinct |
| WeatherCollector.Wait | weather/get_data.py:133 | in whole seconds, the wait lies in `(0, time_delay]` and ends on the next multiple of `time_delay` after the start |
| WeatherCollector.FiveSecondCycleSleeps595 | weather/get_data.py:133 | a cycle that ends 5 seconds into a 600-second period sleeps 595 seconds |
| WeatherCollector.UvFields | weather/get_data.py:74-83 | the UV value and date; no contract of its own; `CycleMeaning` states its meaning (`-1` and `''` for a not-ok reply, the reply's `value` and `date_iso` otherwise) |
| WeatherCollector.Precipitation | weather/get_data.py:89-92 | one precipitation lookup; no contract of its own; `PrecipitationsMeaning` states its meaning |
| WeatherCollector.Precipitations | weather/get_data.py:89-92 | a successful lookup gives four values |
| WeatherCollector.PrecipitationsMeaning | weather/get_data.py:89-92 | the lookups fail only when `rain` or `snow` holds a non-dictionary; otherwise each value is `-1` when its key or sub-key is absent and the given value otherwise |
| WeatherCollector.TupleOrderFollowsSchema | weather/get_data.py:9-36 | the 26 tuple positions line up with the 26 schema columns: position `i` holds the value of schema column `i` |
| WeatherCollector.RowOfExplicit | weather/get_data.py:95-119 | with four precipitation values, the row is the reply's values in tuple order: the nested keys read, `-1` for an absent `sea_level`, `grnd_level` or `wind.deg`, the rain and snow values, the UV value and date |
| WeatherCollector.BuildRow | weather/get_data.py:94-119 | the row tuple, or the lookup error that raises while building it; no contract of its own; `BuildRowOkIff`, `BuildRowValue`, `BuildRowFailsWithoutRequired` and `RowMatchesSchema` state its meaning |
| WeatherCollector.BuildRowValue | weather/get_data.py:95-119 | with every required field present, building the row succeeds and gives each column's source value in tuple order |
| WeatherCollector.BuildRowFailsWithoutRequired | weather/get_data.py:94-123 | a missing required field makes building the row raise |
| WeatherCollector.BuildRowOkIff | weather/get_data.py:94-123 | the row is built iff every required field is present |
| WeatherCollector.RowMatchesSchema | weather/get_data.py:9-36 | the row is built and has one field per schema column (26), and field `i` is the value the tuple reads for schema column `i` |
| WeatherCollector.CycleSpec | weather/get_data.py:60-133 | one loop iteration; no contract of its own; `CycleMeaning` and `CycleRow` state its meaning |
| WeatherCollector.CycleMeaning | weather/get_data.py:60-133 | the cycle raises out of the loop iff a request raises (the weather request's error first) or, with an ok weather reply, a non-dictionary `rain` or `snow` makes a lookup raise; a not-ok weather reply skips the insert; a not-ok UV reply still builds the row, with `-1` and `''` as UV value and date; an insert is attempted iff both replies arrived, the weather reply is ok, the precipitation lookups succeed and every required field is present; every cycle that does not raise sleeps the drift-free wait |
| WeatherCollector.CycleRow | weather/get_data.py:94-126 | a row the cycle tries to insert comes from an ok weather reply with every required field, and is the reply's row: each column's source value in tuple order |
| WeatherCollector.Table.InsertRows | weather/get_data.py:126 | an accepted insert adds the row to the table, a rejected one changes nothing and reports errors |
| WeatherCollector.RunCycle | weather/get_data.py:60-133 | one cycle, statement by statement, computes `CycleSpec` and adds exactly the inserted row to the table |
| WeatherCollector.Poll | weather/get_data.py:53-133 | cycle `i` runs on input `i`; skipped cycles and insert errors do not stop the loop, so only the last cycle can have crashed, and the loop stops early only because of that crash; the table gains the inserted rows in cycle order |

## Left out

- OAuth and token handling, and the construction of the API clients (7-eleven-swarm/get_access_code.py, the `oauth.get_token` call): these are external libraries.
- The `pytz` conversion of dates to timestamps, and the `strptime` parsing of date strings, with its exceptions. Timestamps and days are integer inputs.
- The clock. "Today" in the sleep collector and the current time in the weather collector are inputs.
- `WeatherCollector.Wait`: works in whole seconds; the source's float `time.time()` arithmetic is not modelled.
- The real `time.sleep`: a cycle only records how long it would sleep.
- `WeatherCollector.Poll`: runs one cycle per given input instead of forever. An infinite loop has no final state to state anything about.
- `prepare_bq_dataset` (weather/get_data.py:42-50). It creates the table and ignores a failure; the model starts from an existing `Table`.
- `Files.FileStore.Append`: an `open()` that fails (a missing `data/` directory, an unwritable file) is not modelled, so every append succeeds. This covers 7-eleven-swarm/get_data.py:58, fitbit_steps/get_steps_data.py:25 and fitbit/common.py:7.
- `WeatherCollector.Table.InsertRows`: whether the service accepts a row is an input; a BigQuery exception inside `insert_rows` is not modelled.
- `json.dump` and `to_csv` byte serialisation (quoting, separators, number formatting). A file is a sequence of lines, a line is a header or a row value, and a JSON document is a value.
- JSON number precision. Numbers are reals, and an `int` default such as `-1` is `-1.0`.
- `Json.Iter`: only JSON arrays are iterated; iterating a dictionary or a string is an error (`TypeError`) rather than a loop over its keys or characters. The replies the collectors read hold lists at those places.
- `Json.At`: indexing a dictionary with `0` gives `KeyError("")`; the key's value is not kept.
- Reply bodies that are not JSON objects, and `response.json()` failures: the weather and UV bodies are objects.
- `CheckinsCollector.FetchCheckins` and `CheckinsCollector.CollectCheckins` require that some page of the window is empty or fails. Without such a page the source loops forever, and a loop that does not end has no result to state.
- `SleepCollector.FetchSleepDay` and `StepsCollector.FetchDay` collect one day's rows, which the outer loop then appends. The source appends each row to one list directly; the resulting list is the same.
- `print` and logging output, the `__main__` blocks and `run()` drivers that call the modelled functions with fixed arguments, and the `df.to_csv('data/df.csv')` of fitbit-sleep/get_data.py:22.
- swarmapp/get_data.py, fitbit/get_data.py and fitbit/get_steps_data.py: thin drivers with no logic beyond the modelled collectors.
- The outlier-detection, time-series, clustering, mapping, Spotify and summary scripts: these are library wrappers.

## Findings

| source | as written | input that shows it | evidently intended | confidence | as-written member | corrected member |
|---|---|---|---|---|---|---|
| fitbit/common.py:6 | the header test is `os.path.exists(filename)`, but the rows go to `filename.csv` (line 7), and nothing ever creates the bare `filename` | two calls `append_to_csv('data/steps', df)` on an empty directory: `data/steps.csv` gets two header lines | test `filename.csv`, as fitbit_steps/get_steps_data.py:24 does, so only the first call writes a header | not executed | FitbitCommon.HeaderOnEveryAppend | StepsCollector.HeaderWrittenOnce |
