/** The intraday steps collector (fitbit_steps/get_steps_data.py): fetch the
    15-minute step series of every day from a start date to an end date
    (both included), flatten it into `(date, time, value)` rows, and append
    them to `<filename>.csv`, writing the header only when that file does not
    exist yet. */
module StepsCollector {
  import opened Json
  import opened Seqs
  import opened Calendar
  import opened Files
  import opened Csv

  const RESOURCE: string := "activities/steps"
  const DETAIL_LEVEL: string := "15min"
  const STEP_COLUMNS: seq<string> := ["date", "time", "value"]

  /** The arguments of one `client.intraday_time_series(...)` call. */
  datatype IntradayRequest = IntradayRequest(resource: string, baseDate: int, detailLevel: string)

  /** One output row: the day queried, and the entry's `time` and `value`. */
  datatype StepRow = StepRow(date: int, time: Json, value: Json)

  function DayRequest(day: int): IntradayRequest
  {
    IntradayRequest(RESOURCE, day, DETAIL_LEVEL)
  }

  // ---------------------------------------------------------------------------
  // append_to_csv (lines 18-26)

  /** The filesystem after `append_to_csv(filename, df)`. */
  function AppendedSteps<R>(files: map<string, seq<Line<R>>>, filename: string, df: Frame<R>): map<string, seq<Line<R>>>
  {
    Appended(files, CsvPath(filename), ToCsv(df, CsvPath(filename) !in files))
  }

  /** The header is decided by testing the very file that is then appended to. */
  method AppendToCsv<R>(fs: FileStore<Line<R>>, filename: string, df: Frame<R>)
    modifies fs
    ensures fs.files == AppendedSteps(old(fs.files), filename, df)
  {
    var shouldWriteHeader := !fs.Exists(CsvPath(filename));
    fs.Append(CsvPath(filename), ToCsv(df, shouldWriteHeader));
  }

  /** One append: the old content stays as a prefix, then the frame's rows in
      order, and the file gains a header line exactly when it did not exist;
      no other file changes. */
  lemma AppendedStepsMeaning<R>(files: map<string, seq<Line<R>>>, filename: string, df: Frame<R>)
    ensures var path := CsvPath(filename);
            var old_ := Contents(files, path);
            var out := AppendedSteps(files, filename, df);
            && path in out
            && out[path][..|old_|] == old_
            && |out[path]| == |old_| + |df.rows| + (if path in files then 0 else 1)
            && (path !in files ==> out[path][0] == HeaderLine(df.columns))
            && EndsWithRows(out[path], |old_| + (if path !in files then 1 else 0), df.rows)
            && HeaderCount(out[path]) == HeaderCount(old_) + (if path in files then 0 else 1)
            && (forall p :: p in files && p != path ==> out[p] == files[p])
  {
    var path := CsvPath(filename);
    AppendedCsvLines(files, path, df, path !in files);
    AppendedCsvHeaders(files, path, df, path !in files);
    if path !in files {
      assert |Contents(files, path)| == 0;
    }
  }

  /** `append_to_csv` called once per frame, in order. */
  function AppendAll<R>(files: map<string, seq<Line<R>>>, filename: string, dfs: seq<Frame<R>>): map<string, seq<Line<R>>>
    decreases |dfs|
  {
    if dfs == [] then files
    else AppendedSteps(AppendAll(files, filename, dfs[..|dfs| - 1]), filename, dfs[|dfs| - 1])
  }

  /** However many times a fresh file is appended to, it holds one header
      line, the first one, naming the first frame's columns. */
  lemma {:induction false} HeaderWrittenOnce<R>(files: map<string, seq<Line<R>>>, filename: string, dfs: seq<Frame<R>>)
    requires CsvPath(filename) !in files && |dfs| >= 1
    ensures var out := AppendAll(files, filename, dfs);
            && CsvPath(filename) in out
            && |out[CsvPath(filename)]| >= 1
            && out[CsvPath(filename)][0] == HeaderLine(dfs[0].columns)
            && HeaderCount(out[CsvPath(filename)]) == 1
    decreases |dfs|
  {
    var path := CsvPath(filename);
    var n := |dfs| - 1;
    var mid := AppendAll(files, filename, dfs[..n]);
    AppendedStepsMeaning(mid, filename, dfs[n]);
    if n == 0 {
      assert mid == files;
    } else {
      HeaderWrittenOnce(files, filename, dfs[..n]);
      assert dfs[..n][0] == dfs[0];
    }
  }

  // ---------------------------------------------------------------------------
  // get_intraday_steps_data (lines 29-48)

  /** `single_day_steps.get('activities-steps-intraday').get('dataset')`, iterated. */
  function DayDataset(resp: Object): Result<seq<Json>>
  {
    var dataset :- GetOf(Get(resp, "activities-steps-intraday"), "dataset", Null);
    Iter(dataset)
  }

  /** The rows the inner loop appends for one day's entries. */
  function EntryRows(day: int, entries: seq<Json>): Result<seq<StepRow>>
    decreases |entries|
  {
    if entries == [] then Ok([])
    else
      var prev :- EntryRows(day, entries[..|entries| - 1]);
      var entry := entries[|entries| - 1];
      var time :- GetOf(entry, "time", Null);
      var value :- GetOf(entry, "value", Null);
      Ok(prev + [StepRow(day, time, value)])
  }

  /** Everything one day contributes: the call, the dataset lookup and its rows. */
  function DayRows(api: IntradayRequest -> Result<Object>, day: int): Result<seq<StepRow>>
  {
    var resp :- api(DayRequest(day));
    var entries :- DayDataset(resp);
    EntryRows(day, entries)
  }

  /** The rows of each day, one group per day, stopping at the first failure. */
  function StepsGroups(api: IntradayRequest -> Result<Object>, days: seq<int>): Result<seq<seq<StepRow>>>
    decreases |days|
  {
    if days == [] then Ok([])
    else
      var prev :- StepsGroups(api, days[..|days| - 1]);
      var rows :- DayRows(api, days[|days| - 1]);
      Ok(prev + [rows])
  }

  /** What `get_intraday_steps_data(client, start, end)` returns. */
  function IntradaySteps(api: IntradayRequest -> Result<Object>, startDay: int, endDay: int): (r: Result<Frame<StepRow>>)
    ensures r.Ok? ==> r.value.columns == STEP_COLUMNS
  {
    var groups :- StepsGroups(api, Days(startDay, endDay));
    Ok(Frame(STEP_COLUMNS, Flatten(groups)))
  }

  /** How many dataset entries the API returned for a day (0 if the call or
      the lookup failed). */
  function DatasetSize(api: IntradayRequest -> Result<Object>, day: int): nat
  {
    match api(DayRequest(day))
    case Err(_) => 0
    case Ok(resp) => (match DayDataset(resp) case Ok(entries) => |entries| case Err(_) => 0)
  }

  function DatasetTotal(api: IntradayRequest -> Result<Object>, days: seq<int>): nat
    decreases |days|
  {
    if days == [] then 0 else DatasetTotal(api, days[..|days| - 1]) + DatasetSize(api, days[|days| - 1])
  }

  /** A day's rows exist iff every entry is a dictionary; then there is one row
      per entry, in entry order, each tagged with the day. */
  lemma {:induction false} EntryRowsMeaning(day: int, entries: seq<Json>)
    ensures EntryRows(day, entries).Ok? <==> forall i :: 0 <= i < |entries| ==> entries[i].Obj?
    ensures EntryRows(day, entries).Ok? ==>
              var rows := EntryRows(day, entries).value;
              && |rows| == |entries|
              && forall i :: 0 <= i < |entries| ==>
                   rows[i] == StepRow(day, Get(entries[i].fields, "time"), Get(entries[i].fields, "value"))
    decreases |entries|
  {
    if entries != [] {
      var n := |entries| - 1;
      EntryRowsMeaning(day, entries[..n]);
      assert forall i :: 0 <= i < n ==> entries[..n][i] == entries[i];
    }
  }

  lemma {:induction false} EntryRowsErrExtends(day: int, entries: seq<Json>, m: nat)
    requires m <= |entries| && EntryRows(day, entries[..m]).Err?
    ensures EntryRows(day, entries) == EntryRows(day, entries[..m])
    decreases |entries| - m
  {
    if m < |entries| {
      assert entries[..m + 1][..m] == entries[..m];
      EntryRowsErrExtends(day, entries, m + 1);
    } else {
      assert entries[..m] == entries;
    }
  }

  lemma {:induction false} StepsGroupsErrExtends(api: IntradayRequest -> Result<Object>, days: seq<int>, m: nat)
    requires m <= |days| && StepsGroups(api, days[..m]).Err?
    ensures StepsGroups(api, days) == StepsGroups(api, days[..m])
    decreases |days| - m
  {
    if m < |days| {
      assert days[..m + 1][..m] == days[..m];
      StepsGroupsErrExtends(api, days, m + 1);
    } else {
      assert days[..m] == days;
    }
  }

  /** The collection succeeds iff every day succeeds; then group `k` is day
      `k`'s rows. */
  lemma {:induction false} StepsGroupsMeaning(api: IntradayRequest -> Result<Object>, days: seq<int>)
    ensures StepsGroups(api, days).Ok? <==> forall k :: 0 <= k < |days| ==> DayRows(api, days[k]).Ok?
    ensures StepsGroups(api, days).Ok? ==>
              var groups := StepsGroups(api, days).value;
              && |groups| == |days|
              && forall k :: 0 <= k < |days| ==> DayRows(api, days[k]) == Ok(groups[k])
    decreases |days|
  {
    if days != [] {
      var n := |days| - 1;
      StepsGroupsMeaning(api, days[..n]);
      assert forall k :: 0 <= k < n ==> days[..n][k] == days[k];
    }
  }

  /** The frame has one row per dataset entry over all days. */
  lemma {:induction false} StepsRowCount(api: IntradayRequest -> Result<Object>, days: seq<int>)
    requires StepsGroups(api, days).Ok?
    ensures |Flatten(StepsGroups(api, days).value)| == DatasetTotal(api, days)
    decreases |days|
  {
    if days != [] {
      var n := |days| - 1;
      var prev := StepsGroups(api, days[..n]).value;
      var rows := DayRows(api, days[n]).value;
      StepsRowCount(api, days[..n]);
      FlattenSnoc(prev, rows);
      var entries := DayDataset(api(DayRequest(days[n])).value).value;
      EntryRowsMeaning(days[n], entries);
    }
  }

  /** For increasing days, rows come grouped by day in date order, and every
      row is tagged with one of the days. */
  lemma {:induction false} StepsRowsOrdered(api: IntradayRequest -> Result<Object>, days: seq<int>)
    requires Increasing(days) && StepsGroups(api, days).Ok?
    ensures var rows := Flatten(StepsGroups(api, days).value);
            && (forall i :: 0 <= i < |rows| ==> rows[i].date in days)
            && (forall i, j :: 0 <= i < j < |rows| ==> rows[i].date <= rows[j].date)
    decreases |days|
  {
    if days != [] {
      var n := |days| - 1;
      var init := days[..n];
      var prev := StepsGroups(api, init).value;
      var rows := DayRows(api, days[n]).value;
      StepsRowsOrdered(api, init);
      FlattenSnoc(prev, rows);
      var entries := DayDataset(api(DayRequest(days[n])).value).value;
      EntryRowsMeaning(days[n], entries);
      var all := Flatten(prev) + rows;
      assert forall i :: 0 <= i < |Flatten(prev)| ==> all[i].date in init && all[i].date < days[n];
      assert forall i :: |Flatten(prev)| <= i < |all| ==> all[i].date == days[n];
    }
  }

  /** Row `i` of day `k`'s group sits after the rows of the earlier days and
      is built from entry `i` of that day's dataset. */
  lemma StepsRowAt(api: IntradayRequest -> Result<Object>, days: seq<int>, k: nat, i: nat)
    requires StepsGroups(api, days).Ok?
    requires k < |days| && i < DatasetSize(api, days[k])
    ensures var groups := StepsGroups(api, days).value;
            && |groups| == |days|
            && api(DayRequest(days[k])).Ok?
            && DayDataset(api(DayRequest(days[k])).value).Ok?
            && var entry := DayDataset(api(DayRequest(days[k])).value).value[i];
               && entry.Obj?
               && TotalLength(groups[..k]) + i < |Flatten(groups)|
               && Flatten(groups)[TotalLength(groups[..k]) + i]
                  == StepRow(days[k], Get(entry.fields, "time"), Get(entry.fields, "value"))
  {
    var groups := StepsGroups(api, days).value;
    StepsGroupsMeaning(api, days);
    var entries := DayDataset(api(DayRequest(days[k])).value).value;
    EntryRowsMeaning(days[k], entries);
    FlattenAt(groups, k, i);
  }

  /** Over the inclusive range: rows stay within it, come in date order, and
      number as many as the datasets' entries together. */
  lemma IntradayStepsMeaning(api: IntradayRequest -> Result<Object>, startDay: int, endDay: int)
    requires IntradaySteps(api, startDay, endDay).Ok?
    ensures var rows := IntradaySteps(api, startDay, endDay).value.rows;
            && |rows| == DatasetTotal(api, Days(startDay, endDay))
            && (forall a :: 0 <= a < |rows| ==> startDay <= rows[a].date <= endDay)
            && (forall a, b :: 0 <= a < b < |rows| ==> rows[a].date <= rows[b].date)
  {
    var days := Days(startDay, endDay);
    DaysContents(startDay, endDay);
    StepsRowCount(api, days);
    StepsRowsOrdered(api, days);
  }

  /** The inner loop of `get_intraday_steps_data` for one day: the call, the
      dataset lookup, and one row per entry. */
  method FetchDay(api: IntradayRequest -> Result<Object>, date: int) returns (result: Result<seq<StepRow>>)
    ensures result == DayRows(api, date)
  {
    var reply := api(IntradayRequest(RESOURCE, date, DETAIL_LEVEL));
    if reply.Err? {
      return Err(reply.error);
    }
    var datasetOr := GetOf(Get(reply.value, "activities-steps-intraday"), "dataset", Null);
    if datasetOr.Err? {
      return Err(datasetOr.error);
    }
    var entriesOr := Iter(datasetOr.value);
    if entriesOr.Err? {
      return Err(entriesOr.error);
    }
    var entries := entriesOr.value;
    var rows: seq<StepRow> := [];
    for j := 0 to |entries|
      invariant EntryRows(date, entries[..j]) == Ok(rows)
    {
      var entry := entries[j];
      assert entries[..j + 1][..j] == entries[..j];
      var time := GetOf(entry, "time", Null);
      if time.Err? {
        EntryRowsErrExtends(date, entries, j + 1);
        return Err(time.error);
      }
      // `entry` is a dictionary now, so its second `get` cannot raise
      var value := GetOf(entry, "value", Null).value;
      rows := rows + [StepRow(date, time.value, value)];
    }
    assert entries[..|entries|] == entries;
    result := Ok(rows);
  }

  /** The outer loop of `get_intraday_steps_data`: one call per day of the
      inclusive range, in order, each with the steps resource and the
      15-minute detail level; the result is `IntradaySteps`. On failure the
      calls made are those up to and including the failing day. */
  method GetIntradayStepsData(api: IntradayRequest -> Result<Object>, startDay: int, endDay: int)
    returns (result: Result<Frame<StepRow>>, calls: seq<IntradayRequest>)
    ensures result == IntradaySteps(api, startDay, endDay)
    ensures |calls| <= |Days(startDay, endDay)|
    ensures forall i :: 0 <= i < |calls| ==>
              calls[i] == IntradayRequest(RESOURCE, Days(startDay, endDay)[i], DETAIL_LEVEL)
    ensures result.Ok? ==> |calls| == |Days(startDay, endDay)|
    ensures result.Err? ==>
              && |calls| >= 1
              && StepsGroups(api, Days(startDay, endDay)[..|calls| - 1]).Ok?
              && DayRows(api, Days(startDay, endDay)[|calls| - 1]).Err?
  {
    var dates := Days(startDay, endDay);
    var stepsData: seq<StepRow> := [];
    calls := [];
    ghost var groups: seq<seq<StepRow>> := [];
    for k := 0 to |dates|
      invariant |calls| == k
      invariant forall i :: 0 <= i < k ==> calls[i] == DayRequest(dates[i])
      invariant StepsGroups(api, dates[..k]) == Ok(groups)
      invariant stepsData == Flatten(groups)
    {
      var date := dates[k];
      assert dates[..k + 1][..k] == dates[..k];
      calls := calls + [IntradayRequest(RESOURCE, date, DETAIL_LEVEL)];
      var dayRows := FetchDay(api, date);
      if dayRows.Err? {
        StepsGroupsErrExtends(api, dates, k + 1);
        result := Err(dayRows.error);
        return;
      }
      FlattenSnoc(groups, dayRows.value);
      stepsData := stepsData + dayRows.value;
      groups := groups + [dayRows.value];
    }
    assert dates[..|dates|] == dates;
    result := Ok(Frame(STEP_COLUMNS, stepsData));
  }
}
