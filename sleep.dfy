/** The sleep collector (fitbit-sleep/get_data.py): for every day from the
    base date through today, fetch the day's sleep log, keep only the main
    sleep records (naps are skipped), and build one 15-column row per record
    from the record's own fields and the day's shared stage summary. */
module SleepCollector {
  import opened Json
  import opened Seqs
  import opened Calendar
  import opened Csv

  /** The record fields copied into the first eleven columns, in order. */
  const ACTIVITY_KEYS: seq<string> := [
    "dateOfSleep", "efficiency", "startTime", "endTime", "timeInBed",
    "minutesAsleep", "restlessCount", "minutesAfterWakeup",
    "minutesToFallAsleep", "minutesAwake", "restlessDuration"]

  /** The day's `summary.stages` entries copied into the last four columns. */
  const STAGE_KEYS: seq<string> := ["deep", "light", "rem", "wake"]

  /** The DataFrame's column list. */
  const SLEEP_COLUMNS: seq<string> := [
    "date", "efficiency", "startTime", "endTime", "timeInBed",
    "minutesAsleep", "restlessCount", "minutesAfterWakeup",
    "minutesToFallAsleep", "minutesAwake", "restlessDuration",
    "deep", "light", "rem", "wake"]

  /** The tuple appended for one main sleep record. */
  function SleepRow(activity: Object, stages: Object): (row: seq<Json>)
    ensures |row| == |SLEEP_COLUMNS| == 15
    ensures forall i :: 0 <= i < |ACTIVITY_KEYS| ==> row[i] == Get(activity, ACTIVITY_KEYS[i])
    ensures forall j :: 0 <= j < |STAGE_KEYS| ==> row[|ACTIVITY_KEYS| + j] == Get(stages, STAGE_KEYS[j])
  {
    seq(|ACTIVITY_KEYS|, i requires 0 <= i < |ACTIVITY_KEYS| => Get(activity, ACTIVITY_KEYS[i]))
      + StageValues(stages)
  }

  /** `stages.get('deep')`, `stages.get('light')`, `stages.get('rem')`, `stages.get('wake')`. */
  function StageValues(stages: Object): (vs: seq<Json>)
    ensures |vs| == |STAGE_KEYS|
    ensures forall j :: 0 <= j < |STAGE_KEYS| ==> vs[j] == Get(stages, STAGE_KEYS[j])
  {
    seq(|STAGE_KEYS|, j requires 0 <= j < |STAGE_KEYS| => Get(stages, STAGE_KEYS[j]))
  }

  /** Each column is filled from the key of the same name, except `date`,
      which comes from `dateOfSleep`. */
  lemma ColumnsNameTheirSources()
    ensures SLEEP_COLUMNS[0] == "date" && ACTIVITY_KEYS[0] == "dateOfSleep"
    ensures forall i :: 1 <= i < |ACTIVITY_KEYS| ==> SLEEP_COLUMNS[i] == ACTIVITY_KEYS[i]
    ensures forall j :: 0 <= j < |STAGE_KEYS| ==> SLEEP_COLUMNS[|ACTIVITY_KEYS| + j] == STAGE_KEYS[j]
  {
  }

  /** A record that passes `if not sleep_activity.get('isMainSleep'): continue`. */
  predicate IsMainSleep(activity: Json) {
    activity.Obj? && Truthy(Get(activity.fields, "isMainSleep"))
  }

  /** The main sleep records, in API order. */
  function MainSleeps(activities: seq<Json>): (r: seq<Json>)
    ensures |r| <= |activities|
    ensures forall i :: 0 <= i < |r| ==> IsMainSleep(r[i])
    decreases |activities|
  {
    if activities == [] then []
    else
      var n := |activities| - 1;
      MainSleeps(activities[..n]) + (if IsMainSleep(activities[n]) then [activities[n]] else [])
  }

  /** The filter keeps exactly the main sleep records: nothing else gets in
      and none of them is dropped. */
  lemma {:induction false} MainSleepsMembers(activities: seq<Json>)
    ensures forall x :: x in MainSleeps(activities) <==> x in activities && IsMainSleep(x)
    decreases |activities|
  {
    if activities != [] {
      var n := |activities| - 1;
      MainSleepsMembers(activities[..n]);
      assert activities == activities[..n] + [activities[n]];
    }
  }

  /** A single record is kept exactly when it is a main sleep. */
  lemma MainSleepsSingle(x: Json)
    ensures MainSleeps([x]) == if IsMainSleep(x) then [x] else []
  {
    assert [x][..0] == [];
  }

  /** The filter keeps API order: filtering two batches one after the other
      gives the kept records of the first, then those of the second. */
  lemma {:induction false} MainSleepsConcat(a: seq<Json>, b: seq<Json>)
    ensures MainSleeps(a + b) == MainSleeps(a) + MainSleeps(b)
    decreases |b|
  {
    if b == [] {
      assert a + b == a;
    } else {
      var n := |b| - 1;
      var ab := a + b;
      assert |ab| - 1 == |a| + n;
      assert ab[..|a| + n] == a + b[..n];
      assert ab[|a| + n] == b[n];
      var kept := if IsMainSleep(b[n]) then [b[n]] else [];
      assert MainSleeps(ab) == MainSleeps(a + b[..n]) + kept;
      assert MainSleeps(b) == MainSleeps(b[..n]) + kept;
      MainSleepsConcat(a, b[..n]);
    }
  }

  /** The rows the inner loop appends for one day's records. */
  function MainSleepRows(activities: seq<Json>, stages: Json): Result<seq<seq<Json>>>
    decreases |activities|
  {
    if activities == [] then Ok([])
    else
      var prev :- MainSleepRows(activities[..|activities| - 1], stages);
      var activity := activities[|activities| - 1];
      var isMain :- GetOf(activity, "isMainSleep", Null);
      if !Truthy(isMain) then Ok(prev)
      else if stages.Obj? then Ok(prev + [SleepRow(activity.fields, stages.fields)])
      else Err(AttributeError)
  }

  /** Everything one day contributes: the call, the stage summary, the records. */
  function DaySleepRows(api: int -> Result<Object>, day: int): Result<seq<seq<Json>>>
  {
    var resp :- api(day);
    var stages :- GetOf(Get(resp, "summary"), "stages", Null);
    var activities :- Iter(Get(resp, "sleep"));
    MainSleepRows(activities, stages)
  }

  /** The rows of each day, one group per day, stopping at the first failure. */
  function SleepGroups(api: int -> Result<Object>, days: seq<int>): Result<seq<seq<seq<Json>>>>
    decreases |days|
  {
    if days == [] then Ok([])
    else
      var prev :- SleepGroups(api, days[..|days| - 1]);
      var rows :- DaySleepRows(api, days[|days| - 1]);
      Ok(prev + [rows])
  }

  /** What `get_sleep_data(client, base_date)` returns when today is `today`. */
  function SleepData(api: int -> Result<Object>, baseDay: int, today: int): (r: Result<Frame<seq<Json>>>)
    ensures r.Ok? ==> r.value.columns == SLEEP_COLUMNS
  {
    var groups :- SleepGroups(api, Days(baseDay, today));
    Ok(Frame(SLEEP_COLUMNS, Flatten(groups)))
  }

  /** How many main sleep records the API returned for a day. */
  function MainSleepCount(api: int -> Result<Object>, day: int): nat
  {
    match api(day)
    case Err(_) => 0
    case Ok(resp) => (match Iter(Get(resp, "sleep")) case Ok(activities) => |MainSleeps(activities)| case Err(_) => 0)
  }

  function MainSleepTotal(api: int -> Result<Object>, days: seq<int>): nat
    decreases |days|
  {
    if days == [] then 0 else MainSleepTotal(api, days[..|days| - 1]) + MainSleepCount(api, days[|days| - 1])
  }

  /** A day's records yield rows iff every record is a dictionary and, when
      there is a main sleep, the stage summary is one too; then there is one
      row per main sleep, in API order, naps yield none, and every row carries
      the same stage values. */
  lemma {:induction false} MainSleepRowsMeaning(activities: seq<Json>, stages: Json)
    ensures MainSleepRows(activities, stages).Ok? <==>
              && (forall i :: 0 <= i < |activities| ==> activities[i].Obj?)
              && (MainSleeps(activities) != [] ==> stages.Obj?)
    ensures MainSleepRows(activities, stages).Ok? ==>
              var rows := MainSleepRows(activities, stages).value;
              && |rows| == |MainSleeps(activities)|
              && forall i :: 0 <= i < |rows| ==>
                   && stages.Obj?
                   && rows[i] == SleepRow(MainSleeps(activities)[i].fields, stages.fields)
                   && rows[i][|ACTIVITY_KEYS|..] == StageValues(stages.fields)
    decreases |activities|
  {
    if activities != [] {
      var n := |activities| - 1;
      MainSleepRowsMeaning(activities[..n], stages);
      assert forall i :: 0 <= i < n ==> activities[..n][i] == activities[i];
      var kept := if IsMainSleep(activities[n]) then [activities[n]] else [];
      assert MainSleeps(activities) == MainSleeps(activities[..n]) + kept;
      if MainSleepRows(activities, stages).Ok? {
        var rows := MainSleepRows(activities, stages).value;
        forall i | 0 <= i < |rows|
          ensures rows[i][|ACTIVITY_KEYS|..] == StageValues(stages.fields)
        {
          assert rows[i] == SleepRow(MainSleeps(activities)[i].fields, stages.fields);
        }
      }
    }
  }

  lemma {:induction false} MainSleepRowsErrExtends(activities: seq<Json>, stages: Json, m: nat)
    requires m <= |activities| && MainSleepRows(activities[..m], stages).Err?
    ensures MainSleepRows(activities, stages) == MainSleepRows(activities[..m], stages)
    decreases |activities| - m
  {
    if m < |activities| {
      assert activities[..m + 1][..m] == activities[..m];
      MainSleepRowsErrExtends(activities, stages, m + 1);
    } else {
      assert activities[..m] == activities;
    }
  }

  lemma {:induction false} SleepGroupsErrExtends(api: int -> Result<Object>, days: seq<int>, m: nat)
    requires m <= |days| && SleepGroups(api, days[..m]).Err?
    ensures SleepGroups(api, days) == SleepGroups(api, days[..m])
    decreases |days| - m
  {
    if m < |days| {
      assert days[..m + 1][..m] == days[..m];
      SleepGroupsErrExtends(api, days, m + 1);
    } else {
      assert days[..m] == days;
    }
  }

  /** The collection succeeds iff every day succeeds; then group `k` holds day
      `k`'s rows, so rows are ordered by day, then by API order. */
  lemma {:induction false} SleepGroupsMeaning(api: int -> Result<Object>, days: seq<int>)
    ensures SleepGroups(api, days).Ok? <==> forall k :: 0 <= k < |days| ==> DaySleepRows(api, days[k]).Ok?
    ensures SleepGroups(api, days).Ok? ==>
              var groups := SleepGroups(api, days).value;
              && |groups| == |days|
              && forall k :: 0 <= k < |days| ==> DaySleepRows(api, days[k]) == Ok(groups[k])
    decreases |days|
  {
    if days != [] {
      var n := |days| - 1;
      SleepGroupsMeaning(api, days[..n]);
      assert forall k :: 0 <= k < n ==> days[..n][k] == days[k];
    }
  }

  /** One row per main sleep record over all days. */
  lemma {:induction false} SleepRowCount(api: int -> Result<Object>, days: seq<int>)
    requires SleepGroups(api, days).Ok?
    ensures |Flatten(SleepGroups(api, days).value)| == MainSleepTotal(api, days)
    decreases |days|
  {
    if days != [] {
      var n := |days| - 1;
      var prev := SleepGroups(api, days[..n]).value;
      var rows := DaySleepRows(api, days[n]).value;
      SleepRowCount(api, days[..n]);
      FlattenSnoc(prev, rows);
      var resp := api(days[n]).value;
      MainSleepRowsMeaning(Iter(Get(resp, "sleep")).value, GetOf(Get(resp, "summary"), "stages", Null).value);
    }
  }

  /** Row `i` of day `k` sits after the rows of the earlier days and is that
      day's `i`-th row (see `MainSleepRowsMeaning` for what that row holds). */
  lemma SleepRowAt(api: int -> Result<Object>, days: seq<int>, k: nat, i: nat)
    requires SleepGroups(api, days).Ok? && k < |days|
    requires DaySleepRows(api, days[k]).Ok? && i < |DaySleepRows(api, days[k]).value|
    ensures var groups := SleepGroups(api, days).value;
            && |groups| == |days|
            && TotalLength(groups[..k]) + i < |Flatten(groups)|
            && Flatten(groups)[TotalLength(groups[..k]) + i] == DaySleepRows(api, days[k]).value[i]
  {
    SleepGroupsMeaning(api, days);
    FlattenAt(SleepGroups(api, days).value, k, i);
  }

  /** Every row of a day has the fifteen columns. */
  lemma DaySleepRowsWidth(api: int -> Result<Object>, day: int)
    requires DaySleepRows(api, day).Ok?
    ensures forall i :: 0 <= i < |DaySleepRows(api, day).value| ==> |DaySleepRows(api, day).value[i]| == |SLEEP_COLUMNS|
  {
    var resp := api(day).value;
    MainSleepRowsMeaning(Iter(Get(resp, "sleep")).value, GetOf(Get(resp, "summary"), "stages", Null).value);
  }

  /** `get_sleep_data` as a whole: as many rows as main sleep records from the
      base date through today, each with the fifteen named columns. */
  lemma SleepDataMeaning(api: int -> Result<Object>, baseDay: int, today: int)
    requires SleepData(api, baseDay, today).Ok?
    ensures var df := SleepData(api, baseDay, today).value;
            && df.columns == SLEEP_COLUMNS
            && |df.rows| == MainSleepTotal(api, Days(baseDay, today))
            && forall r :: 0 <= r < |df.rows| ==> |df.rows[r]| == |SLEEP_COLUMNS|
  {
    var days := Days(baseDay, today);
    var groups := SleepGroups(api, days).value;
    SleepRowCount(api, days);
    SleepGroupsMeaning(api, days);
    forall k | 0 <= k < |groups|
      ensures forall i :: 0 <= i < |groups[k]| ==> |groups[k][i]| == |SLEEP_COLUMNS|
    {
      DaySleepRowsWidth(api, days[k]);
    }
    forall r | 0 <= r < |Flatten(groups)| ensures |Flatten(groups)[r]| == |SLEEP_COLUMNS| {
      RowWidth(groups, r);
    }
  }

  /** Every row of every group is a `SleepRow`, so it has fifteen fields. */
  lemma {:induction false} RowWidth(groups: seq<seq<seq<Json>>>, r: nat)
    requires forall k :: 0 <= k < |groups| ==> forall i :: 0 <= i < |groups[k]| ==> |groups[k][i]| == |SLEEP_COLUMNS|
    requires r < |Flatten(groups)|
    ensures |Flatten(groups)[r]| == |SLEEP_COLUMNS|
    decreases |groups|
  {
    var n := |groups| - 1;
    FlattenSnoc(groups[..n], groups[n]);
    assert groups[..n] + [groups[n]] == groups;
    if r >= |Flatten(groups[..n])| {
      assert Flatten(groups)[r] == groups[n][r - |Flatten(groups[..n])|];
    } else {
      RowWidth(groups[..n], r);
    }
  }

  /** The inner loop of `get_sleep_data` for one day (lines 36-57). */
  method FetchSleepDay(api: int -> Result<Object>, date: int) returns (result: Result<seq<seq<Json>>>)
    ensures result == DaySleepRows(api, date)
  {
    var reply := api(date);
    if reply.Err? {
      return Err(reply.error);
    }
    var stagesOr := GetOf(Get(reply.value, "summary"), "stages", Null);
    if stagesOr.Err? {
      return Err(stagesOr.error);
    }
    var stages := stagesOr.value;
    var activitiesOr := Iter(Get(reply.value, "sleep"));
    if activitiesOr.Err? {
      return Err(activitiesOr.error);
    }
    var activities := activitiesOr.value;
    var rows: seq<seq<Json>> := [];
    for j := 0 to |activities|
      invariant MainSleepRows(activities[..j], stages) == Ok(rows)
    {
      var activity := activities[j];
      assert activities[..j + 1][..j] == activities[..j];
      var isMain := GetOf(activity, "isMainSleep", Null);
      if isMain.Err? {
        MainSleepRowsErrExtends(activities, stages, j + 1);
        return Err(isMain.error);
      }
      // ignore naps
      if !Truthy(isMain.value) {
        continue;
      }
      if !stages.Obj? {
        MainSleepRowsErrExtends(activities, stages, j + 1);
        return Err(AttributeError);
      }
      rows := rows + [SleepRow(activity.fields, stages.fields)];
    }
    assert activities[..|activities|] == activities;
    result := Ok(rows);
  }

  /** The outer loop of `get_sleep_data`: one `get_sleep` call per day from the
      base date through today, in order; the result is `SleepData`. On
      failure the calls made are those up to and including the failing day. */
  method GetSleepData(api: int -> Result<Object>, baseDay: int, today: int)
    returns (result: Result<Frame<seq<Json>>>, calls: seq<int>)
    ensures result == SleepData(api, baseDay, today)
    ensures |calls| <= |Days(baseDay, today)| && calls == Days(baseDay, today)[..|calls|]
    ensures result.Ok? ==> calls == Days(baseDay, today)
    ensures result.Err? ==>
              && |calls| >= 1
              && SleepGroups(api, calls[..|calls| - 1]).Ok?
              && DaySleepRows(api, calls[|calls| - 1]).Err?
  {
    var dates := Days(baseDay, today);
    var sleepData: seq<seq<Json>> := [];
    calls := [];
    ghost var groups: seq<seq<seq<Json>>> := [];
    for k := 0 to |dates|
      invariant calls == dates[..k]
      invariant SleepGroups(api, dates[..k]) == Ok(groups)
      invariant sleepData == Flatten(groups)
    {
      var date := dates[k];
      assert dates[..k + 1] == dates[..k] + [date];
      calls := calls + [date];
      var dayRows := FetchSleepDay(api, date);
      if dayRows.Err? {
        assert dates[..k + 1][..k] == dates[..k];
        SleepGroupsErrExtends(api, dates, k + 1);
        result := Err(dayRows.error);
        return;
      }
      FlattenSnoc(groups, dayRows.value);
      sleepData := sleepData + dayRows.value;
      groups := groups + [dayRows.value];
    }
    assert dates[..|dates|] == dates;
    result := Ok(Frame(SLEEP_COLUMNS, sleepData));
  }
}
