/** The shared CSV helper of the fitbit scripts (fitbit/common.py). Unlike the
    copy in fitbit_steps/get_steps_data.py, it decides whether to write the
    header by testing the path `filename`, while the rows go to
    `filename.csv`. */
module FitbitCommon {
  import opened Files
  import opened Csv

  /** The filesystem after `append_to_csv(filename, df)` as written. */
  function AppendedCommon<R>(files: map<string, seq<Line<R>>>, filename: string, df: Frame<R>): map<string, seq<Line<R>>>
  {
    Appended(files, CsvPath(filename), ToCsv(df, filename !in files))
  }

  method AppendToCsv<R>(fs: FileStore<Line<R>>, filename: string, df: Frame<R>)
    modifies fs
    ensures fs.files == AppendedCommon(old(fs.files), filename, df)
  {
    var shouldWriteHeader := if fs.Exists(filename) then false else true;
    fs.Append(CsvPath(filename), ToCsv(df, shouldWriteHeader));
  }

  /** One append: the old content of `filename.csv` stays as a prefix, then the
      header line with the frame's column names exactly when `filename` (not
      `filename.csv`) is absent, then the frame's rows in order with no index
      column; the path `filename` itself is never created. */
  lemma AppendedCommonMeaning<R>(files: map<string, seq<Line<R>>>, filename: string, df: Frame<R>)
    ensures var path := CsvPath(filename);
            var old_ := Contents(files, path);
            var out := AppendedCommon(files, filename, df);
            && path in out
            && out[path][..|old_|] == old_
            && |out[path]| == |old_| + |df.rows| + (if filename in files then 0 else 1)
            && (filename !in files ==> out[path][|old_|] == HeaderLine(df.columns))
            && EndsWithRows(out[path], |old_| + (if filename !in files then 1 else 0), df.rows)
            && HeaderCount(out[path]) == HeaderCount(old_) + (if filename in files then 0 else 1)
            && (filename in out <==> filename in files)
            && (forall p :: p in files && p != path ==> out[p] == files[p])
  {
    AppendedCsvLines(files, CsvPath(filename), df, filename !in files);
    AppendedCsvHeaders(files, CsvPath(filename), df, filename !in files);
  }

  /** `append_to_csv` called once per frame, in order. */
  function AppendAll<R>(files: map<string, seq<Line<R>>>, filename: string, dfs: seq<Frame<R>>): map<string, seq<Line<R>>>
    decreases |dfs|
  {
    if dfs == [] then files
    else AppendedCommon(AppendAll(files, filename, dfs[..|dfs| - 1]), filename, dfs[|dfs| - 1])
  }

  /** As written, when no file is named plain `filename` (the usual case, since
      only `filename.csv` is ever written) every call appends another header:
      after `n` calls `filename.csv` holds `n` more header lines than before. */
  lemma {:induction false} HeaderOnEveryAppend<R>(files: map<string, seq<Line<R>>>, filename: string, dfs: seq<Frame<R>>)
    requires filename !in files
    ensures var out := AppendAll(files, filename, dfs);
            && filename !in out
            && HeaderCount(Contents(out, CsvPath(filename)))
               == HeaderCount(Contents(files, CsvPath(filename))) + |dfs|
    decreases |dfs|
  {
    if dfs != [] {
      var n := |dfs| - 1;
      var mid := AppendAll(files, filename, dfs[..n]);
      HeaderOnEveryAppend(files, filename, dfs[..n]);
      AppendedCommonMeaning(mid, filename, dfs[n]);
    }
  }

  /** As written, when a file named plain `filename` exists no header is ever
      written, even to a `filename.csv` that does not exist yet. */
  lemma {:induction false} HeaderNeverWrittenWhenBareExists<R>(files: map<string, seq<Line<R>>>, filename: string, dfs: seq<Frame<R>>)
    requires filename in files
    ensures var out := AppendAll(files, filename, dfs);
            && filename in out
            && HeaderCount(Contents(out, CsvPath(filename))) == HeaderCount(Contents(files, CsvPath(filename)))
    decreases |dfs|
  {
    if dfs != [] {
      var n := |dfs| - 1;
      var mid := AppendAll(files, filename, dfs[..n]);
      HeaderNeverWrittenWhenBareExists(files, filename, dfs[..n]);
      AppendedCommonMeaning(mid, filename, dfs[n]);
    }
  }

  /** The concrete case: two appends of `data/steps` to an empty directory leave
      two header lines in `data/steps.csv`. */
  lemma TwoAppendsTwoHeaders(df1: Frame<int>, df2: Frame<int>)
    ensures HeaderCount(Contents(AppendAll(map[], "data/steps", [df1, df2]), "data/steps.csv")) == 2
  {
    var empty: map<string, seq<Line<int>>> := map[];
    HeaderOnEveryAppend(empty, "data/steps", [df1, df2]);
    assert CsvPath("data/steps") == "data/steps.csv";
    assert Contents(empty, "data/steps.csv") == [];
  }
}
