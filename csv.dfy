/** A pandas DataFrame as the collectors build it, and what
    `df.to_csv(f, header=h, index=False)` writes: an optional header line with
    the column names, then one line per row carrying only that row's cells.
    Character-level CSV quoting is not modelled: a line is a value. */
module Csv {
  import opened Files

  /** A table with named columns; each row is one record of the collector. */
  datatype Frame<R> = Frame(columns: seq<string>, rows: seq<R>)

  /** One line of a CSV file. */
  datatype Line<R> = HeaderLine(names: seq<string>) | RowLine(row: R)

  /** `'{}.csv'.format(filename)`. */
  function CsvPath(filename: string): (p: string)
    ensures |p| == |filename| + 4 && p != filename
  {
    filename + ".csv"
  }

  /** The lines `df.to_csv(f, header=header, index=False)` writes. */
  function ToCsv<R>(df: Frame<R>, header: bool): (lines: seq<Line<R>>)
    ensures |lines| == |df.rows| + (if header then 1 else 0)
    ensures header ==> lines[0] == HeaderLine(df.columns)
    ensures forall i :: 0 <= i < |df.rows| ==> lines[i + (if header then 1 else 0)] == RowLine(df.rows[i])
  {
    (if header then [HeaderLine(df.columns)] else []) + RowLines(df.rows)
  }

  /** One line per row, no index column. */
  function RowLines<R>(rows: seq<R>): (lines: seq<Line<R>>)
    ensures |lines| == |rows|
    ensures forall i :: 0 <= i < |rows| ==> lines[i] == RowLine(rows[i])
  {
    seq(|rows|, i requires 0 <= i < |rows| => RowLine(rows[i]))
  }

  /** How many header lines a file holds. */
  function HeaderCount<R>(lines: seq<Line<R>>): nat
    decreases |lines|
  {
    if lines == [] then 0 else (if lines[0].HeaderLine? then 1 else 0) + HeaderCount(lines[1..])
  }

  lemma {:induction false} HeaderCountConcat<R>(a: seq<Line<R>>, b: seq<Line<R>>)
    ensures HeaderCount(a + b) == HeaderCount(a) + HeaderCount(b)
    decreases |a|
  {
    if a != [] {
      assert (a + b)[1..] == a[1..] + b;
      HeaderCountConcat(a[1..], b);
    } else {
      assert a + b == b;
    }
  }

  lemma {:induction false} RowLinesHaveNoHeader<R>(rows: seq<R>)
    ensures HeaderCount(RowLines(rows)) == 0
    decreases |rows|
  {
    if rows != [] {
      assert RowLines(rows)[1..] == RowLines(rows[1..]);
      RowLinesHaveNoHeader(rows[1..]);
    }
  }

  /** A write adds a header line exactly when asked to, and only one. */
  lemma ToCsvHeaderCount<R>(df: Frame<R>, header: bool)
    ensures HeaderCount(ToCsv(df, header)) == if header then 1 else 0
  {
    var head: seq<Line<R>> := if header then [HeaderLine(df.columns)] else [];
    HeaderCountConcat(head, RowLines(df.rows));
    RowLinesHaveNoHeader(df.rows);
    if header {
      assert head[1..] == [];
    }
  }

  /** After the old lines come exactly the written ones. */
  lemma ConcatLinesPrefix<R>(old_: seq<Line<R>>, df: Frame<R>, header: bool)
    ensures |old_ + ToCsv(df, header)| == |old_| + |df.rows| + (if header then 1 else 0)
    ensures (old_ + ToCsv(df, header))[..|old_|] == old_
  {
  }

  /** The header, when asked for, comes right after the old lines. */
  lemma ConcatLinesHeader<R>(old_: seq<Line<R>>, df: Frame<R>)
    ensures (old_ + ToCsv(df, true))[|old_|] == HeaderLine(df.columns)
  {
    assert ToCsv(df, true)[0] == HeaderLine(df.columns);
  }

  /** The rows end the file, in frame order. */
  lemma ConcatLinesRows<R>(old_: seq<Line<R>>, df: Frame<R>, header: bool)
    ensures forall i :: 0 <= i < |df.rows| ==>
              (old_ + ToCsv(df, header))[|old_| + (if header then 1 else 0) + i] == RowLine(df.rows[i])
  {
    var lines := ToCsv(df, header);
    var head := if header then 1 else 0;
    assert (old_ + lines)[|old_| + head..] == lines[head..];
    assert lines[head..] == RowLines(df.rows);
  }

  /** From position `start` to its end, `lines` holds the rows' lines in order. */
  ghost predicate EndsWithRows<R>(lines: seq<Line<R>>, start: nat, rows: seq<R>) {
    && |lines| == start + |rows|
    && forall i :: 0 <= i < |rows| ==> lines[start + i] == RowLine(rows[i])
  }

  /** Appending a write to a file: the old lines stay as a prefix, the header
      (when asked for) comes right after them, then the rows in order. */
  lemma AppendedCsvLines<R>(files: map<string, seq<Line<R>>>, path: string, df: Frame<R>, header: bool)
    ensures |Appended(files, path, ToCsv(df, header))[path]| == |Contents(files, path)| + |df.rows| + (if header then 1 else 0)
    ensures Appended(files, path, ToCsv(df, header))[path][..|Contents(files, path)|] == Contents(files, path)
    ensures header ==> Appended(files, path, ToCsv(df, header))[path][|Contents(files, path)|] == HeaderLine(df.columns)
    ensures EndsWithRows(Appended(files, path, ToCsv(df, header))[path], |Contents(files, path)| + (if header then 1 else 0), df.rows)
  {
    var old_ := Contents(files, path);
    var lines := ToCsv(df, header);
    AppendedPath(files, path, lines);
    ConcatLinesPrefix(old_, df, header);
    ConcatLinesRows(old_, df, header);
    if header {
      ConcatLinesHeader(old_, df);
    }
  }

  /** Appending a write adds one header line exactly when asked to. */
  lemma AppendedCsvHeaders<R>(files: map<string, seq<Line<R>>>, path: string, df: Frame<R>, header: bool)
    ensures HeaderCount(Appended(files, path, ToCsv(df, header))[path])
         == HeaderCount(Contents(files, path)) + (if header then 1 else 0)
  {
    var lines := ToCsv(df, header);
    assert Appended(files, path, lines)[path] == Contents(files, path) + lines;
    HeaderCountConcat(Contents(files, path), lines);
    ToCsvHeaderCount(df, header);
  }
}
