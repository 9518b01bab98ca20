/** The exporters: `save_df`, which writes a whole table in one of several
    formats, and `save_df_stream`, which writes it part by part. */
module Exporters {
  import opened Values
  import opened Text
  import opened Chunking
  import opened Files

  /** The format names `save_df` accepts once lowercased. */
  const SaveFormats: set<string> := {"csv", "json", "parquet", "xlsx", "excel"}

  /** `save_df(df, out_path, fmt)`: the write it makes, which replaces the
      file, or the error it raises, without writing, for any other format.
      The format is lowercased first, and the message quotes the lowercased
      name. */
  function SaveDf(df: Table, outPath: string, fmt: string): (r: Result<Write>)
    ensures r.Ok? <==> Lower(fmt) in SaveFormats
    ensures r.Ok? ==> r.value.path == outPath && r.value.mode == Overwrite && r.value.rows == df
    ensures Lower(fmt) == "csv" ==> r.Ok? && r.value.encoding == Csv(true)
    ensures Lower(fmt) == "json" ==> r.Ok? && r.value.encoding == JsonRecords
    ensures Lower(fmt) == "parquet" ==> r.Ok? && r.value.encoding == Parquet
    ensures Lower(fmt) in {"xlsx", "excel"} ==> r.Ok? && r.value.encoding == Excel
    ensures r.Err? ==> r.error == ValueError("Format " + Lower(fmt) + " not supported")
  {
    var f := Lower(fmt);
    if f == "csv" then Ok(Write(outPath, Overwrite, Csv(true), df))
    else if f == "json" then Ok(Write(outPath, Overwrite, JsonRecords, df))
    else if f == "parquet" then Ok(Write(outPath, Overwrite, Parquet, df))
    else if f == "xlsx" || f == "excel" then Ok(Write(outPath, Overwrite, Excel, df))
    else Err(ValueError("Format " + f + " not supported"))
  }

  /** The format is matched case-insensitively: a name and its lowercase
      form give the same write or the same error. */
  lemma SaveDfCaseInsensitive(df: Table, outPath: string, fmt: string)
    ensures SaveDf(df, outPath, fmt) == SaveDf(df, outPath, Lower(fmt))
  {
    LowerIdempotent(fmt);
  }

  /** `"CSV"` and `"Excel"` are accepted by `save_df`. */
  lemma SaveDfUpperCase(df: Table, outPath: string)
    ensures SaveDf(df, outPath, "CSV") == Ok(Write(outPath, Overwrite, Csv(true), df))
    ensures SaveDf(df, outPath, "Excel") == SaveDf(df, outPath, "xlsx")
  {
    assert Lower("CSV") == "csv";
    assert Lower("Excel") == "excel";
    assert Lower("xlsx") == "xlsx";
  }

  /** The error `save_df_stream` raises for a format it cannot write. */
  const StreamFormatError := ValueError("Format not supported in save_df_stream")

  /** The file part `i` of a parquet export goes to: `out_path.part{i}.parquet`. */
  function PartPath(outPath: string, i: nat): (p: string)
    ensures |p| > |outPath|
    ensures p[..|outPath|] == outPath
  {
    outPath + ".part" + Decimal(i) + ".parquet"
  }

  /** Distinct parts go to distinct files, none of them `out_path` itself,
      so no part overwrites another. */
  lemma PartPathsDistinct(outPath: string, i: nat, j: nat)
    ensures PartPath(outPath, i) != outPath
    ensures i != j ==> PartPath(outPath, i) != PartPath(outPath, j)
  {
    if i != j && PartPath(outPath, i) == PartPath(outPath, j) {
      var pi, pj := Decimal(i), Decimal(j);
      var n := |outPath| + 5;
      assert PartPath(outPath, i) == (outPath + ".part") + pi + ".parquet";
      assert PartPath(outPath, j) == (outPath + ".part") + pj + ".parquet";
      assert |pi| == |pj|;
      assert pi == PartPath(outPath, i)[n .. n + |pi|];
      assert pj == PartPath(outPath, j)[n .. n + |pj|];
      DecimalInjective(i, j);
    }
  }

  /** One parquet file per part, each written afresh. */
  function ParquetRun(outPath: string, parts: seq<Table>): (ws: seq<Write>)
    ensures |ws| == |parts|
  {
    seq(|parts|, i requires 0 <= i < |parts| => Write(PartPath(outPath, i), Overwrite, Parquet, parts[i]))
  }

  /** A parquet run leaves the last write to a path in place: each part
      file holds exactly its part. */
  lemma {:induction false} ParquetRunPart(d: Disk, outPath: string, parts: seq<Table>, i: nat)
    requires i < |parts|
    ensures Content(PerformAll(d, ParquetRun(outPath, parts)), PartPath(outPath, i)) == [Piece(Parquet, parts[i])]
  {
    var n := |parts| - 1;
    var ws := ParquetRun(outPath, parts);
    assert ws[..n] == ParquetRun(outPath, parts[..n]);
    if i < n {
      ParquetRunPart(d, outPath, parts[..n], i);
      PartPathsDistinct(outPath, i, n);
    }
  }

  /** A parquet run writes no file but the part files. */
  lemma {:induction false} ParquetRunOther(d: Disk, outPath: string, parts: seq<Table>, q: string)
    requires forall i :: 0 <= i < |parts| ==> q != PartPath(outPath, i)
    ensures Content(PerformAll(d, ParquetRun(outPath, parts)), q) == Content(d, q)
  {
    if parts != [] {
      var n := |parts| - 1;
      var ws := ParquetRun(outPath, parts);
      assert ws[..n] == ParquetRun(outPath, parts[..n]);
      ParquetRunOther(d, outPath, parts[..n], q);
      assert q != PartPath(outPath, n);
    }
  }

  /** `df.iloc[start:end]` for part `i`, with `start = i * chunksize` and
      `end = min(n, start + chunksize)`. */
  method SlicePart(df: Table, chunksize: int, i: int) returns (part: Table)
    requires chunksize > 0 && 0 <= i < NumParts(|df|, chunksize)
    ensures part == Part(df, chunksize, i)
  {
    PartStartInside(|df|, chunksize, i);
    var start := i * chunksize;
    var end := Min(|df|, start + chunksize);
    part := df[start..end];
  }

  /** `save_df_stream(df, out_path, fmt, chunksize)`: the writes it makes
      and whether it raises. `ceil(n / chunksize)` raises for a zero chunk
      size and gives no part for a negative one. CSV and JSON append the
      parts to `out_path` (the CSV header on the first part only); parquet
      writes part `i` to its own file; any other format (the name is not
      lowercased) raises at the first part, before writing, and not at all
      when there is no part. */
  method SaveDfStream(df: Table, outPath: string, fmt: string, chunksize: int)
    returns (writes: seq<Write>, outcome: Outcome)
    ensures chunksize == 0 ==> writes == [] && outcome == Fail(ZeroDivisionError)
    ensures chunksize < 0 ==> writes == [] && outcome == Pass
    ensures chunksize > 0 && fmt == "csv" ==>
              writes == AppendRun(outPath, StreamCsv, Parts(df, chunksize)) && outcome == Pass
    ensures chunksize > 0 && fmt == "json" ==>
              writes == AppendRun(outPath, StreamJson, Parts(df, chunksize)) && outcome == Pass
    ensures chunksize > 0 && fmt == "parquet" ==>
              writes == ParquetRun(outPath, Parts(df, chunksize)) && outcome == Pass
    ensures chunksize > 0 && fmt !in {"csv", "json", "parquet"} ==>
              writes == [] && outcome == (if df == [] then Pass else Fail(StreamFormatError))
  {
    var n := |df|;
    if chunksize == 0 {
      return [], Fail(ZeroDivisionError);
    }
    var parts := if chunksize > 0 then NumParts(n, chunksize) else 0;
    ghost var ps: seq<Table> := if chunksize > 0 then Parts(df, chunksize) else [];
    var first := true;
    writes := [];
    for i := 0 to parts
      invariant first <==> i == 0
      invariant fmt == "csv" ==> writes == AppendRun(outPath, StreamCsv, ps[..i])
      invariant fmt == "json" ==> writes == AppendRun(outPath, StreamJson, ps[..i])
      invariant fmt == "parquet" ==> writes == ParquetRun(outPath, ps[..i])
      invariant fmt !in {"csv", "json", "parquet"} ==> i == 0 && writes == []
    {
      var part := SlicePart(df, chunksize, i);
      assert ps[..i + 1] == ps[..i] + [part];
      if fmt == "csv" {
        writes := writes + [Write(outPath, Append, Csv(first), part)];
        assert AppendRun(outPath, StreamCsv, ps[..i + 1]) == AppendRun(outPath, StreamCsv, ps[..i]) + [writes[i]];
      } else if fmt == "json" {
        writes := writes + [Write(outPath, Append, JsonLines, part)];
        assert AppendRun(outPath, StreamJson, ps[..i + 1]) == AppendRun(outPath, StreamJson, ps[..i]) + [writes[i]];
      } else if fmt == "parquet" {
        writes := writes + [Write(PartPath(outPath, i), Overwrite, Parquet, part)];
        assert ParquetRun(outPath, ps[..i + 1]) == ParquetRun(outPath, ps[..i]) + [writes[i]];
      } else {
        return writes, Fail(StreamFormatError);
      }
      first := false;
    }
    assert ps[..parts] == ps;
    return writes, Pass;
  }

  /** A chunked CSV export leaves `out_path` with what it held before, then
      the header once (none for an empty table), then every row of the
      table in order, whatever the chunk size. */
  lemma StreamCsvFile(d: Disk, df: Table, outPath: string, chunksize: int)
    requires chunksize > 0
    ensures var ps := RunPieces(StreamCsv, Parts(df, chunksize));
            && Content(PerformAll(d, AppendRun(outPath, StreamCsv, Parts(df, chunksize))), outPath)
               == Content(d, outPath) + ps
            && HeaderLines(ps) == (if df == [] then 0 else 1)
            && Rows(ps) == df
  {
    AppendRunContent(d, outPath, StreamCsv, Parts(df, chunksize));
    CsvRunHeaderOnce(Parts(df, chunksize));
    FlattenParts(df, chunksize);
  }

  /** A chunked JSON export appends one JSON line per row of the table, in
      order, with no header. */
  lemma StreamJsonFile(d: Disk, df: Table, outPath: string, chunksize: int)
    requires chunksize > 0
    ensures var ps := RunPieces(StreamJson, Parts(df, chunksize));
            && Content(PerformAll(d, AppendRun(outPath, StreamJson, Parts(df, chunksize))), outPath)
               == Content(d, outPath) + ps
            && (forall i :: 0 <= i < |ps| ==> ps[i].encoding == JsonLines)
            && Rows(ps) == df
  {
    AppendRunContent(d, outPath, StreamJson, Parts(df, chunksize));
    JsonRunRows(Parts(df, chunksize));
    FlattenParts(df, chunksize);
  }

  /** A chunked parquet export leaves part `i` of the table in file
      `out_path.part{i}.parquet` and does not touch `out_path`. */
  lemma StreamParquetFiles(d: Disk, df: Table, outPath: string, chunksize: int)
    requires chunksize > 0
    ensures var d' := PerformAll(d, ParquetRun(outPath, Parts(df, chunksize)));
            && Content(d', outPath) == Content(d, outPath)
            && forall i :: 0 <= i < NumParts(|df|, chunksize) ==>
                 Content(d', PartPath(outPath, i)) == [Piece(Parquet, Part(df, chunksize, i))]
  {
    var ps := Parts(df, chunksize);
    forall i | 0 <= i < NumParts(|df|, chunksize)
      ensures Content(PerformAll(d, ParquetRun(outPath, ps)), PartPath(outPath, i)) == [Piece(Parquet, Part(df, chunksize, i))]
    {
      ParquetRunPart(d, outPath, ps, i);
    }
    forall i | 0 <= i < |ps|
      ensures outPath != PartPath(outPath, i)
    {
      PartPathsDistinct(outPath, i, i);
    }
    ParquetRunOther(d, outPath, ps, outPath);
  }
}
