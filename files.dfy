/** Output files as the exporters change them. A write is an event naming a
    path, whether it replaces or appends to the file, how pandas encodes the
    rows, and the rows; a file's content is the list of pieces written to it
    since it was last replaced. */
module Files {
  import opened Values
  import opened Chunking

  /** How a piece of output is encoded. */
  datatype Encoding =
    | Csv(header: bool)  // to_csv(..., header=header, index=False, encoding="utf-8")
    | JsonRecords        // to_json(orient="records"): one JSON array
    | JsonLines          // to_json(orient="records", lines=True): one line per record
    | Parquet            // to_parquet(index=False)
    | Excel              // to_excel(index=False)

  /** `mode="w"` (pandas' default) or `mode="a"`. */
  datatype Mode = Overwrite | Append

  datatype Write = Write(path: string, mode: Mode, encoding: Encoding, rows: Table)

  /** One write's contribution to a file. */
  datatype Piece = Piece(encoding: Encoding, rows: Table)

  type Disk = map<string, seq<Piece>>

  function Content(d: Disk, p: string): seq<Piece>
  {
    if p in d then d[p] else []
  }

  /** The disk after one write: an append extends the file, an overwrite
      replaces it, and no other file changes. */
  function Perform(d: Disk, w: Write): (d': Disk)
    ensures Content(d', w.path) ==
              (if w.mode == Append then Content(d, w.path) else []) + [Piece(w.encoding, w.rows)]
    ensures forall q :: q != w.path ==> Content(d', q) == Content(d, q)
  {
    var before := if w.mode == Append then Content(d, w.path) else [];
    d[w.path := before + [Piece(w.encoding, w.rows)]]
  }

  /** The disk after a sequence of writes, in order. */
  function PerformAll(d: Disk, ws: seq<Write>): Disk
  {
    if ws == [] then d else Perform(PerformAll(d, ws[..|ws| - 1]), ws[|ws| - 1])
  }

  /** The two formats that can be appended chunk by chunk. */
  datatype StreamFormat = StreamCsv | StreamJson

  /** The encoding of chunk `i`: CSV carries the header only on the first. */
  function ChunkEncoding(f: StreamFormat, i: nat): Encoding
  {
    match f
    case StreamCsv => Csv(i == 0)
    case StreamJson => JsonLines
  }

  /** Appending every chunk to one path, in order. */
  function AppendRun(path: string, f: StreamFormat, chunks: seq<Table>): (ws: seq<Write>)
    ensures |ws| == |chunks|
  {
    seq(|chunks|, i requires 0 <= i < |chunks| => Write(path, Append, ChunkEncoding(f, i), chunks[i]))
  }

  /** The pieces a run adds to its file. */
  function RunPieces(f: StreamFormat, chunks: seq<Table>): (ps: seq<Piece>)
    ensures |ps| == |chunks|
  {
    seq(|chunks|, i requires 0 <= i < |chunks| => Piece(ChunkEncoding(f, i), chunks[i]))
  }

  /** The pieces a sequence of writes makes, in order. */
  function PiecesOf(ws: seq<Write>): (ps: seq<Piece>)
    ensures |ps| == |ws|
    ensures forall i :: 0 <= i < |ws| ==> ps[i] == Piece(ws[i].encoding, ws[i].rows)
  {
    seq(|ws|, i requires 0 <= i < |ws| => Piece(ws[i].encoding, ws[i].rows))
  }

  /** Appends to one path keep what the file held and add their pieces
      after it, in order. */
  lemma {:induction false} AppendsContent(d: Disk, path: string, ws: seq<Write>)
    requires forall i :: 0 <= i < |ws| ==> ws[i].path == path && ws[i].mode == Append
    ensures Content(PerformAll(d, ws), path) == Content(d, path) + PiecesOf(ws)
  {
    if ws != [] {
      var n := |ws| - 1;
      AppendsContent(d, path, ws[..n]);
      assert PiecesOf(ws) == PiecesOf(ws[..n]) + [Piece(ws[n].encoding, ws[n].rows)];
    }
  }

  /** Every write of a run appends, so what the file held before is kept as
      a prefix and the chunks follow it in order. */
  lemma AppendRunContent(d: Disk, path: string, f: StreamFormat, chunks: seq<Table>)
    ensures Content(PerformAll(d, AppendRun(path, f, chunks)), path) == Content(d, path) + RunPieces(f, chunks)
  {
    AppendsContent(d, path, AppendRun(path, f, chunks));
    assert PiecesOf(AppendRun(path, f, chunks)) == RunPieces(f, chunks);
  }

  /** A run changes no file but its own. */
  lemma {:induction false} AppendRunOther(d: Disk, path: string, f: StreamFormat, chunks: seq<Table>, q: string)
    requires q != path
    ensures Content(PerformAll(d, AppendRun(path, f, chunks)), q) == Content(d, q)
  {
    if chunks != [] {
      var n := |chunks| - 1;
      var ws := AppendRun(path, f, chunks);
      assert ws[..n] == AppendRun(path, f, chunks[..n]);
      AppendRunOther(d, path, f, chunks[..n], q);
    }
  }

  /** Number of header lines in a CSV file's pieces. */
  function HeaderLines(ps: seq<Piece>): nat
  {
    if ps == [] then 0
    else HeaderLines(ps[..|ps| - 1]) + (if ps[|ps| - 1].encoding == Csv(true) then 1 else 0)
  }

  /** The rows of a file's pieces, in order. */
  function Rows(ps: seq<Piece>): Table
  {
    if ps == [] then [] else Rows(ps[..|ps| - 1]) + ps[|ps| - 1].rows
  }

  /** A CSV run writes the header line exactly once (none for no chunks),
      and its data rows are the chunks concatenated. */
  lemma {:induction false} CsvRunHeaderOnce(chunks: seq<Table>)
    ensures HeaderLines(RunPieces(StreamCsv, chunks)) == (if chunks == [] then 0 else 1)
    ensures Rows(RunPieces(StreamCsv, chunks)) == Flatten(chunks)
  {
    if chunks != [] {
      var n := |chunks| - 1;
      var ps := RunPieces(StreamCsv, chunks);
      assert ps[..n] == RunPieces(StreamCsv, chunks[..n]);
      CsvRunHeaderOnce(chunks[..n]);
    }
  }

  /** A JSON-lines run has no header and its rows are the chunks concatenated. */
  lemma {:induction false} JsonRunRows(chunks: seq<Table>)
    ensures HeaderLines(RunPieces(StreamJson, chunks)) == 0
    ensures Rows(RunPieces(StreamJson, chunks)) == Flatten(chunks)
  {
    if chunks != [] {
      var n := |chunks| - 1;
      var ps := RunPieces(StreamJson, chunks);
      assert ps[..n] == RunPieces(StreamJson, chunks[..n]);
      JsonRunRows(chunks[..n]);
    }
  }
}
