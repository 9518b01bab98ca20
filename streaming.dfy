/** Streaming generation: the batch generator `people_stream` and the
    writer `generate_stream` that appends each batch to one file as it is
    produced. */
module Streaming {
  import opened Values
  import opened Oracle
  import opened Chunking
  import opened Files
  import People

  /** `people_stream(count, chunksize)` run to the end: the batches it
      yields, in order. A running `produced` counter sets each batch's size
      to `min(chunksize, count - produced)`, so the batches are exactly the
      parts of the person table, and the person at position `k` of the run
      is the same whatever the chunk size. The source loops forever when
      `count > 0` and `chunksize <= 0`, which the precondition excludes. */
  method PeopleStream(count: int, chunksize: int, o: Faker) returns (batches: seq<Table>)
    requires count <= 0 || chunksize > 0
    ensures count <= 0 ==> batches == []
    ensures chunksize > 0 ==> batches == Parts(People.People(Max(0, count), o), chunksize)
  {
    batches := [];
    var produced := 0;
    ghost var parts := if count > 0 then Parts(People.People(count, o), chunksize) else [];
    ghost var k := if count > 0 then NumParts(count, chunksize) else 0;
    while produced < count
      invariant 0 <= produced <= Max(0, count)
      invariant count <= 0 ==> batches == []
      invariant count > 0 ==> produced == Min(count, |batches| * chunksize)
      invariant |batches| <= k == |parts|
      invariant batches == parts[..|batches|]
      decreases count - produced
    {
      ghost var b := |batches|;
      MulLess(b, k, chunksize);
      var take := Min(chunksize, count - produced);
      var batch := MakeBatch(produced, take, o);
      BatchIsPart(count, chunksize, b, o, batch);
      assert batch == parts[b];
      assert parts[..b + 1] == parts[..b] + [parts[b]];
      MulSucc(b, chunksize);
      produced := produced + take;
      batches := batches + [batch];
    }
    if count > 0 {
      MulLess(k - 1, |batches|, chunksize);
      assert parts[..k] == parts;
    }
  }

  /** The inner loop of `people_stream`: `take` records, numbered from
      `start` in the run. */
  method MakeBatch(start: nat, take: int, o: Faker) returns (batch: Table)
    ensures |batch| == Max(0, take)
    ensures forall j :: 0 <= j < |batch| ==> batch[j] == People.Person(start + j, o)
  {
    batch := [];
    var j := 0;
    while j < take
      invariant 0 <= j <= Max(0, take)
      invariant |batch| == j
      invariant forall t :: 0 <= t < j ==> batch[t] == People.Person(start + t, o)
    {
      batch := batch + [People.Person(start + j, o)];
      j := j + 1;
    }
  }

  /** The batch begun after `b` full batches is part `b` of the run. */
  lemma BatchIsPart(count: int, chunksize: int, b: int, o: Faker, batch: Table)
    requires chunksize > 0 && count > 0 && 0 <= b < NumParts(count, chunksize)
    requires |batch| == Min(chunksize, count - b * chunksize)
    requires forall j :: 0 <= j < |batch| ==> batch[j] == People.Person(b * chunksize + j, o)
    ensures batch == Part(People.People(count, o), chunksize, b)
  {
    PartStartInside(count, chunksize, b);
  }

  /** The error for a format other than csv and json. */
  function NotStreamable(fmt: string): Exc
  {
    ValueError("Streaming not supported for format " + fmt)
  }

  /** `generate_stream(generator_func, out_path, chunksize=chunksize, fmt=fmt)`
      for the chunks `generator_func` yields. `math.ceil(count / chunksize)`
      is computed first, so a zero chunk size raises before anything runs.
      CSV appends every chunk with the header on the first only; JSON
      appends every chunk as JSON lines; any other format raises when the
      first chunk arrives, before it is written, and not at all when there
      is no chunk. */
  method GenerateStream(chunks: seq<Table>, outPath: string, chunksize: int, fmt: string)
    returns (writes: seq<Write>, outcome: Outcome)
    ensures chunksize == 0 ==> writes == [] && outcome == Fail(ZeroDivisionError)
    ensures chunksize != 0 && fmt == "csv" ==>
              writes == AppendRun(outPath, StreamCsv, chunks) && outcome == Pass
    ensures chunksize != 0 && fmt == "json" ==>
              writes == AppendRun(outPath, StreamJson, chunks) && outcome == Pass
    ensures chunksize != 0 && fmt != "csv" && fmt != "json" ==>
              writes == [] && outcome == (if chunks == [] then Pass else Fail(NotStreamable(fmt)))
  {
    if chunksize == 0 {
      return [], Fail(ZeroDivisionError);
    }
    writes := [];
    var firstChunk := true;
    for i := 0 to |chunks|
      invariant firstChunk <==> i == 0
      invariant fmt == "csv" ==> writes == AppendRun(outPath, StreamCsv, chunks[..i])
      invariant fmt == "json" ==> writes == AppendRun(outPath, StreamJson, chunks[..i])
      invariant fmt != "csv" && fmt != "json" ==> i == 0 && writes == []
    {
      if fmt == "csv" {
        writes := writes + [Write(outPath, Append, Csv(firstChunk), chunks[i])];
        assert AppendRun(outPath, StreamCsv, chunks[..i + 1])
            == AppendRun(outPath, StreamCsv, chunks[..i]) + [Write(outPath, Append, Csv(firstChunk), chunks[i])];
      } else if fmt == "json" {
        writes := writes + [Write(outPath, Append, JsonLines, chunks[i])];
        assert AppendRun(outPath, StreamJson, chunks[..i + 1])
            == AppendRun(outPath, StreamJson, chunks[..i]) + [Write(outPath, Append, JsonLines, chunks[i])];
      } else {
        return writes, Fail(NotStreamable(fmt));
      }
      firstChunk := false;
    }
    assert chunks[..|chunks|] == chunks;
    return writes, Pass;
  }

  /** `generate_stream(people_stream, out_path, count=count,
      chunksize=chunksize, fmt=fmt)`: the generator is created with the same
      count and chunk size. With `count > 0`, a negative chunk size makes the
      generator yield empty batches forever: a format other than CSV and
      JSON raises at the first of them, and the endless CSV and JSON runs
      are excluded by the precondition. */
  method StreamPeople(outPath: string, count: int, chunksize: int, fmt: string, o: Faker)
    returns (writes: seq<Write>, outcome: Outcome)
    requires count <= 0 || chunksize >= 0 || (fmt != "csv" && fmt != "json")
    ensures chunksize == 0 ==> writes == [] && outcome == Fail(ZeroDivisionError)
    ensures chunksize < 0 && count > 0 ==> writes == [] && outcome == Fail(NotStreamable(fmt))
    ensures chunksize != 0 ==>
              var batches := if chunksize > 0 then Parts(People.People(Max(0, count), o), chunksize) else [];
              && (fmt == "csv" ==> writes == AppendRun(outPath, StreamCsv, batches) && outcome == Pass)
              && (fmt == "json" ==> writes == AppendRun(outPath, StreamJson, batches) && outcome == Pass)
              && (fmt != "csv" && fmt != "json" ==>
                    writes == [] && outcome == (if count <= 0 then Pass else Fail(NotStreamable(fmt))))
  {
    if chunksize == 0 {
      return [], Fail(ZeroDivisionError);
    }
    if chunksize < 0 && count > 0 {
      // the first batch: `take = chunksize` persons, that is none
      writes, outcome := GenerateStream([[]], outPath, chunksize, fmt);
      return;
    }
    var batches := PeopleStream(count, chunksize, o);
    if count > 0 {
      assert NumParts(count, chunksize) >= 1;
    }
    writes, outcome := GenerateStream(batches, outPath, chunksize, fmt);
  }

  /** The CSV file a people stream leaves: what the file held before,
      followed by one piece per batch; exactly one header line when
      `count > 0` (none otherwise); and, whatever the chunk size, the data
      rows are the `count` person records in order. */
  lemma PeopleCsvFile(d: Disk, outPath: string, count: int, chunksize: int, o: Faker)
    requires chunksize > 0
    ensures var batches := Parts(People.People(Max(0, count), o), chunksize);
            var d' := PerformAll(d, AppendRun(outPath, StreamCsv, batches));
            && Content(d', outPath) == Content(d, outPath) + RunPieces(StreamCsv, batches)
            && HeaderLines(RunPieces(StreamCsv, batches)) == (if count > 0 then 1 else 0)
            && Rows(RunPieces(StreamCsv, batches)) == People.People(Max(0, count), o)
  {
    var full := People.People(Max(0, count), o);
    var batches := Parts(full, chunksize);
    AppendRunContent(d, outPath, StreamCsv, batches);
    CsvRunHeaderOnce(batches);
    FlattenParts(full, chunksize);
  }

  /** The batch sizes: `ceil(count / chunksize)` batches, all full but
      possibly the last, none empty, adding up to `count`. */
  lemma BatchSizes(count: int, chunksize: int, o: Faker)
    requires chunksize > 0
    ensures var batches := Parts(People.People(Max(0, count), o), chunksize);
            && |batches| == NumParts(count, chunksize)
            && (forall i :: 0 <= i < |batches| ==> 1 <= |batches[i]| <= chunksize)
            && (forall i :: 0 <= i < |batches| - 1 ==> |batches[i]| == chunksize)
            && |Flatten(batches)| == Max(0, count)
  {
    var full := People.People(Max(0, count), o);
    var batches := Parts(full, chunksize);
    forall i | 0 <= i < |batches|
      ensures 1 <= |batches[i]| <= chunksize
      ensures i < |batches| - 1 ==> |batches[i]| == chunksize
    {
      PartSizeBounds(Max(0, count), chunksize, i);
    }
    FlattenParts(full, chunksize);
  }

  /** The stream's test case: 200 records in chunks of 50 are 4 full
      batches, and 205 records add a fifth batch of 5. */
  lemma FiftyRecordBatches()
    ensures NumParts(200, 50) == 4
    ensures forall i :: 0 <= i < 4 ==> PartSize(200, 50, i) == 50
    ensures NumParts(205, 50) == 5 && PartSize(205, 50, 4) == 5
  {
    NumPartsUnique(200, 50, 4);
    NumPartsUnique(205, 50, 5);
  }
}
