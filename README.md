# DataFaux core, modelled in Dafny

DataFaux generates synthetic tables (people, e-commerce orders) and writes
them to CSV, JSON, Parquet or Excel files. It can also stream them in
chunks or corrupt some cells to test downstream code. This project models
the part of the package that makes those decisions:

- the schema check;
- the two people generators;
- the e-commerce generator;
- the streaming generator and the streaming writer;
- the two exporters;
- the error injector.

Each is stated in Dafny and its properties are proved.

Faker, `uuid`, `random` and the clock are modelled as one oracle,
`Oracle.Faker`. It is a parameter holding opaque strings and raw random
numbers, each indexed by where the draw happens in a run (record number,
field number). So every generator is a deterministic function of the
oracle. The oracle fixes every draw, including the ones a seed does not
fix: `get_faker` seeds only Faker and `random`, so `uuid4`, the clock and
pandas' `sample` differ between seeded runs. Because the people records are
indexed by their position in the run, the streamed person table is the
same whatever the chunk size.

A file write is modelled as an event (`Files.Write`). It names the path,
says whether it replaces or appends to the file, and carries the pandas
encoding and the rows. The disk (`Files.Disk`) maps each path to the
pieces written there since the file was last replaced. pandas' actual byte
output is not modelled.

Modules, one per source file plus shared ones:

- `Values`: Python values, records and tables, exceptions, `Result`.
- `Text`: `str.lower`, `str.replace("\n", ", ")`, decimal rendering of an int.
- `Oracle`: the random and Faker oracle, `randint`-style and `choice`-style picks.
- `Chunking`: the `ceil(n / c)` partition both chunked loops use.
- `Files`: write events, the disk, and append runs.
- `Validators`: `utils/validators.py`.
- `People`: `generators/people.py`.
- `Ecommerce`: `generators/ecommerce.py`.
- `Streaming`: `modes/streaming.py`.
- `Exporters`: `utils/exporters.py`.
- `Testers`: `modes/testers.py`, as a class `Frame` over an `array2` of cells, changed in place.

Behaviour of the code that the model follows and a reader might not expect:

- The streaming writers reject an unsupported format only when the first chunk or part arrives. `generate_stream` and `save_df_stream` raise there, so with no chunk or an empty table nothing is raised.
- `save_df_stream` does not lowercase the format, so `"CSV"` is rejected there, although `save_df` accepts it.
- The streaming writer's message is "Streaming not supported for format {fmt}", with the format name.
- An `int` schema field takes any `min`/`max`. Bounds that are not integers (or bools) raise `TypeError`, and `min > max` raises `ValueError` from `random.randrange`.
- A `datetime` schema field passes its `start` to Faker, which raises when it cannot parse it; the default `"-3y"` always parses.
- A customer pool without a `customer_id` column raises `KeyError` for the first order. An empty pool makes `sample` raise.
- The generators return the DataFrame; the writers return nothing.
- Field names are dict keys with Python's key equality: `True` and `1` (and `False` and `0`) are the same key, so a later field overwrites the value and the first spelling of the key stays.

## Model

| member | source | states |
|---|---|---|
| Validators.ValidateSchema | datafaux/utils/validators.py:7-14 | accepted ("OK") iff the document is a mapping that has `type` and whose `fields`, if present, is a list; otherwise the message names the first failed check, and the missing-type message mentions `'type'` |
| Validators.FieldsContentsIgnored | datafaux/utils/validators.py:11-13 | the contents of a `fields` list never change the verdict |
| Validators.RejectsFieldsWithoutType | datafaux/utils/validators.py:9-10 | a document with `fields` but no `type` is rejected with the missing-type message |
| Text.Lower | datafaux/utils/exporters.py:7 | same length; each ASCII capital A–Z becomes its small letter, every other character is kept, and no ASCII capital is left |
| Text.LowerIdempotent | datafaux/utils/exporters.py:7 | lowering twice equals lowering once |
| Text.ReplaceNewlines | datafaux/generators/people.py:28 | the result has no newline; it is one character longer per newline replaced; a string without newlines is unchanged |
| Text.Decimal | datafaux/utils/exporters.py:38 | `{i}` renders a natural number as at least one digit, and as one digit exactly when it is below 10 |
| Text.DecimalInjective | datafaux/utils/exporters.py:38 | distinct numbers render to distinct strings |
| Values.KeyOf | datafaux/generators/people.py:45-59 | definition: the value a Python dict compares a key as, `True` as `1` and `False` as `0`, anything else as itself |
| Values.Twin | datafaux/generators/people.py:45-59 | the other value that is the same Python dict key (`True`/`1`, `False`/`0`) differs from it and compares equal to it |
| Values.TwinUnique | datafaux/generators/people.py:45-59 | a value is the same dict key as `k` only if it is `k` or its twin |
| Values.Find | datafaux/generators/people.py:45-59 | definition of `d[k]`: the value under `k`, or under the one other value equal to it as a key, or nothing |
| Values.FindNone | datafaux/generators/people.py:45-59 | `d[k]` finds nothing exactly when no key of `d` compares equal to `k` |
| Values.Store | datafaux/generators/people.py:45-59 | `d[k] = v` keeps every key `d` already had (an equal key stays as first spelled) |
| Values.StoreFind | datafaux/generators/people.py:45-59 | after `d[k] = v`, `d[k]` is `v` |
| Values.StoreKeys | datafaux/generators/people.py:45-59 | `d[k] = v` adds `k` to the keys as the dict compares them, and nothing else |
| Values.StoreDistinct | datafaux/generators/people.py:45-59 | `d[k] = v` never leaves two keys that compare equal |
| Values.StoreOther | datafaux/generators/people.py:45-59 | `d[k] = v` leaves what every key not equal to `k` finds unchanged |
| Oracle.StartParses | datafaux/generators/people.py:57 | definition: whether `fake.date_time_between` accepts `start`; the default `"-3y"` always is, any other value as the oracle's `startOk` says |
| Oracle.Pick | datafaux/generators/people.py:29 | `random.randint(lo, hi)` lies in `[lo, hi]` |
| Oracle.PickCovers | datafaux/generators/people.py:29 | every value of `[lo, hi]` can be drawn |
| Oracle.Choose | datafaux/modes/testers.py:22-23 | `random.choice` over `n` entries gives a position below `n` |
| Oracle.ChooseCovers | datafaux/modes/testers.py:22-23 | every position can be chosen |
| Chunking.NumParts | datafaux/utils/exporters.py:25 | `ceil(n / c)`: no part for `n <= 0`; otherwise the unique `k >= 1` with `(k - 1) * c < n <= k * c` |
| Chunking.NumPartsUnique | datafaux/utils/exporters.py:25 | that bracketing determines the number of parts |
| Chunking.PartStartInside | datafaux/utils/exporters.py:28 | every part starts inside the table |
| Chunking.PartSizeBounds | datafaux/modes/streaming.py:44 | every part holds between 1 and `c` rows, and every part but the last holds exactly `c` |
| Chunking.Part | datafaux/utils/exporters.py:28-30 | `df.iloc[i*c : min(n, i*c + c)]` holds `c` rows, or the remainder for the last part |
| Chunking.Parts | datafaux/utils/exporters.py:27-30 | reference definition of the partition: the `ceil(n / c)` parts in order; what it promises is proved in FlattenParts and PartSizeBounds |
| Chunking.FlattenSnoc | datafaux/modes/streaming.py:56 | appending a batch appends its rows |
| Chunking.FlattenPrefix | datafaux/utils/exporters.py:27-30 | the first `k` parts are exactly the first `min(n, k*c)` rows |
| Chunking.FlattenParts | datafaux/utils/exporters.py:27-30 | the parts are contiguous, disjoint, in order, and cover the table: concatenated, they give it back |
| Chunking.PartOfRow | datafaux/utils/exporters.py:27-30 | row `r` is in part `r / c`, at offset `r % c` |
| Chunking.SizeSumPrefix | datafaux/modes/streaming.py:44-55 | the sizes of the first `k` parts add up to `min(n, k*c)` |
| Chunking.PartSizesSum | datafaux/modes/streaming.py:44-55 | all part sizes add up to the number of rows |
| Files.Perform | datafaux/utils/exporters.py:32 | an append extends the file, any other write replaces it, and no other file changes |
| Files.AppendRun | datafaux/modes/streaming.py:25-32 | one appending write per chunk, in order |
| Files.RunPieces | datafaux/modes/streaming.py:25-32 | one piece per chunk |
| Files.PiecesOf | datafaux/utils/exporters.py:32-35 | reference definition: one piece per write, with its encoding and rows; what it promises is proved in AppendsContent |
| Files.AppendsContent | datafaux/utils/exporters.py:32-35 | appends to one path keep the old content as a prefix, followed by their pieces in order |
| Files.AppendRunContent | datafaux/modes/streaming.py:25-29 | after a run the file is its old content followed by one piece per chunk |
| Files.AppendRunOther | datafaux/modes/streaming.py:25-29 | a run changes no other file |
| Files.CsvRunHeaderOnce | datafaux/modes/streaming.py:24-32 | a CSV run writes the header exactly once (never for no chunk), and its rows are the chunks concatenated |
| Files.JsonRunRows | datafaux/modes/streaming.py:28-29 | a JSON-lines run has no header, and its rows are the chunks concatenated |
| People.Person | datafaux/generators/people.py:23-31 | person `k` has exactly the seven columns of the default record |
| People.PersonFields | datafaux/generators/people.py:23-31 | a person record has exactly the seven columns; the age is an int in [18, 80]; the address has no newline; every other column is a string |
| People.People | datafaux/generators/people.py:22-31 | the first `n` persons of a run, one per position |
| People.GenerateDefault | datafaux/generators/people.py:19-32 | `max(0, count)` records, record `k` being person `k` |
| People.KindOf | datafaux/generators/people.py:44-59 | each `type` (with its aliases) selects its generator iff it names it; every other value, a missing type included, falls back to a word |
| People.RandomInt | datafaux/generators/people.py:55 | `random_int(min, max)` succeeds iff both bounds are ints (bools count) and `min <= max`, and then lies between them; otherwise `TypeError` or the empty-range error |
| People.FieldValue | datafaux/generators/people.py:44-59 | succeeds iff an int field's bounds are usable and a datetime field's `start` is accepted by Faker; a failing datetime raises Faker's parse error; non-int kinds give a string; an address has no newline; an int lies within its bounds |
| People.DispatchText | datafaux/generators/people.py:44-53 | which Faker provider each text type uses |
| People.DispatchOther | datafaux/generators/people.py:54-59 | an int without bounds is drawn from 0..100; a datetime starts `-3y`; unknown types give `fake.word()` |
| People.FieldEntry | datafaux/generators/people.py:42-59 | one field step succeeds iff the definition is a dict with a hashable name whose value can be generated (usable int bounds, an accepted datetime start); the key is `f.get("name")` and the value is the field's value |
| People.FillOk | datafaux/generators/people.py:41-59 | the inner loop finishes iff every remaining slot's entry succeeds |
| People.FillKeySet | datafaux/generators/people.py:41-59 | the finished record's keys, as the dict compares them, are the starting keys plus the remaining slots' keys |
| People.FillDistinct | datafaux/generators/people.py:41-59 | the finished record never holds two keys that compare equal |
| People.FillFind | datafaux/generators/people.py:41-59 | a key no remaining slot stores keeps what it found before |
| People.FillLastWins | datafaux/generators/people.py:41-59 | a slot whose key no later slot repeats has its value in the finished record |
| People.FillRecordOk | datafaux/generators/people.py:41-59 | building a record succeeds iff every definition can be stored, whatever the draws (a rejected datetime start fails it) |
| People.FillRecordKeys | datafaux/generators/people.py:41-59 | with Python's key equality (`True == 1`), the inner loop adds exactly the names of the remaining definitions to the record's keys, never makes two keys equal, and keys none of them names keep their values |
| People.FillRecordLastWins | datafaux/generators/people.py:41-59 | a name that no later definition repeats (under Python's key equality, so `True` repeats `1`) holds its definition's value: a repeated name keeps its last value |
| People.FillWithOk | datafaux/generators/people.py:39-60 | the outer loop finishes iff every remaining record is built |
| People.SchemaRecord | datafaux/generators/people.py:40-60 | definition: record `i` is the inner loop run over every field definition from an empty dict |
| People.FillRows | datafaux/generators/people.py:39-60 | definition: the outer loop from record `i` on, record `t` being `SchemaRecord` of `t` |
| People.FillWithShape | datafaux/generators/people.py:39-60 | the outer loop keeps the rows so far and appends one record per remaining index, in order |
| People.FillRowsShape | datafaux/generators/people.py:39-60 | the outer loop yields one record per index, record `t` being record `t` of the schema |
| People.FillRowsOk | datafaux/generators/people.py:39-60 | the outer loop succeeds iff its first record does |
| People.FieldsOf | datafaux/generators/people.py:37 | `schema.get("fields") or []`: the entry when it is truthy, an empty list otherwise |
| People.FieldDefs | datafaux/generators/people.py:41 | iterating `fields`: a list gives its items; a non-empty dict or string gives strings, whose missing `get` raises `AttributeError`; None, a bool or an int is not iterable (`TypeError`); an empty dict or string gives nothing |
| People.FromSchema | datafaux/generators/people.py:35-61 | a non-dict schema raises `AttributeError` (no `get`); no record asked for gives an empty table |
| People.BuildRecord | datafaux/generators/people.py:40-60 | the inner loop builds record `i` as `SchemaRecord` says, or raises its error |
| People.GenerateFromSchema | datafaux/generators/people.py:35-61 | the records or the exception `generate_from_schema` gives, as `FromSchema` says: the nested loops over `get("fields") or []`, including Faker's parse error for a rejected datetime start |
| People.FromSchemaOk | datafaux/generators/people.py:35-61 | the run fails iff the schema is not a dict, or at least one record is asked for and `fields` is not iterable or holds an unstorable definition (a non-dict, an unhashable name, unusable int bounds, a datetime start Faker rejects); never because of the draws |
| People.FromSchemaRecords | datafaux/generators/people.py:39-60 | a successful run gives `max(0, count)` records, whose keys, under Python's key equality, are exactly the declared names, no two of them equal |
| People.FromSchemaValue | datafaux/generators/people.py:41-59 | in every record, `rec[name]` for a field gives that field's generated value unless a later field repeats the name under Python's key equality (`True == 1`) |
| People.NoFieldsNoKeys | datafaux/generators/people.py:37 | missing, None or empty `fields` gives `count` empty records |
| Ecommerce.DefaultPool | datafaux/generators/ecommerce.py:18-23 | `max(1, count // 3)` customers (at least one), each with exactly `customer_id`, `name`, `email` |
| Ecommerce.ItemAt | datafaux/generators/ecommerce.py:32-34 | an item is a catalog product at the catalog's price, in a quantity of 1 to 5 |
| Ecommerce.ItemsOf | datafaux/generators/ecommerce.py:28-34 | between 1 and 4 valid items |
| Ecommerce.TotalCents | datafaux/generators/ecommerce.py:30-35 | an order with no item totals 0 |
| Ecommerce.TotalConcat | datafaux/generators/ecommerce.py:30-35 | the total of two item lists together is the sum of their totals |
| Ecommerce.ItemCostBounds | datafaux/generators/ecommerce.py:7-12 | a valid line costs at least 19.99 and at most 5 × 79.95 |
| Ecommerce.TotalBounds | datafaux/generators/ecommerce.py:31-35 | an order total lies between 19.99 and 399.75 per item |
| Ecommerce.Currency | datafaux/generators/ecommerce.py:42 | USD iff the locale starts with "en", EUR otherwise |
| Ecommerce.ChosenCustomer | datafaux/generators/ecommerce.py:27 | the sampled customer is a member of the pool |
| Ecommerce.OrderAt | datafaux/generators/ecommerce.py:27-43 | an empty pool raises; a customer without `customer_id` raises `KeyError`; otherwise the order refers to the sampled customer, has 1–4 valid items, a total equal to the sum of its lines, an age of 0–365 days and the locale's currency |
| Ecommerce.FillOrdersOk | datafaux/generators/ecommerce.py:26-43 | the order loop finishes iff no order fails |
| Ecommerce.FillOrdersShape | datafaux/generators/ecommerce.py:26-43 | a finished loop holds one order per index, in order |
| Ecommerce.Orders | datafaux/generators/ecommerce.py:26-44 | definition: the order loop over a pool, order `k` being `OrderAt` of `k`, stopping at the first order that raises; OrdersOk and OrdersShape state what it gives |
| Ecommerce.OrdersOk | datafaux/generators/ecommerce.py:26-43 | the run succeeds iff every order does; `count > 0` with an empty pool raises `EmptySample` |
| Ecommerce.OrdersShape | datafaux/generators/ecommerce.py:26-44 | a successful run has `max(0, count)` orders, order `t` being order `t` of the run |
| Ecommerce.DefaultPoolNeverFails | datafaux/generators/ecommerce.py:17-23 | with the default pool every run succeeds with `max(0, count)` orders |
| Ecommerce.OrdersConsistent | datafaux/generators/ecommerce.py:26-43 | every order's customer is in the pool; every total is the sum of its lines and within the per-item bounds; the currency follows the locale |
| Ecommerce.MakeItems | datafaux/generators/ecommerce.py:28-35 | the inner loop's items and running total are the order's items and their sum |
| Ecommerce.MakeOrder | datafaux/generators/ecommerce.py:27-43 | the body of the order loop builds order `k` as `OrderAt` says |
| Ecommerce.GenerateDefault | datafaux/generators/ecommerce.py:15-44 | the orders (or exception) of a run over `customers_df`, or over the default pool when none is given |
| Ecommerce.GenerateFromSchema | datafaux/generators/ecommerce.py:47-49 | ignores the schema; it is a default run, so it always yields `max(0, count)` orders |
| Streaming.PeopleStream | datafaux/modes/streaming.py:35-56 | the batches are exactly the `ceil(count / chunksize)` parts of the person table; none for `count <= 0` |
| Streaming.MakeBatch | datafaux/modes/streaming.py:45-54 | `take` persons, numbered from the running `produced` count |
| Streaming.BatchIsPart | datafaux/modes/streaming.py:44-55 | the batch begun after `b` batches is part `b` of the run |
| Streaming.GenerateStream | datafaux/modes/streaming.py:7-32 | chunk size 0 raises `ZeroDivisionError` before anything runs; CSV appends each chunk with the header on the first only; JSON appends JSON lines; any other format raises at the first chunk with nothing written, and not at all with no chunk |
| Streaming.StreamPeople | datafaux/modes/streaming.py:20-56 | `generate_stream` over `people_stream` with the same count and chunk size writes the person parts, or fails as above; with records asked for and a negative chunk size a format other than CSV and JSON raises at the first, empty, batch with nothing written |
| Streaming.PeopleCsvFile | datafaux/modes/streaming.py:24-32 | the streamed CSV file holds its old content, then one header line (none for `count <= 0`), then all `count` persons in order, whatever the chunk size |
| Streaming.BatchSizes | datafaux/modes/streaming.py:42-56 | `ceil(count / chunksize)` non-empty batches of at most `chunksize` rows, all full but the last, with `count` rows in all |
| Streaming.FiftyRecordBatches | tests/test_modes.py:12-16 | 200 records in chunks of 50 give 4 full batches; 205 give a fifth batch of 5 |
| Exporters.SaveDf | datafaux/utils/exporters.py:6-17 | succeeds iff the lowercased format is csv, json, parquet, xlsx or excel, with one overwriting write of the whole table in that format's encoding; otherwise ValueError "Format {fmt} not supported" for the lowercased name, with nothing written |
| Exporters.SaveDfCaseInsensitive | datafaux/utils/exporters.py:7 | a format name and its lowercase give the same result |
| Exporters.SaveDfUpperCase | datafaux/utils/exporters.py:7-15 | "CSV" writes a CSV with header; "Excel" is the same as "xlsx" |
| Exporters.PartPath | datafaux/utils/exporters.py:38 | `out_path.part{i}.parquet` extends `out_path` |
| Exporters.PartPathsDistinct | datafaux/utils/exporters.py:38 | distinct parts go to distinct files, none of them `out_path` |
| Exporters.ParquetRun | datafaux/utils/exporters.py:36-38 | one overwriting parquet write per part |
| Exporters.ParquetRunPart | datafaux/utils/exporters.py:36-38 | after a parquet run each part file holds exactly its part |
| Exporters.ParquetRunOther | datafaux/utils/exporters.py:36-38 | a parquet run writes no file but the part files |
| Exporters.SlicePart | datafaux/utils/exporters.py:28-30 | the slice the loop takes is part `i` of the table |
| Exporters.SaveDfStream | datafaux/utils/exporters.py:20-41 | chunk size 0 raises `ZeroDivisionError`; a negative one writes nothing; CSV and JSON append the parts (header on the first part only); parquet writes each part to its own file; any other format, case-sensitively, raises at the first part with nothing written, and not at all for an empty table |
| Exporters.StreamCsvFile | datafaux/utils/exporters.py:31-32 | a chunked CSV export is the old content, one header (none for an empty table), and every row of the table in order, whatever the chunk size |
| Exporters.StreamJsonFile | datafaux/utils/exporters.py:33-35 | a chunked JSON export appends every row as a JSON line, in order |
| Exporters.StreamParquetFiles | datafaux/utils/exporters.py:36-38 | part `i` lands in its own file, and `out_path` is untouched |
| Testers.Column | datafaux/modes/testers.py:31-32 | reference definition of `df[col]`: the column's cells, top to bottom; ColumnMax and Corruption speak about it |
| Testers.Numeric | datafaux/modes/testers.py:31 | definition of `is_numeric_dtype(df[col])` on the current values: every non-null cell is an int |
| Testers.ColumnMax | datafaux/modes/testers.py:32-34 | `dropna().max()`: none iff the column holds no int; otherwise an int of the column at least as large as every other |
| Testers.KindOf | datafaux/modes/testers.py:24 | the chosen kind is one of empty, wrong type and outlier, each drawn by its own position in that list |
| Testers.Corruption | datafaux/modes/testers.py:24-40 | empty gives None, wrong type gives the marker string; an outlier is 1000 × the column's largest value (an unbounded int, without int64 wrap-around), 999999 for a numeric column with no value, the outlier marker for a non-numeric column, and None when the computation raises |
| Testers.Target | datafaux/modes/testers.py:22-23 | the chosen cell lies within the table |
| Testers.Overwrite | datafaux/modes/testers.py:26 | `df.at[idx, col] = v` sets that cell and no other |
| Testers.Step | datafaux/modes/testers.py:21-40 | one attempt keeps the table's shape and stores, in its target cell, the corruption computed from the target column before the attempt |
| Testers.StepOther | datafaux/modes/testers.py:21-40 | a cell an attempt does not target keeps its value |
| Testers.InjectN | datafaux/modes/testers.py:21 | the attempts keep the table's shape |
| Testers.Trunc | datafaux/modes/testers.py:19 | `int(x)` truncates toward zero |
| Testers.ErrorCount | datafaux/modes/testers.py:19 | at least one attempt |
| Testers.ErrorCountMeaning | datafaux/modes/testers.py:18-19 | the attempt count is `cells × rate` rounded down, or 1 when that is below 1 |
| Testers.TruncAtMost | datafaux/modes/testers.py:19 | `int(n * r)` for a rate `r` in [0, 1] never exceeds `n` |
| Testers.ErrorCountAtMostCells | datafaux/modes/testers.py:18-19 | with a rate in [0, 1] there are at most as many attempts as cells |
| Testers.ErrorCountExamples | tests/test_modes.py:6-9 | the test's 10 × 2 table at rate 0.5 gets 10 attempts; a tiny rate still gets one |
| Testers.Inject | datafaux/modes/testers.py:14-41 | the table keeps its shape, and an empty table is unchanged |
| Testers.UntargetedAll | datafaux/modes/testers.py:21-23 | no attempt among the first `k` targets the cell |
| Testers.InjectNUntouched | datafaux/modes/testers.py:21-40 | a cell no attempt targets keeps its value |
| Testers.InjectUntouched | datafaux/modes/testers.py:14-41 | only the cells the `n_errors` attempts target can change |
| Testers.InjectLastAttempt | datafaux/modes/testers.py:21-40 | the last attempt's cell holds that attempt's corruption |
| Testers.Frame.constructor | datafaux/modes/testers.py:5 | a table of the given shape, filled with one value |
| Testers.Frame.Grid | datafaux/modes/testers.py:5 | the cells as a rectangular grid |
| Testers.ColumnOf | datafaux/modes/testers.py:31 | reads column `col` from the array |
| Testers.CorruptionOf | datafaux/modes/testers.py:24-40 | the value stored is the attempt's corruption, computed from the table as it is before the attempt |
| Testers.InjectOne | datafaux/modes/testers.py:21-40 | one attempt done in place |
| Testers.InjectErrors | datafaux/modes/testers.py:5-41 | the frame's cells end as `Inject` says, changed in place, and the same frame is returned |

## Left out

- `cli.py`, `faker_helpers.py`, the finance and health generators, `modes/__init__.py` and `setup.py`: they are argument handling, library set-up and other generators, not part of this model.
- Faker, `uuid`, `random` and the clock: their values are opaque strings and raw numbers from the oracle, and seeding is not modelled.
- tqdm progress bars: they do not change what is written.
- pandas serialisation (CSV quoting, JSON layout, Parquet and Excel bytes) and file-system errors: a write is an event and the disk a map of pieces.
- Field order within a record: records are maps, so the declared column order is not captured.
- Floating point: prices and totals are exact integer cents, and `round(total, 2)` is not modelled.
- Ecommerce.OrderAt: the total is exact integer cents rather than pandas' float sum rounded to 2 decimals.
- Ecommerce.OrderAt: a pool record without `customer_id` raises `KeyError`; a missing DataFrame column is modelled per record, not per column.
- Testers.Numeric: pandas decides "numeric" from the column's dtype. The model uses the current values: every non-null cell is an int. So an all-null column counts as numeric, and bool columns do not.
- Testers.Corruption: whether the outlier computation raises is a draw of the attempt, not derived from pandas. The outlier `current.max() * 1000` is an unbounded integer here, while pandas computes it on an int64 scalar: for a column maximum above about 9.22e15 the product wraps around (numpy only warns, so the `except` does not catch it), and the model's value differs. Ints beyond int64 itself, which make pandas store an object column that is not numeric, are not modelled either.
- Testers.InjectErrors: assigning a string or None to an int column does not change the column's dtype here. Index labels are positions.
- Streaming.PeopleStream: requires `count <= 0 || chunksize > 0`. With `count > 0` and `chunksize <= 0` the Python generator never ends (`take <= 0` never advances `produced`), and a non-terminating run is not modelled.
- Streaming.StreamPeople: requires `count <= 0 || chunksize >= 0 || (fmt != "csv" && fmt != "json")`. With `count > 0` and a negative chunk size the generator yields empty batches forever: CSV and JSON then append empty chunks without end, which is not modelled, while every other format raises `ValueError` at the first batch (modelled). Chunk size 0 raises before the generator runs.
- Testers.ErrorCountMeaning: the product `total_cells * error_rate` is exact here, while Python computes it in binary floating point before `int` truncates it. The two can differ by one: 100 cells at rate 0.29 give 28 attempts in Python (the double nearest 0.29 lies just below it) and 29 here.
- Testers.ErrorCount: computes `int(total_cells * error_rate)` on exact reals, not on Python floats, so the two can differ by one in either direction: 100 cells at rate 0.29 give 28 in Python and 29 here, and 6 cells at rate 0.3333333333333333 give 2 in Python (the double product rounds to 2.0) and 1 here; Testers.Inject and Testers.InjectErrors inherit this.
- Text.Lower: lowers only the ASCII capitals A–Z, where `str.lower` lowers every cased Unicode letter. The only non-ASCII character whose lowercase is ASCII is the Kelvin sign (to `k`), and no format name contains `k`, so the set of accepted formats is the same.
- Exporters.SaveDf: accepts exactly the formats `save_df` accepts, but for a rejected name holding non-ASCII capitals the message names it lowered only in ASCII (for "ÉXML" the model says "Format Éxml not supported" where Python says "Format éxml not supported").
- People.RandomInt: `min`/`max` are Values, so floats, dates and other Python objects are not representable bounds. The model follows Python 3.12 and later, where `randrange` raises `TypeError` for a non-integer bound. On Python 3.11 and earlier a string or non-integral float `min` raises `ValueError` instead.
- People.FieldValue: which `start` values Faker's `date_time_between` accepts is the oracle's `startOk`, except that the default `"-3y"` is always accepted. Faker's parse rules are not modelled, and neither is the date the call returns, which stays an opaque string.
- People.Person: Faker's values are opaque, so the contract states only the shape of a record, not what the strings look like.
