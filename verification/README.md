# sql_to_s3: chunked SQL Server → S3 export, modelled in Dafny

`sql_to_s3.py` exports an ordered SQL Server table to S3 in day-partitioned
parquet objects. The `data_generator` generator pages through the ordered
result of the base query with `OFFSET {offset} ROWS FETCH NEXT {chunksize}
ROWS ONLY`:
- the cursor starts at 0;
- an empty page stops the iteration;
- every non-empty page is yielded, and then the cursor moves on by `chunksize`.

`main` takes each yielded chunk and does three things with it:
- takes the first `unique()` year, month and day of its date column as the partition key;
- builds `path/to/destination/year={Y}/month={M}/day={D}/data.parquet` from that key;
- uploads the chunk there, in the bucket `your_s3_bucket`.

The model has five modules, one file each:

- `Optional` (`optional.dfy`): the `Option` result of a parse that may fail.
- `Decimal` (`decimal.dfy`):
  - Python's unpadded `f"{n}"` rendering of a natural number, `FromNat`;
  - the small readers (`ReadNat`, `Expect`, `ReadField`) that parse such renderings back, so that the query and path formats can be shown unambiguous.
- `Pagination` (`pagination.dfy`): `data_generator`.
  - The ordered result of the base query is a sequence `rows`.
  - A page query returns the slice `Fetch(rows, offset, chunksize)`.
  - `Generate` is the generator, run from a cursor position to exhaustion. Its `Trace` records every page request (`PageRequest`, whose SQL text is `ChunkQuery`) and every yielded chunk.
  - `DataGenerator` is the same loop as an imperative method.
- `Partition` (`partition.dfy`):
  - `Unique` is pandas' `unique()`;
  - `PartitionKey` is the key derivation;
  - `DestinationPath` is the object path, with its parser and injectivity.
- `Pipeline` (`pipeline.dfy`): the driver loop of `main`.
  - The database and the object store become an event log.
  - `Request(r)` is one page query.
  - `Put(bucket, key, body)` is one `upload_to_s3` call. It writes `body` to the object `DestinationPath(key)`; since that function is injective, recording the key is the same as recording the path.
  - `Run` is the log from a cursor position on.
  - `Stored` is what the bucket holds after a log's uploads. `put_object` replaces an existing object, so a later upload under the same key overwrites an earlier one.
  - `Export` is the imperative loop.
  - `MainConfig` holds the query, page size and bucket that `main` hard-codes.

## Model

| member | source | states |
|---|---|---|
| Decimal.FromNat | sql_to_s3.py:18 | the rendering of a number is a non-empty run of decimal digits, with a leading zero only for 0 itself |
| Decimal.ValueOfFromNat | sql_to_s3.py:18 | the digits of `f"{n}"` denote `n` again |
| Decimal.ReadNatFromNat | sql_to_s3.py:55 | reading a rendered number followed by a non-digit recovers the number and the rest of the text |
| Pagination.ChunkQuery | sql_to_s3.py:18 | the page query starts with the base query, unchanged, and is strictly longer |
| Pagination.ChunkQueryRoundTrip | sql_to_s3.py:18 | offset and page size can be read back out of the page query, given the base query |
| Pagination.ChunkQueryInjective | sql_to_s3.py:18 | two page requests of one base query have the same SQL text exactly when they are the same request |
| Pagination.Fetch | sql_to_s3.py:18-19 | a page has `min(chunksize, n - offset)` rows, and none at or past the end of the table |
| Pagination.FetchRows | sql_to_s3.py:18-19 | row `i` of a page is row `offset + i` of the ordered result |
| Pagination.Generate | sql_to_s3.py:16-25 | the generator makes one more request than it yields chunks (the last request comes back empty) and never yields an empty chunk |
| Pagination.GenerateQueries | sql_to_s3.py:16-25 | the k-th request is made with the cursor advanced k times by `chunksize` |
| Pagination.GenerateRequestOffsets | sql_to_s3.py:16-25 | from the start, the k-th request asks for offset `k * chunksize` |
| Pagination.GenerateChunks | sql_to_s3.py:18-25 | the k-th yielded chunk is exactly the page at the k-th cursor position |
| Pagination.GenerateStops | sql_to_s3.py:19-22 | the page at the cursor after the last yield is empty, so iteration ends at the first empty result |
| Pagination.GenerateChunkSizes | sql_to_s3.py:18-24 | every yielded chunk has between 1 and `chunksize` rows |
| Pagination.GenerateFullChunks | sql_to_s3.py:18-25 | every chunk but the last has exactly `chunksize` rows |
| Pagination.GenerateContiguous | sql_to_s3.py:18-25 | chunk k is the run of rows starting at the k-th cursor position; with full chunks this makes the chunks contiguous and non-overlapping |
| Pagination.GenerateCovers | sql_to_s3.py:18-25 | with `chunksize >= 1`, the chunks concatenated in order are the rows from the cursor onwards |
| Pagination.GenerateCoversTable | sql_to_s3.py:16-25 | with `chunksize >= 1`, the chunks concatenated in order are the whole ordered table |
| Pagination.GenerateCount | sql_to_s3.py:17-25 | for n rows and page size p >= 1: ⌈n/p⌉ chunks after ⌈n/p⌉ + 1 requests |
| Pagination.GenerateEmptyTable | sql_to_s3.py:16-22 | an empty table yields nothing, after the single request at offset 0 |
| Pagination.GenerateZeroChunkSize | sql_to_s3.py:18-22 | a page size of 0 fetches nothing, so the generator stops after its first request |
| Pagination.DataGenerator | sql_to_s3.py:12-27 | the `while True` loop issues exactly the requests and yields exactly the chunks of `Generate` from offset 0 |
| Partition.WithoutSpec | sql_to_s3.py:52-54 | removing a value from a series keeps every other value and only those |
| Partition.Unique | sql_to_s3.py:52-54 | `unique()` of a non-empty series starts with the series' first value and is no longer than the series; `UniqueSpec` adds membership and distinctness |
| Partition.UniqueSpec | sql_to_s3.py:52-54 | `unique()` lists every value of the series, each exactly once |
| Partition.PartitionKey | sql_to_s3.py:52-54 | the key of a non-empty chunk is its first row's date |
| Partition.SingleDateKey | sql_to_s3.py:52-54 | a chunk whose rows all carry date d is keyed by d |
| Partition.KeyIgnoresLaterRows | sql_to_s3.py:52-54 | chunks with the same first date share a key; any row with a different date is filed under a key that is not its own |
| Partition.DestinationPath | sql_to_s3.py:55 | the path built from a key parses back to that key (year, month and day, in that order); `DestinationPathInjective` and `ExamplePath` fix its shape |
| Partition.DestinationPathInjective | sql_to_s3.py:55 | two keys give the same path exactly when they are equal, so distinct days never overwrite each other |
| Partition.ExamplePath | sql_to_s3.py:55 | 2024-01-15 goes to `path/to/destination/year=2024/month=1/day=15/data.parquet`, with no zero padding |
| Pipeline.UploadKey | sql_to_s3.py:52-57 | the upload of a chunk goes to the configured bucket, carries the chunk and is filed under the key `unique()[0]` derives |
| Pipeline.ChunkKey | sql_to_s3.py:52-54 | the key the driver derives for a yielded chunk is its first row's date |
| Pipeline.Run | sql_to_s3.py:51-57 | the driver's log from a cursor position; it carries no contract of its own, and `RunFollowsGenerator`, `RunLength`, `RunUploadsEveryChunk` and `RunUploadsToOwnPath` state what it does |
| Pipeline.Upload | sql_to_s3.py:57 | one `upload_to_s3` call; `Run` keys each upload by `chunk[0].date` directly, `UploadKey` proves that this is the `unique()[0]` key, and `Export` derives it through `ChunkKey` and `PartitionKey` |
| Pipeline.RunLength | sql_to_s3.py:17-25 | a run holds one upload per yielded chunk and one request more than that: 2·chunks + 1 events |
| Pipeline.RunEndsWithEmptyRequest | sql_to_s3.py:19-22 | every run ends with a request whose page is empty |
| Pipeline.RunFollowsGenerator | sql_to_s3.py:51-57 | the driver's log is the generator's requests interleaved with one upload per yielded chunk, each uploaded before the next request |
| Pipeline.InterleaveUploads | sql_to_s3.py:51-57 | the interleaved log uploads the chunks, in order, and nothing else |
| Pipeline.RunUploadsEveryChunk | sql_to_s3.py:51-57 | every yielded chunk is uploaded exactly once, in yield order, and nothing else is uploaded |
| Pipeline.RunExportsTable | sql_to_s3.py:51-57 | with `chunksize >= 1`, the uploaded bodies concatenated in order are the whole table: every row is uploaded once |
| Pipeline.MainExportsTable | sql_to_s3.py:48-57 | with `main`'s own configuration every row is uploaded once, in order, in uploads of 1 to 50000 rows, all to `your_s3_bucket` |
| Pipeline.RunUploadsToOwnPath | sql_to_s3.py:51-57 | every upload goes to the configured bucket, carries a non-empty chunk, and is filed under that same chunk's first row's date |
| Pipeline.EmptyTableExport | sql_to_s3.py:51-57 | an empty table gives one request and no upload |
| Pipeline.StoredIsLastUpload | sql_to_s3.py:36 | after a log, the bucket holds an object for exactly the keys uploaded to, each holding the body of the last upload under that key |
| Pipeline.TwoPageRun | sql_to_s3.py:51-57 | two full pages give three requests and two uploads, each page filed under its own first row's date |
| Pipeline.TwoDayExport | sql_to_s3.py:51-57 | two full pages of different days give three requests and two uploads, to two different paths, and both pages stay in the bucket |
| Pipeline.SameDayTwoPagesSharePath | sql_to_s3.py:52-57 | two full pages of the same day are uploaded to the same path, and only the second page remains in the bucket |
| Pipeline.SingleDayExample | sql_to_s3.py:51-57 | three rows of 2024-01-15 give one upload, to that day's unpadded path, followed by one empty request |
| Pipeline.Export | sql_to_s3.py:51-57 | the imperative driver loop produces exactly the log `Run` describes |

## Left out

- `connect_to_sql_server` and its ODBC connection string (sql_to_s3.py:7-10) are network and driver I/O.
- The connection, the cursor and their closing (sql_to_s3.py:14, 27, 59) are resource lifecycle with no observable effect on the export.
- `pd.read_sql` is not modelled as a SQL engine. A page query is taken to return the slice of the ordered result that `OFFSET`/`FETCH` selects.
  - The `ORDER BY` in the base query (sql_to_s3.py:48) is assumed to give one fixed order, and the rows are that order.
  - `ORDER BY your_date_column` is not unique. Rows of the same date tie, and SQL Server may order ties differently from one `OFFSET`/`FETCH` query to the next, so real pages can skip or repeat rows. `GenerateCoversTable`, `RunExportsTable` and `MainExportsTable` hold only under the fixed-order assumption.
- Parquet encoding with fastparquet and `boto3`'s `put_object` (sql_to_s3.py:29-36) are foreign library calls.
  - An upload is one `Put` event carrying the chunk itself as its body.
  - The object key is `DestinationPath` of the event's key.
  - Upload failures are not modelled.
  - The bucket is not part of `Stored`'s key: every upload of a run goes to the same bucket (`RunUploadsToOwnPath`).
- The hard-coded server, database and credential placeholders (sql_to_s3.py:40-43) are constants with no logic.
- pandas' `.dt.year`, `.dt.month` and `.dt.day` extraction is not modelled. A date is a triple of naturals with no calendar validity check.
- Exceptions are not modelled: a failed connection, query or upload aborts the script, and neither the model nor the source has retries.
- Pagination.Fetch: a page size of 0 yields an empty page, and the export then stops after one request. SQL Server rejects `FETCH NEXT 0 ROWS`, and the Python default is 50000. The table-covering lemmas therefore require `chunksize >= 1`. Negative page sizes cannot be expressed, because `chunksize` is a natural number.
- Pipeline.RunExportsTable and Pipeline.MainExportsTable speak of what is uploaded, not of what the bucket holds at the end. Consecutive chunks of one day share a path (any day with more rows than a page), and each overwrites the one before it, so only the last survives (`SameDayTwoPagesSharePath`, `StoredIsLastUpload`).
- Partition.Unique: its contract and `UniqueSpec` state the first element, membership and distinctness, but not the order of first appearance beyond the first element. The key only uses the first element.
- Partition.PartitionKey keeps the source's behaviour: the key is the first row's date even when the chunk spans several days. A design that rejects such a chunk with a mixed-partition error is not what the code does, so it is not modelled. `KeyIgnoresLaterRows` states the consequence.
