/** The export driver (`main` in sql_to_s3.py): pull chunks from the
    generator, key each by its first row's date, and upload it to the
    derived destination path. The database and the object store are
    abstracted to an event log: `Request(r)` is one page query the generator
    issues (its SQL text is `ChunkQuery(r)`), `Put(bucket, key, body)` is one
    `upload_to_s3` call writing `body` to the object `DestinationPath(key)`
    (the parquet encoding is left opaque, so the body is the chunk itself). */
module Pipeline {
  import opened Pagination
  import opened Partition

  /** What a run is configured with: the ordered base query, the page size
      and the destination bucket. */
  datatype Config = Config(query: string, chunksize: nat, bucket: string)

  /** The configuration `main` hard-codes; the page size is
      `data_generator`'s default, which `main` does not override. */
  const MainConfig := Config("SELECT * FROM your_large_table ORDER BY your_date_column", 50000, "your_s3_bucket")

  datatype Event = Request(page: PageRequest) | Put(bucket: string, key: Date, body: seq<Row>)

  /** The upload `main` performs for one yielded chunk: the whole chunk,
      to the configured bucket, filed under the chunk's partition key. The
      body keys it by the first row's date directly; `UploadKey` shows that
      this is the key `unique()[0]` derives. */
  function Upload(cfg: Config, chunk: seq<Row>): Event
    requires |chunk| > 0
  {
    Put(cfg.bucket, chunk[0].date, chunk)
  }

  /** The key `Upload` files a chunk under is the one `main` derives with
      `unique()[0]`. */
  lemma UploadKey(cfg: Config, chunk: seq<Row>)
    requires |chunk| > 0
    ensures Upload(cfg, chunk) == Put(cfg.bucket, PartitionKey(chunk), chunk)
  {
  }

  /** The partition key `main` derives for one yielded chunk: the first
      unique year, month and day of its date column. */
  method ChunkKey(chunk: seq<Row>) returns (key: Date)
    requires |chunk| > 0
    ensures key == chunk[0].date
  {
    key := PartitionKey(chunk);
  }

  /** The run from the generator's cursor at `offset` on. The generator is
      lazy, so each chunk is uploaded before the next page is requested. */
  function Run(cfg: Config, rows: seq<Row>, offset: nat): seq<Event>
    decreases |rows| - Min(offset, |rows|)
  {
    var request := Request(PageRequest(cfg.query, offset, cfg.chunksize));
    var data := Fetch(rows, offset, cfg.chunksize);
    if data == [] then [request]
    else [request, Upload(cfg, data)] + Run(cfg, rows, offset + cfg.chunksize)
  }

  /** One step of a run: the page request at `offset`, then either the end
      of the run (an empty page) or that page's upload and the rest of the
      run one page further on. */
  lemma RunStep(cfg: Config, rows: seq<Row>, offset: nat)
    ensures Fetch(rows, offset, cfg.chunksize) == [] ==>
      Run(cfg, rows, offset) == [Request(PageRequest(cfg.query, offset, cfg.chunksize))]
    ensures Fetch(rows, offset, cfg.chunksize) != [] ==>
      Run(cfg, rows, offset) == [Request(PageRequest(cfg.query, offset, cfg.chunksize)),
        Upload(cfg, Fetch(rows, offset, cfg.chunksize))] + Run(cfg, rows, offset + cfg.chunksize)
  {
  }

  /** A run makes one request per page it reads, the last one empty, and
      one upload per chunk the generator yields. */
  lemma {:induction false} RunLength(cfg: Config, rows: seq<Row>, offset: nat)
    ensures |Run(cfg, rows, offset)| == 2 * |Generate(cfg.query, rows, cfg.chunksize, offset).chunks| + 1
    decreases |rows| - Min(offset, |rows|)
  {
    RunStep(cfg, rows, offset);
    GenerateStep(cfg.query, rows, cfg.chunksize, offset);
    if Fetch(rows, offset, cfg.chunksize) != [] {
      RunLength(cfg, rows, offset + cfg.chunksize);
    }
  }

  /** A run ends with the request of the first page past the table, the
      one that comes back empty. */
  lemma {:induction false} RunEndsWithEmptyRequest(cfg: Config, rows: seq<Row>, offset: nat)
    ensures |Run(cfg, rows, offset)| >= 1
    ensures Run(cfg, rows, offset)[|Run(cfg, rows, offset)| - 1].Request?
    ensures Fetch(rows, Run(cfg, rows, offset)[|Run(cfg, rows, offset)| - 1].page.offset, cfg.chunksize) == []
    decreases |rows| - Min(offset, |rows|)
  {
    RunStep(cfg, rows, offset);
    if Fetch(rows, offset, cfg.chunksize) != [] {
      RunEndsWithEmptyRequest(cfg, rows, offset + cfg.chunksize);
    }
  }

  /** The generator's requests interleaved with one upload per yielded
      chunk: request k, then the upload of chunk k, and finally the request
      that comes back empty. */
  function Interleave(cfg: Config, requests: seq<PageRequest>, chunks: seq<seq<Row>>): (log: seq<Event>)
    requires |requests| == |chunks| + 1
    requires AllNonEmpty(chunks)
    ensures |log| == |requests| + |chunks|
  {
    if chunks == [] then [Request(requests[0])]
    else [Request(requests[0]), Upload(cfg, chunks[0])] + Interleave(cfg, requests[1..], chunks[1..])
  }

  /** Interleaving a request and a chunk in front of a trace puts that
      request and that chunk's upload in front of its log. */
  lemma InterleaveStep(cfg: Config, request: PageRequest, requests: seq<PageRequest>, chunk: seq<Row>, chunks: seq<seq<Row>>)
    requires |requests| == |chunks| + 1
    requires chunk != [] && AllNonEmpty(chunks)
    ensures AllNonEmpty([chunk] + chunks)
    ensures Interleave(cfg, [request] + requests, [chunk] + chunks)
      == [Request(request), Upload(cfg, chunk)] + Interleave(cfg, requests, chunks)
  {
    assert ([request] + requests)[1..] == requests;
    assert ([chunk] + chunks)[1..] == chunks;
  }

  /** The driver uploads each chunk the generator yields, in yield order,
      before the generator issues its next request. */
  lemma {:induction false} RunFollowsGenerator(cfg: Config, rows: seq<Row>, offset: nat)
    ensures Run(cfg, rows, offset) == Interleave(cfg,
      Generate(cfg.query, rows, cfg.chunksize, offset).requests,
      Generate(cfg.query, rows, cfg.chunksize, offset).chunks)
    decreases |rows| - Min(offset, |rows|)
  {
    var request := PageRequest(cfg.query, offset, cfg.chunksize);
    var data := Fetch(rows, offset, cfg.chunksize);
    GenerateStep(cfg.query, rows, cfg.chunksize, offset);
    RunStep(cfg, rows, offset);
    if data != [] {
      var next := offset + cfg.chunksize;
      var rest := Generate(cfg.query, rows, cfg.chunksize, next);
      calc {
        Run(cfg, rows, offset);
        [Request(request), Upload(cfg, data)] + Run(cfg, rows, next);
        { RunFollowsGenerator(cfg, rows, next); }
        [Request(request), Upload(cfg, data)] + Interleave(cfg, rest.requests, rest.chunks);
        { InterleaveStep(cfg, request, rest.requests, data, rest.chunks); }
        Interleave(cfg, [request] + rest.requests, [data] + rest.chunks);
      }
    }
  }

  /** The bodies of the uploads in a log, in order. */
  function Uploaded(log: seq<Event>): seq<seq<Row>> {
    if log == [] then []
    else if log[0].Put? then [log[0].body] + Uploaded(log[1..])
    else Uploaded(log[1..])
  }

  /** Interleaving uploads one body per chunk, in order, and nothing else. */
  lemma {:induction false} InterleaveUploads(cfg: Config, requests: seq<PageRequest>, chunks: seq<seq<Row>>)
    requires |requests| == |chunks| + 1
    requires AllNonEmpty(chunks)
    ensures Uploaded(Interleave(cfg, requests, chunks)) == chunks
    decreases |chunks|
  {
    var log := Interleave(cfg, requests, chunks);
    if chunks != [] {
      var rest := Interleave(cfg, requests[1..], chunks[1..]);
      assert log == [Request(requests[0]), Upload(cfg, chunks[0])] + rest;
      InterleaveUploads(cfg, requests[1..], chunks[1..]);
      assert log[1..][1..] == rest;
      assert chunks == [chunks[0]] + chunks[1..];
    }
  }

  /** Every chunk the generator yields is uploaded exactly once, in order,
      and nothing else is. */
  lemma RunUploadsEveryChunk(cfg: Config, rows: seq<Row>, offset: nat)
    ensures Uploaded(Run(cfg, rows, offset)) == Generate(cfg.query, rows, cfg.chunksize, offset).chunks
  {
    RunFollowsGenerator(cfg, rows, offset);
    InterleaveUploads(cfg, Generate(cfg.query, rows, cfg.chunksize, offset).requests,
      Generate(cfg.query, rows, cfg.chunksize, offset).chunks);
  }

  /** With a positive page size the uploaded bodies, concatenated in order,
      are the whole table: every row is uploaded once. Whether it stays in
      the bucket is another matter: see `SameDayTwoPagesSharePath`. */
  lemma RunExportsTable(cfg: Config, rows: seq<Row>)
    requires cfg.chunksize >= 1
    ensures Flatten(Uploaded(Run(cfg, rows, 0))) == rows
  {
    RunUploadsEveryChunk(cfg, rows, 0);
    GenerateCoversTable(cfg.query, rows, cfg.chunksize);
  }

  /** `main` itself, with its hard-coded query, page size and bucket,
      uploads every row of the table once, in order, in pages of at most
      50000 rows, all to the bucket `your_s3_bucket`. */
  lemma MainExportsTable(rows: seq<Row>)
    ensures Flatten(Uploaded(Run(MainConfig, rows, 0))) == rows
    ensures forall k :: 0 <= k < |Uploaded(Run(MainConfig, rows, 0))| ==>
      1 <= |Uploaded(Run(MainConfig, rows, 0))[k]| <= 50000
    ensures forall e :: e in Run(MainConfig, rows, 0) && e.Put? ==> e.bucket == "your_s3_bucket"
  {
    RunExportsTable(MainConfig, rows);
    RunUploadsEveryChunk(MainConfig, rows, 0);
    GenerateChunkSizes(MainConfig.query, rows, MainConfig.chunksize, 0);
    RunUploadsToOwnPath(MainConfig, rows, 0);
  }

  /** Every upload goes to the configured bucket, carries a non-empty chunk,
      and is filed under that same chunk's first row's date, so its object
      is `DestinationPath(e.body[0].date)`. */
  lemma {:induction false} RunUploadsToOwnPath(cfg: Config, rows: seq<Row>, offset: nat)
    ensures forall e :: e in Run(cfg, rows, offset) && e.Put? ==>
      && e.bucket == cfg.bucket
      && |e.body| > 0
      && e.key == e.body[0].date
    decreases |rows| - Min(offset, |rows|)
  {
    var data := Fetch(rows, offset, cfg.chunksize);
    RunStep(cfg, rows, offset);
    if data != [] {
      RunUploadsToOwnPath(cfg, rows, offset + cfg.chunksize);
    }
  }

  /** An empty table is exported with a single request and no upload. */
  lemma EmptyTableExport(cfg: Config)
    ensures Run(cfg, [], 0) == [Request(PageRequest(cfg.query, 0, cfg.chunksize))]
    ensures Uploaded(Run(cfg, [], 0)) == []
  {
  }

  /** What the bucket holds after the uploads of a log, by partition key
      (the object path is `DestinationPath` of the key, and distinct keys
      have distinct paths): `put_object` replaces whatever an object
      already held, so a later upload under a key overwrites an earlier
      one. */
  function Stored(log: seq<Event>): map<Date, seq<Row>> {
    if log == [] then map[]
    else
      var e := log[|log| - 1];
      if e.Put? then Stored(log[..|log| - 1])[e.key := e.body] else Stored(log[..|log| - 1])
  }

  /** Every stored object is the body of the last upload under its key,
      and the keys stored are exactly the keys uploaded to. */
  lemma {:induction false} StoredIsLastUpload(log: seq<Event>)
    ensures forall k :: k in Stored(log) <==> exists i :: 0 <= i < |log| && log[i].Put? && log[i].key == k
    ensures forall i :: 0 <= i < |log| && log[i].Put? && (forall j :: i < j < |log| && log[j].Put? ==> log[j].key != log[i].key) ==>
      log[i].key in Stored(log) && Stored(log)[log[i].key] == log[i].body
    decreases |log|
  {
    if log != [] {
      var init := log[..|log| - 1];
      StoredIsLastUpload(init);
      forall k | k in Stored(log)
        ensures exists i :: 0 <= i < |log| && log[i].Put? && log[i].key == k
      {
        if k in Stored(init) && !(log[|log| - 1].Put? && log[|log| - 1].key == k) {
          var i :| 0 <= i < |init| && init[i].Put? && init[i].key == k;
          assert log[i] == init[i];
        }
      }
      forall k, i | 0 <= i < |log| && log[i].Put? && log[i].key == k
        ensures k in Stored(log)
      {
        if i < |init| {
          assert init[i] == log[i];
        }
      }
      forall i | 0 <= i < |log| && log[i].Put? && (forall j :: i < j < |log| && log[j].Put? ==> log[j].key != log[i].key)
        ensures log[i].key in Stored(log) && Stored(log)[log[i].key] == log[i].body
      {
        if i < |init| {
          assert init[i] == log[i];
          forall j | i < j < |init| && init[j].Put?
            ensures init[j].key != init[i].key
          {
            assert init[j] == log[j];
          }
        }
      }
    }
  }

  /** Appending one event to a log applies its upload, if it is one. */
  lemma StoredSnoc(log: seq<Event>, e: Event)
    ensures Stored(log + [e]) == if e.Put? then Stored(log)[e.key := e.body] else Stored(log)
  {
    assert (log + [e])[..|log|] == log;
  }

  /** A log of three requests around two uploads stores the second upload
      over the first when they share a key. */
  lemma StoredTwoUploads(a: Event, b: Event, c: Event, d: Event, e: Event)
    requires !a.Put? && b.Put? && !c.Put? && d.Put? && !e.Put?
    ensures Stored([a, b, c, d, e]) == Stored([])[b.key := b.body][d.key := d.body]
  {
    StoredSnoc([], a);
    StoredSnoc([a], b);
    StoredSnoc([a, b], c);
    StoredSnoc([a, b, c], d);
    StoredSnoc([a, b, c, d], e);
    assert [] + [a] == [a];
    assert [a] + [b] == [a, b];
    assert [a, b] + [c] == [a, b, c];
    assert [a, b, c] + [d] == [a, b, c, d];
    assert [a, b, c, d] + [e] == [a, b, c, d, e];
  }

  /** A table of two full pages is read with three requests and uploaded
      with two, each page filed under its own first row's date. */
  lemma TwoPageRun(cfg: Config, first: seq<Row>, second: seq<Row>)
    requires cfg.chunksize >= 1 && |first| == cfg.chunksize && |second| == cfg.chunksize
    ensures Run(cfg, first + second, 0) == [
      Request(PageRequest(cfg.query, 0, cfg.chunksize)),
      Put(cfg.bucket, first[0].date, first),
      Request(PageRequest(cfg.query, cfg.chunksize, cfg.chunksize)),
      Put(cfg.bucket, second[0].date, second),
      Request(PageRequest(cfg.query, 2 * cfg.chunksize, cfg.chunksize))]
  {
    var rows, p := first + second, cfg.chunksize;
    FetchTwoPages(first, second);
    var last := [Request(PageRequest(cfg.query, 2 * p, p))];
    var secondPage := [Request(PageRequest(cfg.query, p, p)), Put(cfg.bucket, second[0].date, second)];
    var firstPage := [Request(PageRequest(cfg.query, 0, p)), Put(cfg.bucket, first[0].date, first)];
    RunStep(cfg, rows, 2 * p);
    assert Run(cfg, rows, 2 * p) == last;
    RunStep(cfg, rows, p);
    assert Run(cfg, rows, p) == secondPage + last;
    RunStep(cfg, rows, 0);
    assert Run(cfg, rows, 0) == firstPage + (secondPage + last);
    FiveEvents(firstPage[0], firstPage[1], secondPage[0], secondPage[1], last[0]);
  }

  /** A table of two full pages, the first dated `d1` throughout and the
      second `d2`, is uploaded with three requests and two uploads, to two
      different paths, and both pages stay in the bucket. */
  lemma TwoDayExport(cfg: Config, first: seq<Row>, second: seq<Row>, d1: Date, d2: Date)
    requires cfg.chunksize >= 1 && |first| == cfg.chunksize && |second| == cfg.chunksize
    requires forall i :: 0 <= i < |first| ==> first[i].date == d1
    requires forall i :: 0 <= i < |second| ==> second[i].date == d2
    requires d1 != d2
    ensures Run(cfg, first + second, 0) == [
      Request(PageRequest(cfg.query, 0, cfg.chunksize)),
      Put(cfg.bucket, d1, first),
      Request(PageRequest(cfg.query, cfg.chunksize, cfg.chunksize)),
      Put(cfg.bucket, d2, second),
      Request(PageRequest(cfg.query, 2 * cfg.chunksize, cfg.chunksize))]
    ensures DestinationPath(d1) != DestinationPath(d2)
    ensures Stored(Run(cfg, first + second, 0)) == map[d1 := first, d2 := second]
  {
    assert first[0].date == d1 && second[0].date == d2;
    TwoPageRun(cfg, first, second);
    var log := Run(cfg, first + second, 0);
    StoredTwoUploads(log[0], log[1], log[2], log[3], log[4]);
    DestinationPathInjective(d1, d2);
  }

  /** A day with more rows than one page is uploaded as two pages to the
      same path, and the second upload replaces the first: of the day's
      rows, only the second page remains in the bucket. */
  lemma SameDayTwoPagesSharePath(cfg: Config, first: seq<Row>, second: seq<Row>, d: Date)
    requires cfg.chunksize >= 1 && |first| == cfg.chunksize && |second| == cfg.chunksize
    requires forall i :: 0 <= i < |first| ==> first[i].date == d
    requires forall i :: 0 <= i < |second| ==> second[i].date == d
    ensures Run(cfg, first + second, 0) == [
      Request(PageRequest(cfg.query, 0, cfg.chunksize)),
      Put(cfg.bucket, d, first),
      Request(PageRequest(cfg.query, cfg.chunksize, cfg.chunksize)),
      Put(cfg.bucket, d, second),
      Request(PageRequest(cfg.query, 2 * cfg.chunksize, cfg.chunksize))]
    ensures Stored(Run(cfg, first + second, 0)) == map[d := second]
  {
    assert first[0].date == d && second[0].date == d;
    TwoPageRun(cfg, first, second);
    var log := Run(cfg, first + second, 0);
    StoredTwoUploads(log[0], log[1], log[2], log[3], log[4]);
    assert Stored([]) == map[];
    assert map[d := first][d := second] == map[d := second];
  }

  /** Helps the solver with a literal concatenation; no source counterpart. */
  lemma FiveEvents(a: Event, b: Event, c: Event, d: Event, e: Event)
    ensures [a, b] + ([c, d] + [e]) == [a, b, c, d, e]
  {
  }

  /** Three rows all dated 2024-01-15, with any page size of at least three
      (`main`'s is 50000): one page, uploaded under the unpadded path for
      that day, then one empty request. */
  lemma SingleDayExample(cfg: Config, rows: seq<Row>)
    requires cfg.chunksize >= 3
    requires |rows| == 3
    requires forall i :: 0 <= i < |rows| ==> rows[i].date == Date(2024, 1, 15)
    ensures Run(cfg, rows, 0) == [
      Request(PageRequest(cfg.query, 0, cfg.chunksize)),
      Put(cfg.bucket, Date(2024, 1, 15), rows),
      Request(PageRequest(cfg.query, cfg.chunksize, cfg.chunksize))]
    ensures DestinationPath(Run(cfg, rows, 0)[1].key) == "path/to/destination/year=2024/month=1/day=15/data.parquet"
  {
    var p := cfg.chunksize;
    assert Fetch(rows, 0, p) == rows;
    assert Fetch(rows, p, p) == [];
    RunStep(cfg, rows, p);
    RunStep(cfg, rows, 0);
    assert Run(cfg, rows, 0)[1].key == Date(2024, 1, 15);
    ExamplePath();
  }

  /** `main`'s chunk loop with the generator's body inlined, as its lazy
      evaluation interleaves them: request a page, stop on an empty one,
      otherwise upload it and advance the cursor. `main` runs it with
      `MainConfig`. */
  method Export(cfg: Config, rows: seq<Row>) returns (log: seq<Event>)
    ensures log == Run(cfg, rows, 0)
  {
    var offset: nat := 0;
    var chunk := Fetch(rows, offset, cfg.chunksize);
    log := [];
    while chunk != []
      invariant chunk == Fetch(rows, offset, cfg.chunksize)
      invariant Run(cfg, rows, 0) == log + Run(cfg, rows, offset)
      decreases |rows| - Min(offset, |rows|)
    {
      RunStep(cfg, rows, offset);
      var key := ChunkKey(chunk);
      var step := [Request(PageRequest(cfg.query, offset, cfg.chunksize)), Put(cfg.bucket, key, chunk)];
      Advance(Run(cfg, rows, 0), log, Run(cfg, rows, offset), step, Run(cfg, rows, offset + cfg.chunksize));
      log := log + step;
      offset := offset + cfg.chunksize;
      chunk := Fetch(rows, offset, cfg.chunksize);
    }
    RunStep(cfg, rows, offset);
    log := log + [Request(PageRequest(cfg.query, offset, cfg.chunksize))];
  }
}
