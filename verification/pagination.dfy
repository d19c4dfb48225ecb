/** Offset pagination over an ordered query result (`data_generator` in
    sql_to_s3.py). The database is abstracted away: the ordered result of the
    base query is a sequence `rows`, and the `OFFSET o ROWS FETCH NEXT p ROWS
    ONLY` suffix selects the slice of at most `p` rows starting at row `o`. */
module Pagination {
  import opened Optional
  import opened Decimal

  function Min(a: int, b: int): int {
    if a <= b then a else b
  }

  /** The clause appended to the base query for one page. */
  function PageClause(offset: nat, chunksize: nat): string {
    " OFFSET " + (FromNat(offset) + (" ROWS FETCH NEXT " + (FromNat(chunksize) + " ROWS ONLY")))
  }

  /** One page request of the generator: the base query and the position
      of the page within its ordered result. */
  datatype PageRequest = PageRequest(query: string, offset: nat, chunksize: nat)

  /** The SQL text sent for a page request: the base query, unchanged,
      followed by the page clause. */
  function ChunkQuery(r: PageRequest): (q: string)
    ensures |q| > |r.query| && q[..|r.query|] == r.query
  {
    r.query + PageClause(r.offset, r.chunksize)
  }

  /** Recovers the page request from its SQL text, given the base query. */
  function ParseChunkQuery(query: string, q: string): Option<PageRequest> {
    var s0 :- Expect(query, q);
    var (offset, s1) :- ReadField(" OFFSET ", s0);
    var (chunksize, s2) :- ReadField(" ROWS FETCH NEXT ", s1);
    if s2 == " ROWS ONLY" then Some(PageRequest(query, offset, chunksize)) else None
  }

  lemma ChunkQueryRoundTrip(r: PageRequest)
    ensures ParseChunkQuery(r.query, ChunkQuery(r)) == Some(r)
  {
    var tail1 := " ROWS FETCH NEXT " + (FromNat(r.chunksize) + " ROWS ONLY");
    ExpectLiteral(r.query, PageClause(r.offset, r.chunksize));
    ReadFieldOf(" OFFSET ", r.offset, tail1);
    ReadFieldOf(" ROWS FETCH NEXT ", r.chunksize, " ROWS ONLY");
  }

  /** Distinct pages of the same base query are requested with distinct
      SQL texts. */
  lemma ChunkQueryInjective(r1: PageRequest, r2: PageRequest)
    requires r1.query == r2.query
    ensures ChunkQuery(r1) == ChunkQuery(r2) <==> r1 == r2
  {
    ChunkQueryRoundTrip(r1);
    ChunkQueryRoundTrip(r2);
  }

  /** The rows the page query at `offset` returns: at most `chunksize`
      rows, taken in order from row `offset`; none past the end. */
  function Fetch<T>(rows: seq<T>, offset: nat, chunksize: nat): (data: seq<T>)
    ensures |data| == if offset >= |rows| then 0 else Min(chunksize, |rows| - offset)
  {
    if offset >= |rows| then [] else rows[offset..Min(offset + chunksize, |rows|)]
  }

  /** Row `i` of a page is row `offset + i` of the ordered result. */
  lemma FetchRows<T>(rows: seq<T>, offset: nat, chunksize: nat)
    ensures forall i :: 0 <= i < |Fetch(rows, offset, chunksize)| ==>
      Fetch(rows, offset, chunksize)[i] == rows[offset + i]
  {
  }

  /** No chunk in `chunks` is empty. */
  predicate AllNonEmpty<T>(chunks: seq<seq<T>>) {
    chunks == [] || (chunks[0] != [] && AllNonEmpty(chunks[1..]))
  }

  /** Everything one run of the generator does: the page requests it issues,
      in order (the last one comes back empty), and the chunks it yields. */
  datatype Trace<T> = Trace(requests: seq<PageRequest>, chunks: seq<seq<T>>)

  /** The generator resumed with its cursor at `offset`: request a page; an
      empty page ends the iteration, otherwise the page is yielded and the
      cursor moves on by `chunksize`. */
  function Generate<T>(query: string, rows: seq<T>, chunksize: nat, offset: nat): (t: Trace<T>)
    ensures |t.requests| == |t.chunks| + 1
    ensures AllNonEmpty(t.chunks)
    decreases |rows| - Min(offset, |rows|)
  {
    var q := PageRequest(query, offset, chunksize);
    var data := Fetch(rows, offset, chunksize);
    if data == [] then Trace([q], [])
    else
      var rest := Generate(query, rows, chunksize, offset + chunksize);
      Trace([q] + rest.requests, [data] + rest.chunks)
  }

  /** One step of the generator: request the page at `offset`; an empty
      page ends the trace, otherwise it is the first chunk and the rest of
      the trace starts one page further on. */
  lemma GenerateStep<T>(query: string, rows: seq<T>, chunksize: nat, offset: nat)
    ensures Generate(query, rows, chunksize, offset).requests[0] == PageRequest(query, offset, chunksize)
    ensures Fetch(rows, offset, chunksize) == [] ==>
      && Generate(query, rows, chunksize, offset).requests == [PageRequest(query, offset, chunksize)]
      && Generate(query, rows, chunksize, offset).chunks == []
    ensures Fetch(rows, offset, chunksize) != [] ==>
      && Generate(query, rows, chunksize, offset).requests
         == [PageRequest(query, offset, chunksize)] + Generate(query, rows, chunksize, offset + chunksize).requests
      && Generate(query, rows, chunksize, offset).chunks
         == [Fetch(rows, offset, chunksize)] + Generate(query, rows, chunksize, offset + chunksize).chunks
  {
  }

  /** The generator's cursor after `k` yields, starting from `offset`:
      it grows by `chunksize` per yield. */
  function Cursor(offset: nat, chunksize: nat, k: nat): nat {
    if k == 0 then offset else Cursor(offset, chunksize, k - 1) + chunksize
  }

  /** After `k` yields the cursor stands at `offset + k * chunksize`. */
  lemma {:induction false} CursorIsProduct(offset: nat, chunksize: nat, k: nat)
    ensures Cursor(offset, chunksize, k) == offset + k * chunksize
  {
    if k > 0 {
      CursorIsProduct(offset, chunksize, k - 1);
      assert (k - 1) * chunksize + chunksize == k * chunksize;
    }
  }

  /** Counting the first step separately. */
  lemma {:induction false} CursorShift(offset: nat, chunksize: nat, k: nat)
    ensures Cursor(offset + chunksize, chunksize, k) == Cursor(offset, chunksize, k + 1)
  {
    if k > 0 {
      CursorShift(offset, chunksize, k - 1);
    }
  }

  /** The k-th request is made with the cursor `k` steps past `offset`. */
  lemma {:induction false} GenerateQueries<T>(query: string, rows: seq<T>, chunksize: nat, offset: nat)
    ensures forall k :: 0 <= k < |Generate(query, rows, chunksize, offset).requests| ==>
      Generate(query, rows, chunksize, offset).requests[k] == PageRequest(query, Cursor(offset, chunksize, k), chunksize)
    decreases |rows| - Min(offset, |rows|)
  {
    var t := Generate(query, rows, chunksize, offset);
    GenerateStep(query, rows, chunksize, offset);
    if Fetch(rows, offset, chunksize) != [] {
      var rest := Generate(query, rows, chunksize, offset + chunksize);
      GenerateQueries(query, rows, chunksize, offset + chunksize);
      forall k | 0 <= k < |t.requests|
        ensures t.requests[k] == PageRequest(query, Cursor(offset, chunksize, k), chunksize)
      {
        if k > 0 {
          ConsIndex(t.requests, PageRequest(query, offset, chunksize), rest.requests, k);
          CursorShift(offset, chunksize, k - 1);
        }
      }
    }
  }

  /** From the start of the table, the k-th request asks for the page at
      row `k * chunksize`. */
  lemma GenerateRequestOffsets<T>(query: string, rows: seq<T>, chunksize: nat)
    ensures forall k :: 0 <= k < |Generate(query, rows, chunksize, 0).requests| ==>
      Generate(query, rows, chunksize, 0).requests[k] == PageRequest(query, k * chunksize, chunksize)
  {
    GenerateQueries(query, rows, chunksize, 0);
    forall k | 0 <= k < |Generate(query, rows, chunksize, 0).requests|
      ensures Generate(query, rows, chunksize, 0).requests[k] == PageRequest(query, k * chunksize, chunksize)
    {
      CursorIsProduct(0, chunksize, k);
    }
  }

  /** The k-th yielded chunk is exactly the page `k` steps past `offset`. */
  lemma {:induction false} GenerateChunks<T>(query: string, rows: seq<T>, chunksize: nat, offset: nat)
    ensures forall k :: 0 <= k < |Generate(query, rows, chunksize, offset).chunks| ==>
      Generate(query, rows, chunksize, offset).chunks[k] == Fetch(rows, Cursor(offset, chunksize, k), chunksize)
    decreases |rows| - Min(offset, |rows|)
  {
    var t := Generate(query, rows, chunksize, offset);
    GenerateStep(query, rows, chunksize, offset);
    if Fetch(rows, offset, chunksize) != [] {
      var rest := Generate(query, rows, chunksize, offset + chunksize);
      GenerateChunks(query, rows, chunksize, offset + chunksize);
      forall k | 0 <= k < |t.chunks|
        ensures t.chunks[k] == Fetch(rows, Cursor(offset, chunksize, k), chunksize)
      {
        if k > 0 {
          ConsIndex(t.chunks, Fetch(rows, offset, chunksize), rest.chunks, k);
          CursorShift(offset, chunksize, k - 1);
        }
      }
    }
  }

  /** The request after the last yielded chunk is the first to come back
      empty, and that ends the iteration. */
  lemma {:induction false} GenerateStops<T>(query: string, rows: seq<T>, chunksize: nat, offset: nat)
    ensures Fetch(rows, Cursor(offset, chunksize, |Generate(query, rows, chunksize, offset).chunks|), chunksize) == []
    decreases |rows| - Min(offset, |rows|)
  {
    if Fetch(rows, offset, chunksize) != [] {
      var t := Generate(query, rows, chunksize, offset);
      var rest := Generate(query, rows, chunksize, offset + chunksize);
      GenerateStops(query, rows, chunksize, offset + chunksize);
      CursorShift(offset, chunksize, |rest.chunks|);
    }
  }

  /** Every yielded chunk holds between one and `chunksize` rows. */
  lemma {:induction false} GenerateChunkSizes<T>(query: string, rows: seq<T>, chunksize: nat, offset: nat)
    ensures forall k :: 0 <= k < |Generate(query, rows, chunksize, offset).chunks| ==>
      1 <= |Generate(query, rows, chunksize, offset).chunks[k]| <= chunksize
    decreases |rows| - Min(offset, |rows|)
  {
    var t := Generate(query, rows, chunksize, offset);
    var data := Fetch(rows, offset, chunksize);
    GenerateStep(query, rows, chunksize, offset);
    if data != [] {
      var rest := Generate(query, rows, chunksize, offset + chunksize);
      GenerateChunkSizes(query, rows, chunksize, offset + chunksize);
      forall k | 0 <= k < |t.chunks|
        ensures 1 <= |t.chunks[k]| <= chunksize
      {
        if k > 0 {
          ConsIndex(t.chunks, data, rest.chunks, k);
        }
      }
    }
  }

  /** A page followed by a non-empty page is full. */
  lemma FetchFullBefore<T>(rows: seq<T>, offset: nat, chunksize: nat)
    ensures Fetch(rows, offset + chunksize, chunksize) != [] ==> |Fetch(rows, offset, chunksize)| == chunksize
  {
  }

  /** Every chunk but the last is full. */
  lemma {:induction false} GenerateFullChunks<T>(query: string, rows: seq<T>, chunksize: nat, offset: nat)
    ensures forall k :: 0 <= k < |Generate(query, rows, chunksize, offset).chunks| - 1 ==>
      |Generate(query, rows, chunksize, offset).chunks[k]| == chunksize
    decreases |rows| - Min(offset, |rows|)
  {
    var t := Generate(query, rows, chunksize, offset);
    GenerateStep(query, rows, chunksize, offset);
    if Fetch(rows, offset, chunksize) != [] {
      var next := offset + chunksize;
      var rest := Generate(query, rows, chunksize, next);
      GenerateFullChunks(query, rows, chunksize, next);
      GenerateStep(query, rows, chunksize, next);
      FetchFullBefore(rows, offset, chunksize);
      forall k | 0 <= k < |t.chunks| - 1
        ensures |t.chunks[k]| == chunksize
      {
        if k > 0 {
          ConsIndex(t.chunks, Fetch(rows, offset, chunksize), rest.chunks, k);
        }
      }
    }
  }

  /** `part` is the run of `rows` that starts at row `start`. */
  ghost predicate OccursAt<T>(rows: seq<T>, start: nat, part: seq<T>) {
    start + |part| <= |rows| && part == rows[start .. start + |part|]
  }

  /** A table of two pages of equal size is fetched as those two pages,
      then nothing. */
  lemma FetchTwoPages<T>(first: seq<T>, second: seq<T>)
    requires |first| == |second|
    ensures Fetch(first + second, 0, |first|) == first
    ensures Fetch(first + second, |first|, |first|) == second
    ensures Fetch(first + second, 2 * |first|, |first|) == []
  {
    assert (first + second)[0..|first|] == first;
    assert (first + second)[|first|..2 * |first|] == second;
  }

  /** Every page is the run of rows that starts at its offset, or empty. */
  lemma FetchOccurs<T>(rows: seq<T>, offset: nat, chunksize: nat)
    ensures Fetch(rows, offset, chunksize) == [] || OccursAt(rows, offset, Fetch(rows, offset, chunksize))
  {
  }

  /** Chunk `k` is the run of rows starting `k` steps past `offset`;
      together with `GenerateFullChunks` this says that each chunk starts
      where the previous one ended, so the chunks are contiguous and do not
      overlap. */
  lemma GenerateContiguous<T>(query: string, rows: seq<T>, chunksize: nat, offset: nat)
    ensures forall k :: 0 <= k < |Generate(query, rows, chunksize, offset).chunks| ==>
      OccursAt(rows, Cursor(offset, chunksize, k), Generate(query, rows, chunksize, offset).chunks[k])
  {
    var t := Generate(query, rows, chunksize, offset);
    GenerateChunks(query, rows, chunksize, offset);
    GenerateChunkSizes(query, rows, chunksize, offset);
    forall k | 0 <= k < |t.chunks|
      ensures OccursAt(rows, Cursor(offset, chunksize, k), t.chunks[k])
    {
      assert t.chunks[k] == Fetch(rows, Cursor(offset, chunksize, k), chunksize) && t.chunks[k] != [];
      FetchOccurs(rows, Cursor(offset, chunksize, k), chunksize);
    }
  }

  function Flatten<T>(chunks: seq<seq<T>>): seq<T> {
    if chunks == [] then [] else chunks[0] + Flatten(chunks[1..])
  }

  lemma {:induction false} FlattenAppend<T>(chunks: seq<seq<T>>, last: seq<T>)
    ensures Flatten(chunks + [last]) == Flatten(chunks) + last
  {
    if chunks == [] {
      assert [] + [last] == [last];
      assert Flatten([last]) == last + Flatten([]);
    } else {
      assert (chunks + [last])[1..] == chunks[1..] + [last];
      FlattenAppend(chunks[1..], last);
    }
  }

  /** With a positive page size the yielded chunks, concatenated in order,
      are exactly the rows from the cursor onwards. */
  lemma {:induction false} GenerateCovers<T>(query: string, rows: seq<T>, chunksize: nat, offset: nat)
    requires chunksize >= 1
    requires offset <= |rows|
    ensures Flatten(Generate(query, rows, chunksize, offset).chunks) == rows[offset..]
    decreases |rows| - offset
  {
    var t := Generate(query, rows, chunksize, offset);
    var data := Fetch(rows, offset, chunksize);
    if data != [] {
      var next := offset + chunksize;
      var rest := Generate(query, rows, chunksize, next);
      assert t.chunks[1..] == rest.chunks;
      if next <= |rows| {
        GenerateCovers(query, rows, chunksize, next);
        assert rows[offset..] == rows[offset..next] + rows[next..];
      } else {
        assert Fetch(rows, next, chunksize) == [];
        assert rest.chunks == [];
        assert data == rows[offset..];
      }
    }
  }

  /** Whole-table form: every row is yielded once, in order. */
  lemma GenerateCoversTable<T>(query: string, rows: seq<T>, chunksize: nat)
    requires chunksize >= 1
    ensures Flatten(Generate(query, rows, chunksize, 0).chunks) == rows
  {
    GenerateCovers(query, rows, chunksize, 0);
  }

  /** Ceiling division. */
  function CeilDiv(n: nat, p: nat): nat
    requires p >= 1
  {
    (n + p - 1) / p
  }

  /** Division has a unique quotient: if `x == q * p + r` with `r < p`
      then `x / p == q`. */
  lemma DivUnique(x: nat, p: nat, q: nat, r: nat)
    requires p >= 1 && r < p && x == q * p + r
    ensures x / p == q
  {
    var q', r' := x / p, x % p;
    assert x == q' * p + r';
    if q' > q {
      MulMonotone(q + 1, q', p);
    } else if q' < q {
      MulMonotone(q' + 1, q, p);
    }
  }

  lemma MulMonotone(a: nat, b: nat, p: nat)
    requires a <= b
    ensures a * p <= b * p
  {
  }

  lemma CeilDivStep(n: nat, p: nat)
    requires p >= 1
    ensures n == 0 ==> CeilDiv(n, p) == 0
    ensures 0 < n <= p ==> CeilDiv(n, p) == 1
    ensures n > p ==> CeilDiv(n, p) == CeilDiv(n - p, p) + 1
  {
    if n == 0 {
      DivUnique(p - 1, p, 0, p - 1);
    } else if n <= p {
      DivUnique(n + p - 1, p, 1, n - 1);
    } else {
      var m := n - p + p - 1;
      var q, r := m / p, m % p;
      assert m == q * p + r;
      assert n + p - 1 == (q + 1) * p + r;
      DivUnique(n + p - 1, p, q + 1, r);
    }
  }

  /** For `n` remaining rows and page size `p >= 1` the generator yields
      exactly ⌈n/p⌉ chunks after ⌈n/p⌉ + 1 requests. */
  lemma {:induction false} GenerateCount<T>(query: string, rows: seq<T>, chunksize: nat, offset: nat)
    requires chunksize >= 1
    requires offset <= |rows|
    ensures |Generate(query, rows, chunksize, offset).chunks| == CeilDiv(|rows| - offset, chunksize)
    ensures |Generate(query, rows, chunksize, offset).requests| == CeilDiv(|rows| - offset, chunksize) + 1
    decreases |rows| - offset
  {
    var n := |rows| - offset;
    CeilDivStep(n, chunksize);
    if n > 0 {
      var next := offset + chunksize;
      if next <= |rows| {
        GenerateCount(query, rows, chunksize, next);
      } else {
        assert Fetch(rows, next, chunksize) == [];
      }
    }
  }

  /** An empty table yields nothing after a single request. */
  lemma GenerateEmptyTable<T>(query: string, rows: seq<T>, chunksize: nat)
    requires rows == []
    ensures Generate(query, rows, chunksize, 0) == Trace([PageRequest(query, 0, chunksize)], [])
  {
  }

  /** Under slicing semantics a page size of zero fetches nothing, so the
      generator stops after its first request. */
  lemma GenerateZeroChunkSize<T>(query: string, rows: seq<T>)
    ensures Generate(query, rows, 0, 0) == Trace([PageRequest(query, 0, 0)], [])
  {
  }

  /** Past the head, indexing `[x] + rest` is indexing `rest`. */
  lemma ConsIndex<U>(s: seq<U>, x: U, rest: seq<U>, k: nat)
    requires s == [x] + rest && 0 < k < |s|
    ensures s[k] == rest[k - 1]
  {
  }

  /** Moving the first `step` of the remaining part onto the finished part
      keeps their concatenation. */
  lemma Advance<U>(whole: seq<U>, done: seq<U>, remaining: seq<U>, step: seq<U>, rest: seq<U>)
    requires whole == done + remaining && remaining == step + rest
    ensures whole == (done + step) + rest
  {
    assert done + (step + rest) == (done + step) + rest;
  }

  /** The generator's `while True` loop, run to exhaustion: `requests` and
      `chunks` record its requests and yields. */
  method DataGenerator<T>(query: string, rows: seq<T>, chunksize: nat) returns (requests: seq<PageRequest>, chunks: seq<seq<T>>)
    ensures Trace(requests, chunks) == Generate(query, rows, chunksize, 0)
  {
    var offset: nat := 0;
    requests, chunks := [], [];
    while true
      invariant Generate(query, rows, chunksize, 0).requests == requests + Generate(query, rows, chunksize, offset).requests
      invariant Generate(query, rows, chunksize, 0).chunks == chunks + Generate(query, rows, chunksize, offset).chunks
      decreases |rows| - Min(offset, |rows|)
    {
      var request := PageRequest(query, offset, chunksize);
      var data := Fetch(rows, offset, chunksize);
      GenerateStep(query, rows, chunksize, offset);
      if data == [] {
        requests := requests + [request];
        break;
      }
      ghost var rest := Generate(query, rows, chunksize, offset + chunksize);
      Advance(Generate(query, rows, chunksize, 0).requests, requests,
        Generate(query, rows, chunksize, offset).requests, [request], rest.requests);
      Advance(Generate(query, rows, chunksize, 0).chunks, chunks,
        Generate(query, rows, chunksize, offset).chunks, [data], rest.chunks);
      requests := requests + [request];
      chunks := chunks + [data];
      offset := offset + chunksize;
    }
  }
}
