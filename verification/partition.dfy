/** Partition-key derivation and destination-path composition (the body of
    the chunk loop in `main`, sql_to_s3.py). A date is the triple of calendar
    fields pandas' `.dt.year`, `.dt.month` and `.dt.day` extract; calendar
    validity is not modelled. */
module Partition {
  import opened Optional
  import opened Decimal

  datatype Date = Date(year: nat, month: nat, day: nat)

  /** A row of the exported table: the designated date column and the
      remaining columns, whose contents the pipeline never inspects. */
  datatype Row = Row(date: Date, columns: seq<string>)

  /** `xs` without any occurrence of `v`, otherwise in order. */
  function Without(xs: seq<nat>, v: nat): (r: seq<nat>)
    ensures |r| <= |xs|
  {
    if xs == [] then []
    else if xs[0] == v then Without(xs[1..], v)
    else [xs[0]] + Without(xs[1..], v)
  }

  /** The values of `xs` in order of first appearance, each once: pandas'
      `Series.unique()`. */
  function Unique(xs: seq<nat>): (u: seq<nat>)
    ensures |u| <= |xs|
    ensures xs != [] ==> |u| > 0 && u[0] == xs[0]
    decreases |xs|
  {
    if xs == [] then [] else [xs[0]] + Unique(Without(xs[1..], xs[0]))
  }

  lemma {:induction false} WithoutSpec(xs: seq<nat>, v: nat)
    ensures forall w :: w in Without(xs, v) <==> w in xs && w != v
  {
    if xs != [] {
      WithoutSpec(xs[1..], v);
      assert xs == [xs[0]] + xs[1..];
    }
  }

  predicate Distinct(s: seq<nat>) {
    forall i, j :: 0 <= i < j < |s| ==> s[i] != s[j]
  }

  /** `unique()` lists every value of the series exactly once. */
  lemma {:induction false} UniqueSpec(xs: seq<nat>)
    ensures Distinct(Unique(xs))
    ensures forall v :: v in Unique(xs) <==> v in xs
    decreases |xs|
  {
    if xs != [] {
      var rest := Without(xs[1..], xs[0]);
      WithoutSpec(xs[1..], xs[0]);
      UniqueSpec(rest);
      assert xs == [xs[0]] + xs[1..];
      var u := Unique(xs);
      assert u == [xs[0]] + Unique(rest);
      forall i, j | 0 <= i < j < |u|
        ensures u[i] != u[j]
      {
        if i == 0 {
          assert u[j] in Unique(rest);
        } else {
          assert u[i] == Unique(rest)[i - 1] && u[j] == Unique(rest)[j - 1];
        }
      }
    }
  }

  /** The `.dt.year`, `.dt.month` and `.dt.day` series of a chunk. */
  function Years(chunk: seq<Row>): seq<nat>
  {
    if chunk == [] then [] else [chunk[0].date.year] + Years(chunk[1..])
  }

  function Months(chunk: seq<Row>): seq<nat>
  {
    if chunk == [] then [] else [chunk[0].date.month] + Months(chunk[1..])
  }

  function Days(chunk: seq<Row>): seq<nat>
  {
    if chunk == [] then [] else [chunk[0].date.day] + Days(chunk[1..])
  }

  /** The partition key of a chunk: each field is the first unique value of
      its series. Indexing `[0]` into an empty `unique()` fails, so the
      chunk must not be empty (the generator never yields an empty one).
      The key is the first row's date, whatever dates later rows hold. */
  function PartitionKey(chunk: seq<Row>): (key: Date)
    requires |chunk| > 0
    ensures key == chunk[0].date
  {
    Date(Unique(Years(chunk))[0], Unique(Months(chunk))[0], Unique(Days(chunk))[0])
  }

  /** A chunk whose rows all carry the date `d` is keyed by `d`. */
  lemma SingleDateKey(chunk: seq<Row>, d: Date)
    requires |chunk| > 0
    requires forall i :: 0 <= i < |chunk| ==> chunk[i].date == d
    ensures PartitionKey(chunk) == d
  {
  }

  /** Two chunks that start with the same date share a key, whatever their
      other rows hold; in particular a row whose date differs from the first
      row's is filed under a partition that is not its own. */
  lemma KeyIgnoresLaterRows(chunk: seq<Row>, other: seq<Row>)
    requires |chunk| > 0 && |other| > 0 && chunk[0].date == other[0].date
    ensures PartitionKey(chunk) == PartitionKey(other)
    ensures forall i :: 0 <= i < |chunk| && chunk[i].date != chunk[0].date ==> PartitionKey(chunk) != chunk[i].date
  {
  }

  /** The fixed start of every destination path. */
  const YearPrefix := "path/to/destination/year="

  /** The object key a chunk with partition key `key` is written to,
      `path/to/destination/year={Y}/month={M}/day={D}/data.parquet` with
      unpadded decimal fields; the key can be read back out of it. */
  function DestinationPath(key: Date): (path: string)
    ensures ParseDestinationPath(path) == Some(key)
  {
    var t1 := "/day=" + (FromNat(key.day) + "/data.parquet");
    var t0 := "/month=" + (FromNat(key.month) + t1);
    ReadFieldOf(YearPrefix, key.year, t0);
    ReadFieldOf("/month=", key.month, t1);
    ReadFieldOf("/day=", key.day, "/data.parquet");
    YearPrefix + (FromNat(key.year) + t0)
  }

  /** Reads the partition key back out of a destination path. */
  function ParseDestinationPath(path: string): Option<Date> {
    var (year, s1) :- ReadField(YearPrefix, path);
    var (month, s2) :- ReadField("/month=", s1);
    var (day, s3) :- ReadField("/day=", s2);
    if s3 == "/data.parquet" then Some(Date(year, month, day)) else None
  }

  /** The renderings used by `ExamplePath`; a solver aid with no source
      counterpart, like the `Join` lemmas below. */
  lemma RenderExampleFields()
    ensures FromNat(2024) == "2024" && FromNat(1) == "1" && FromNat(15) == "15"
  {
    assert FromNat(20) == "20";
    assert FromNat(202) == "202";
  }

  /** Literal concatenation for `ExamplePath` (a solver aid). */
  lemma JoinDay()
    ensures "/day=" + ("15" + "/data.parquet") == "/day=15/data.parquet"
  {
  }

  /** Literal concatenation for `ExamplePath` (a solver aid). */
  lemma JoinMonth()
    ensures "/month=" + ("1" + "/day=15/data.parquet") == "/month=1/day=15/data.parquet"
  {
  }

  /** Literal concatenation for `ExamplePath` (a solver aid). */
  lemma JoinYear()
    ensures "2024" + "/month=1/day=15/data.parquet" == "2024/month=1/day=15/data.parquet"
  {
  }

  /** Literal concatenation for `ExamplePath` (a solver aid). */
  lemma JoinPrefix()
    ensures YearPrefix + "2024/month=1/day=15/data.parquet"
      == "path/to/destination/year=2024/month=1/day=15/data.parquet"
  {
  }

  /** The example path assembled from its literal pieces (a solver aid). */
  lemma JoinExamplePath()
    ensures YearPrefix + ("2024" + ("/month=" + ("1" + ("/day=" + ("15" + "/data.parquet")))))
      == "path/to/destination/year=2024/month=1/day=15/data.parquet"
  {
    calc {
      YearPrefix + ("2024" + ("/month=" + ("1" + ("/day=" + ("15" + "/data.parquet")))));
      { JoinDay(); }
      YearPrefix + ("2024" + ("/month=" + ("1" + "/day=15/data.parquet")));
      { JoinMonth(); }
      YearPrefix + ("2024" + "/month=1/day=15/data.parquet");
      { JoinYear(); }
      YearPrefix + "2024/month=1/day=15/data.parquet";
      { JoinPrefix(); }
      "path/to/destination/year=2024/month=1/day=15/data.parquet";
    }
  }

  /** The path for 2024-01-15: fields are written without zero padding. */
  lemma ExamplePath()
    ensures DestinationPath(Date(2024, 1, 15)) == "path/to/destination/year=2024/month=1/day=15/data.parquet"
  {
    RenderExampleFields();
    JoinExamplePath();
  }

  /** Distinct partition keys give distinct destination paths, so chunks
      with different keys never overwrite each other. */
  lemma DestinationPathInjective(a: Date, b: Date)
    ensures DestinationPath(a) == DestinationPath(b) <==> a == b
  {
  }
}
