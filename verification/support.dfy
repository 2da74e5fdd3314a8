/** The pure helpers of src/kmeans_support.c: the CSV row rules of `read_csv`,
    the header line of `print_headers`, the comparison of `test_results`
    against an expected file, and the status word `print_metrics` writes. */
module Support {
  import opened Points

  /** One CSV data line as the CSV reader splits it: how many fields it has, the
      values `strtod` makes of the first two, and the value the `%[^0-9]%d`
      scan leaves in `cluster` for the third. */
  datatype Row = Row(fields: nat, x: real, y: real, cluster: int)

  /** The point a row becomes: its cluster is read only when the row has a third
      field and the header names more than two columns, and is -1 otherwise. */
  function RowPoint(row: Row, dimensions: int): (p: Point)
    ensures p.x == row.x && p.y == row.y
    ensures p.cluster == (if row.fields > 2 && dimensions > 2 then row.cluster else NO_CLUSTER)
  {
    Point(row.x, row.y, if row.fields > 2 && dimensions > 2 then row.cluster else NO_CLUSTER)
  }

  /** `read_csv`: read rows while fewer than `maxPoints` points are stored and
      lines remain; a line with fewer than two fields ends the reading. */
  method ReadCsv(rows: seq<Row>, maxPoints: int, dimensions: int) returns (points: seq<Point>)
    ensures |points| <= |rows|
    ensures maxPoints >= 0 ==> |points| <= maxPoints
    ensures maxPoints <= 0 ==> |points| == 0
    ensures forall i :: 0 <= i < |points| ==> rows[i].fields >= 2 && points[i] == RowPoint(rows[i], dimensions)
    ensures |points| < maxPoints ==> |points| == |rows| || rows[|points|].fields < 2
  {
    points := [];
    var count := 0;
    while count < maxPoints && count < |rows|
      invariant 0 <= count <= |rows|
      invariant count == |points|
      invariant maxPoints >= 0 ==> count <= maxPoints
      invariant maxPoints <= 0 ==> count == 0
      invariant forall i :: 0 <= i < count ==> rows[i].fields >= 2 && points[i] == RowPoint(rows[i], dimensions)
    {
      if rows[count].fields < 2 {
        break;
      }
      points := points + [RowPoint(rows[count], dimensions)];
      count := count + 1;
    }
  }

  /** The comparison loop of `test_results`: 1 when the first |dataset| expected
      points equal the result point for point (x, y and cluster), otherwise -1,
      giving up at the first difference. */
  method ComparePoints(dataset: seq<Point>, expected: seq<Point>) returns (result: int)
    requires |dataset| <= |expected|
    ensures result == 1 || result == -1
    ensures result == 1 <==> forall i :: 0 <= i < |dataset| ==> expected[i] == dataset[i]
  {
    result := 1;
    var n := 0;
    while n < |dataset|
      invariant 0 <= n <= |dataset|
      invariant result == 1
      invariant forall i :: 0 <= i < n ==> expected[i] == dataset[i]
    {
      var p := dataset[n];
      var testP := expected[n];
      if testP.x == p.x && testP.y == p.y {
        if testP.cluster != p.cluster {
          result := -1;
          return;
        }
      } else {
        result := -1;
        return;
      }
      n := n + 1;
    }
  }

  /** The result agrees with the expected file: it has at least as many points
      and its first |dataset| points are the result's. */
  predicate MatchesExpected(dataset: seq<Point>, expected: seq<Point>)
  {
    |expected| >= |dataset| && forall i :: 0 <= i < |dataset| ==> expected[i] == dataset[i]
  }

  /** `test_results` as written: `expected` is what `read_csv` returned from the
      test file with `max_points` set to the number of result points. When the
      file is too short the result is still 1. */
  method TestResultsAsWritten(dataset: seq<Point>, expected: seq<Point>) returns (result: int)
    ensures |expected| < |dataset| ==> result == 1
    ensures |expected| >= |dataset| ==> (result == 1 <==> MatchesExpected(dataset, expected))
    ensures result == 1 || result == -1
  {
    if |expected| < |dataset| {
      result := 1;
    } else {
      result := ComparePoints(dataset, expected);
    }
  }

  /** A one-point result against an empty expected file passes as written,
      although the expected file does not match it. */
  method ShortExpectedFilePasses() returns (result: int)
    ensures result == 1 && !MatchesExpected([Point(0.0, 0.0, 0)], [])
  {
    result := TestResultsAsWritten([Point(0.0, 0.0, 0)], []);
  }

  /** `test_results` as its documentation describes it: a short expected file is
      a failure, so 1 means exactly that the expected file matches. */
  method TestResults(dataset: seq<Point>, expected: seq<Point>) returns (result: int)
    ensures result == 1 || result == -1
    ensures result == 1 <==> MatchesExpected(dataset, expected)
  {
    if |expected| < |dataset| {
      result := -1;
    } else {
      result := ComparePoints(dataset, expected);
    }
  }

  /** The test-status column of `print_metrics`. */
  function StatusName(testResult: int): (s: string)
    ensures s == "passed" <==> testResult == 1
    ensures s == "FAILED!" <==> testResult == -1
    ensures s == "untested" <==> testResult != 1 && testResult != -1
  {
    if testResult == 1 then "passed"
    else if testResult == -1 then "FAILED!"
    else "untested"
  }

  /** The fields of a line, split at every comma. */
  function Split(s: string): (fields: seq<string>)
    ensures |fields| >= 1
    decreases |s|
  {
    if |s| == 0 then [""]
    else
      var rest := Split(s[1..]);
      if s[0] == ',' then [""] + rest else [[s[0]] + rest[0]] + rest[1..]
  }

  /** Fields joined by commas. */
  function Join(fields: seq<string>): string
    requires |fields| >= 1
    decreases |fields|
  {
    if |fields| == 1 then fields[0] else fields[0] + "," + Join(fields[1..])
  }

  predicate NoComma(s: string)
  {
    forall i :: 0 <= i < |s| ==> s[i] != ','
  }

  lemma {:induction false} SplitPrefix(f: string, rest: string)
    requires NoComma(f)
    ensures Split(f + "," + rest) == [f] + Split(rest)
    ensures Split(f) == [f]
    decreases |f|
  {
    if |f| > 0 {
      SplitPrefix(f[1..], rest);
      assert (f + "," + rest)[1..] == f[1..] + "," + rest;
      assert [f[0]] + f[1..] == f;
    } else {
      assert f + "," + rest == [','] + rest;
    }
  }

  /** Splitting a joined line gives back its fields when none holds a comma. */
  lemma {:induction false} SplitJoin(fields: seq<string>)
    requires |fields| >= 1
    requires forall i :: 0 <= i < |fields| ==> NoComma(fields[i])
    ensures Split(Join(fields)) == fields
    decreases |fields|
  {
    SplitPrefix(fields[0], "");
    if |fields| > 1 {
      SplitJoin(fields[1..]);
      SplitPrefix(fields[0], Join(fields[1..]));
    }
  }

  /** The ",name" pieces `print_headers` writes for headers i .. dimensions-1. */
  function HeaderTail(headers: seq<string>, i: nat, dimensions: nat): string
    requires dimensions <= |headers|
    decreases dimensions - i
  {
    if i >= dimensions then "" else "," + headers[i] + HeaderTail(headers, i + 1, dimensions)
  }

  /** `print_headers`: nothing without headers; otherwise the first header, a
      comma and each further header up to `dimensions`, then ",Cluster" and a
      newline. The first header is written even when `dimensions` is below 1. */
  function PrintHeaders(headers: seq<string>, hasHeaders: bool, dimensions: nat): string
    requires hasHeaders ==> 1 <= |headers| && dimensions <= |headers|
  {
    if !hasHeaders then "" else headers[0] + HeaderTail(headers, 1, dimensions) + ",Cluster\n"
  }

  lemma {:induction false} HeaderTailJoin(headers: seq<string>, i: nat, dimensions: nat, last: string)
    requires 1 <= i <= dimensions <= |headers|
    ensures headers[i - 1] + HeaderTail(headers, i, dimensions) + "," + last
            == Join(headers[i - 1..dimensions] + [last])
    decreases dimensions - i
  {
    if i < dimensions {
      HeaderTailJoin(headers, i + 1, dimensions, last);
      assert (headers[i - 1..dimensions] + [last])[1..] == headers[i..dimensions] + [last];
    } else {
      assert headers[i - 1..dimensions] + [last] == [headers[i - 1], last];
    }
  }

  /** The header line holds the first max(dimensions, 1) headers and then
      "Cluster" (with the newline), in order, when no header contains a comma. */
  lemma PrintHeadersFields(headers: seq<string>, dimensions: nat)
    requires 1 <= |headers| && dimensions <= |headers|
    requires forall i :: 0 <= i < |headers| ==> NoComma(headers[i])
    ensures var shown := if dimensions >= 1 then dimensions else 1;
            Split(PrintHeaders(headers, true, dimensions)) == headers[..shown] + ["Cluster\n"]
  {
    var shown := if dimensions >= 1 then dimensions else 1;
    var fields := headers[..shown] + ["Cluster\n"];
    var line := PrintHeaders(headers, true, dimensions);
    if dimensions >= 1 {
      HeaderTailJoin(headers, 1, dimensions, "Cluster\n");
      assert headers[0..dimensions] == headers[..shown];
      assert line == headers[0] + HeaderTail(headers, 1, dimensions) + "," + "Cluster\n";
    } else {
      assert fields == [headers[0], "Cluster\n"];
      assert line == headers[0] + "," + "Cluster\n";
    }
    assert line == Join(fields);
    assert NoComma("Cluster\n");
    forall i | 0 <= i < |fields|
      ensures NoComma(fields[i])
    {
      if i < shown {
        assert fields[i] == headers[i];
      }
    }
    SplitJoin(fields);
  }
}
