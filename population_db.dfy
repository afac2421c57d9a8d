/**
 * The two read paths over the population stores: ResultsDb.GetPopulationData
 * (one aggregate row of 20 ten-year bands) and DownloadDb.GetPopulationData
 * (one row of 57 five-year bands per zone). Both build an IN-clause with one
 * placeholder per zone code and bind the codes positionally.
 *
 * The sqlite engine is a foreign call: each method receives it as a function
 * from (query, arguments) to the reply. A store-backed engine (a table in
 * storage order, queried by code) is defined below, and lemmas say what the
 * methods return when that engine answers.
 */
module PopulationDb {
  import opened Wrappers
  import opened Delimited
  import opened Thousands

  type Code = string

  /** m_0_9 ... m_90 then f_0_9 ... f_90. */
  const SummaryWidth := 20
  /** p_0_4 ... p_90, m_0_4 ... m_90, f_0_4 ... f_90. */
  const DetailWidth := 57

  /* ---------------- Query text ---------------- */

  /** n question marks, one per zone code. */
  function Marks(n: nat): seq<string>
  {
    seq(n, _ => "?")
  }

  function Repeat(s: string, n: nat): string
  {
    if n == 0 then "" else Repeat(s, n - 1) + s
  }

  /**
   * The text the query builder ends with: the base query, the placeholders
   * joined by commas, and a closing parenthesis. With no codes at all the
   * last character of the base query is cut off instead.
   */
  function QueryText(base: string, n: nat): string
    requires |base| > 0 || n > 0
  {
    if n == 0 then base[..|base| - 1] + ")" else base + Join(Marks(n), ',') + ")"
  }

  lemma {:induction false} RepeatMarks(n: nat)
    requires n >= 1
    ensures Repeat("?,", n) == Join(Marks(n), ',') + ","
  {
    if n > 1 {
      RepeatMarks(n - 1);
      assert Marks(n) == Marks(n - 1) + ["?"];
      JoinSnoc(Marks(n - 1), "?", ',');
    } else {
      assert Marks(1) == ["?"];
    }
  }

  /** The loop of both GetPopulationData methods that builds query and args. */
  method BuildQuery(base: string, zones: seq<Code>) returns (query: string, args: seq<Code>)
    requires |base| > 0 || |zones| > 0
    ensures query == QueryText(base, |zones|)
    ensures args == zones
  {
    query := base;
    args := [];
    var i := 0;
    while i < |zones|
      invariant 0 <= i <= |zones|
      invariant query == base + Repeat("?,", i)
      invariant args == zones[..i]
    {
      query := query + "?,";
      args := args + [zones[i]];
      i := i + 1;
    }
    assert zones[..i] == zones;
    if i > 0 {
      RepeatMarks(i);
      assert query == base + Join(Marks(i), ',') + ",";
    }
    query := query[..|query| - 1] + ")";
  }

  lemma {:induction false} MarksCount(n: nat)
    ensures Count(Join(Marks(n), ','), '?') == n
  {
    if n > 1 {
      MarksCount(n - 1);
      assert Marks(n) == Marks(n - 1) + ["?"];
      JoinSnoc(Marks(n - 1), "?", ',');
      assert Join(Marks(n - 1), ',') + [','] + "?" == Join(Marks(n - 1), ',') + ",?";
      CountAppend(Join(Marks(n - 1), ','), ",?", '?');
      assert Count(",?", '?') == 1;
    } else if n == 1 {
      assert Marks(1) == ["?"];
    }
  }

  /**
   * For one or more codes the query is the base query followed by exactly one
   * placeholder per code, separated by commas, and a closing parenthesis; the
   * codes themselves never enter the text.
   */
  lemma QueryPlaceholders(base: string, n: nat)
    requires n >= 1
    ensures var q := QueryText(base, n);
      && q[..|base|] == base
      && q[|q| - 1] == ')'
      && Split(q[|base|..|q| - 1], ',') == Marks(n)
      && Count(q, '?') == Count(base, '?') + n
  {
    var q := QueryText(base, n);
    var list := Join(Marks(n), ',');
    assert q[|base|..|q| - 1] == list;
    SplitJoin(Marks(n), ',');
    MarksCount(n);
    CountAppend(base, list, '?');
    CountAppend(base + list, ")", '?');
    assert q == base + list + ")";
  }

  /* ---------------- Sums ---------------- */

  function Sum(s: seq<int>): int
  {
    if s == [] then 0 else Sum(s[..|s| - 1]) + s[|s| - 1]
  }

  lemma {:induction false} SumAppend(a: seq<int>, b: seq<int>)
    ensures Sum(a + b) == Sum(a) + Sum(b)
    decreases |b|
  {
    if b == [] {
      assert a + b == a;
    } else {
      SumAppend(a, b[..|b| - 1]);
      assert (a + b)[..|a + b| - 1] == a + b[..|b| - 1];
    }
  }

  /* ---------------- Summary path ---------------- */

  /** The page data of the results view; male[k] and female[k] hold ages 10k to 10k+9 (k = 9: 90 and over). */
  datatype ResultsData = ResultsData(population: string, zones: string, male: seq<int>, female: seq<int>)

  /** What QueryRow(...) hands to Scan: an error, or the columns of the one row. */
  datatype SummaryReply = RowError(message: string) | Row(values: seq<int>)

  /**
   * Scanning the aggregate row into the 20 band variables and building the
   * page data. Scan fails on an error reply or when the column count is not 20.
   */
  function ScanSummary(reply: SummaryReply): (r: Result<ResultsData>)
    ensures r.Failure? <==> reply.RowError? || |reply.values| != SummaryWidth
    ensures reply.RowError? ==> r == Failure(reply.message)
    ensures r.Success? ==>
      && |r.value.male| == 10 && |r.value.female| == 10
      && r.value.male + r.value.female == reply.values
      && r.value.population == NumberWithCommas(Sum(r.value.male) + Sum(r.value.female))
      && r.value.zones == ""
  {
    match reply
    case RowError(e) => Failure(e)
    case Row(v) =>
      if |v| != SummaryWidth then Failure("sql: expected 20 destination arguments in Scan")
      else
        SumAppend(v[..10], v[10..]);
        assert v[..10] + v[10..] == v;
        Success(ResultsData(NumberWithCommas(Sum(v)), "", v[..10], v[10..]))
  }

  lemma SumTwenty(v: seq<int>)
    requires |v| == 20
    ensures Sum(v) == v[0] + v[1] + v[2] + v[3] + v[4] + v[5] + v[6] + v[7] + v[8] + v[9]
      + v[10] + v[11] + v[12] + v[13] + v[14] + v[15] + v[16] + v[17] + v[18] + v[19]
  {
    assert v[..20] == v;
    assert Sum(v[..20]) == Sum(v[..19]) + v[19] by { assert v[..20][..19] == v[..19]; }
    assert Sum(v[..19]) == Sum(v[..18]) + v[18] by { assert v[..19][..18] == v[..18]; }
    assert Sum(v[..18]) == Sum(v[..17]) + v[17] by { assert v[..18][..17] == v[..17]; }
    assert Sum(v[..17]) == Sum(v[..16]) + v[16] by { assert v[..17][..16] == v[..16]; }
    assert Sum(v[..16]) == Sum(v[..15]) + v[15] by { assert v[..16][..15] == v[..15]; }
    assert Sum(v[..15]) == Sum(v[..14]) + v[14] by { assert v[..15][..14] == v[..14]; }
    assert Sum(v[..14]) == Sum(v[..13]) + v[13] by { assert v[..14][..13] == v[..13]; }
    assert Sum(v[..13]) == Sum(v[..12]) + v[12] by { assert v[..13][..12] == v[..12]; }
    assert Sum(v[..12]) == Sum(v[..11]) + v[11] by { assert v[..12][..11] == v[..11]; }
    assert Sum(v[..11]) == Sum(v[..10]) + v[10] by { assert v[..11][..10] == v[..10]; }
    assert Sum(v[..10]) == Sum(v[..9]) + v[9] by { assert v[..10][..9] == v[..9]; }
    assert Sum(v[..9]) == Sum(v[..8]) + v[8] by { assert v[..9][..8] == v[..8]; }
    assert Sum(v[..8]) == Sum(v[..7]) + v[7] by { assert v[..8][..7] == v[..7]; }
    assert Sum(v[..7]) == Sum(v[..6]) + v[6] by { assert v[..7][..6] == v[..6]; }
    assert Sum(v[..6]) == Sum(v[..5]) + v[5] by { assert v[..6][..5] == v[..5]; }
    assert Sum(v[..5]) == Sum(v[..4]) + v[4] by { assert v[..5][..4] == v[..4]; }
    assert Sum(v[..4]) == Sum(v[..3]) + v[3] by { assert v[..4][..3] == v[..3]; }
    assert Sum(v[..3]) == Sum(v[..2]) + v[2] by { assert v[..3][..2] == v[..2]; }
    assert Sum(v[..2]) == Sum(v[..1]) + v[1] by { assert v[..2][..1] == v[..1]; }
    assert Sum(v[..1]) == Sum(v[..0]) + v[0] by { assert v[..1][..0] == v[..0]; }
  }

  /** ResultsDb.GetPopulationData: build the query, run it, scan the row, total the 20 bands. */
  method GetSummary(base: string, zones: seq<Code>, queryRow: (string, seq<Code>) -> SummaryReply)
    returns (r: Result<ResultsData>)
    requires |base| > 0 || |zones| > 0
    ensures r == ScanSummary(queryRow(QueryText(base, |zones|), zones))
  {
    var query, args := BuildQuery(base, zones);
    var reply := queryRow(query, args);
    if reply.RowError? {
      return Failure(reply.message);
    }
    var v := reply.values;
    if |v| != SummaryWidth {
      return Failure("sql: expected 20 destination arguments in Scan");
    }
    var population := v[0] + v[1] + v[2] + v[3] + v[4] + v[5] + v[6] + v[7] + v[8] + v[9]
      + v[10] + v[11] + v[12] + v[13] + v[14] + v[15] + v[16] + v[17] + v[18] + v[19];
    SumTwenty(v);
    r := Success(ResultsData(NumberWithCommas(population), "", v[..10], v[10..]));
  }

  /* ---------------- Detail path ---------------- */

  /** One zone of the download: code, then counts p_0_4 ... p_90, m_0_4 ... m_90, f_0_4 ... f_90. */
  datatype DownloadData = DownloadData(code: Code, counts: seq<int>)

  /** A row the cursor yields: its columns, or a row Scan cannot decode. */
  datatype RawRow = RawRow(code: Code, values: seq<int>) | Undecodable(message: string)

  /** What Query(...) returns: an error, or the rows followed by the cursor's final error (rows.Err()). */
  datatype DetailReply = QueryError(message: string) | Rows(rows: seq<RawRow>, err: Option<string>)

  function ScanRow(row: RawRow): Result<DownloadData>
  {
    match row
    case Undecodable(e) => Failure(e)
    case RawRow(code, values) =>
      if |values| == DetailWidth then Success(DownloadData(code, values))
      else Failure("sql: expected 58 destination arguments in Scan")
  }

  /**
   * The rows.Next() loop: one record per row in row order, or the error of
   * the first row that does not scan; never a partial list.
   */
  function CollectRows(rows: seq<RawRow>): (r: Result<seq<DownloadData>>)
    ensures r.Success? <==> forall i :: 0 <= i < |rows| ==> ScanRow(rows[i]).Success?
    ensures r.Success? ==> |r.value| == |rows|
    ensures r.Success? ==> forall i :: 0 <= i < |rows| ==> r.value[i] == ScanRow(rows[i]).value
  {
    if rows == [] then Success([])
    else
      match CollectRows(rows[..|rows| - 1])
      case Failure(e) => Failure(e)
      case Success(ds) =>
        match ScanRow(rows[|rows| - 1])
        case Failure(e) => Failure(e)
        case Success(d) => Success(ds + [d])
  }

  /** The result of DownloadDb.GetPopulationData for a given reply. */
  function DetailResult(reply: DetailReply): (r: Result<seq<DownloadData>>)
  {
    match reply
    case QueryError(e) => Failure(e)
    case Rows(rows, err) =>
      match CollectRows(rows)
      case Failure(e) => Failure(e)
      case Success(ds) => if err.Some? then Failure(err.value) else Success(ds)
  }

  /** A failing row stops the loop: its error is the result whatever follows. */
  lemma {:induction false} CollectStopsAtFailure(rows: seq<RawRow>, i: nat)
    requires i <= |rows| && CollectRows(rows[..i]).Failure?
    ensures CollectRows(rows) == CollectRows(rows[..i])
    decreases |rows|
  {
    if i == |rows| {
      assert rows[..i] == rows;
    } else {
      var init := rows[..|rows| - 1];
      assert init[..i] == rows[..i];
      CollectStopsAtFailure(init, i);
    }
  }

  /** DownloadDb.GetPopulationData. */
  method GetDetail(base: string, zones: seq<Code>, query: (string, seq<Code>) -> DetailReply)
    returns (r: Result<seq<DownloadData>>)
    requires |base| > 0 || |zones| > 0
    ensures r == DetailResult(query(QueryText(base, |zones|), zones))
  {
    var text, args := BuildQuery(base, zones);
    var reply := query(text, args);
    if reply.QueryError? {
      return Failure(reply.message);
    }
    var rows := reply.rows;
    var results: seq<DownloadData> := [];
    var i := 0;
    while i < |rows|
      invariant 0 <= i <= |rows|
      invariant CollectRows(rows[..i]) == Success(results)
    {
      assert rows[..i + 1][..i] == rows[..i];
      var row := rows[i];
      if row.Undecodable? {
        CollectStopsAtFailure(rows, i + 1);
        return Failure(row.message);
      }
      if |row.values| != DetailWidth {
        CollectStopsAtFailure(rows, i + 1);
        return Failure("sql: expected 58 destination arguments in Scan");
      }
      results := results + [DownloadData(row.code, row.values)];
      i := i + 1;
    }
    assert rows[..i] == rows;
    if reply.err.Some? {
      return Failure(reply.err.value);
    }
    r := Success(results);
  }
}
