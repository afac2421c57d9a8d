/**
 * The sqlite stores behind ResultsDb and DownloadDb, read-only: a table of
 * one record per zone code, in storage order. `code IN (...)` selects the
 * records whose code is among the bound arguments; the aggregate query sums
 * each band over them. The SQL text itself is not interpreted.
 */
module PopulationStore {
  import opened Wrappers
  import opened Thousands
  import opened PopulationDb

  datatype Record = Record(code: Code, counts: seq<int>)

  /** A store: its table, and whether the database can be reached at all. */
  datatype Store = Store(table: seq<Record>, online: bool)

  /** Every record has the given number of band columns. */
  predicate Conforms(table: seq<Record>, width: nat)
  {
    forall i :: 0 <= i < |table| ==> |table[i].counts| == width
  }

  predicate Distinct(codes: seq<Code>)
  {
    forall i, j :: 0 <= i < j < |codes| ==> codes[i] != codes[j]
  }

  /** `WHERE code IN (args)`: the records whose code is among args, in storage order. */
  function Matching(table: seq<Record>, args: seq<Code>): seq<Record>
  {
    if table == [] then []
    else (if table[0].code in args then [table[0]] else []) + Matching(table[1..], args)
  }

  function SumBy(rows: seq<Record>, f: Record -> int): int
  {
    if rows == [] then 0 else f(rows[0]) + SumBy(rows[1..], f)
  }

  /** Band k of a record (0 past the last band). */
  function Cell(r: Record, k: nat): int
  {
    if k < |r.counts| then r.counts[k] else 0
  }

  function RecordTotal(r: Record): int
  {
    Sum(r.counts)
  }

  /** sum(band 0), ..., sum(band w - 1) over the rows. */
  function Columns(rows: seq<Record>, w: nat): (row: seq<int>)
    ensures |row| == w
  {
    if w == 0 then [] else Columns(rows, w - 1) + [SumBy(rows, r => Cell(r, w - 1))]
  }

  /** What the aggregate query of ResultsDb returns from this store. */
  function AggregateRow(store: Store, args: seq<Code>): SummaryReply
  {
    if !store.online then RowError("unable to open database file")
    else Row(Columns(Matching(store.table, args), SummaryWidth))
  }

  function SummaryEngine(store: Store): (string, seq<Code>) -> SummaryReply
  {
    (query, args) => AggregateRow(store, args)
  }

  function AsRawRows(rows: seq<Record>): (raw: seq<RawRow>)
    ensures |raw| == |rows|
  {
    seq(|rows|, i requires 0 <= i < |rows| => RawRow(rows[i].code, rows[i].counts))
  }

  /** What the row query of DownloadDb returns from this store. */
  function SelectRows(store: Store, args: seq<Code>): DetailReply
  {
    if !store.online then QueryError("unable to open database file")
    else Rows(AsRawRows(Matching(store.table, args)), None)
  }

  function DetailEngine(store: Store): (string, seq<Code>) -> DetailReply
  {
    (query, args) => SelectRows(store, args)
  }

  /* ---------------- Selection by code ---------------- */

  /** Only which stored codes are listed matters: order, repeats and unknown codes do not. */
  lemma {:induction false} MatchingByStoredCodes(table: seq<Record>, a: seq<Code>, b: seq<Code>)
    requires forall i :: 0 <= i < |table| ==> (table[i].code in a <==> table[i].code in b)
    ensures Matching(table, a) == Matching(table, b)
  {
    if table != [] {
      MatchingByStoredCodes(table[1..], a, b);
    }
  }

  lemma {:induction false} MatchingNothing(table: seq<Record>)
    ensures Matching(table, []) == []
  {
    if table != [] {
      MatchingNothing(table[1..]);
    }
  }

  /** Every selected record is a stored record with a listed code, and each stored match is selected. */
  lemma {:induction false} MatchingMembers(table: seq<Record>, args: seq<Code>, r: Record)
    ensures r in Matching(table, args) <==> r in table && r.code in args
  {
    if table != [] {
      MatchingMembers(table[1..], args, r);
      assert table == [table[0]] + table[1..];
    }
  }

  /**
   * Aggregation is additive: when no stored code is listed in both a and b,
   * a query for a and b together sums to the two separate queries.
   */
  lemma {:induction false} MatchingAdditive(table: seq<Record>, a: seq<Code>, b: seq<Code>, f: Record -> int)
    requires forall i :: 0 <= i < |table| ==> !(table[i].code in a && table[i].code in b)
    ensures SumBy(Matching(table, a + b), f) == SumBy(Matching(table, a), f) + SumBy(Matching(table, b), f)
  {
    if table != [] {
      MatchingAdditive(table[1..], a, b, f);
      var x := table[0];
      var rest := Matching(table[1..], a + b);
      if x.code in a + b {
        assert ([x] + rest)[1..] == rest;
        var ra, rb := Matching(table[1..], a), Matching(table[1..], b);
        if x.code in a {
          assert x.code !in b;
          assert Matching(table, a) == [x] + ra;
          assert ([x] + ra)[1..] == ra;
          assert Matching(table, b) == [] + rb == rb;
        } else {
          assert Matching(table, a) == [] + ra == ra;
          assert Matching(table, b) == [x] + rb;
          assert ([x] + rb)[1..] == rb;
        }
      } else {
        assert [] + rest == rest;
        assert [] + Matching(table[1..], a) == Matching(table[1..], a);
        assert [] + Matching(table[1..], b) == Matching(table[1..], b);
      }
    }
  }

  /** The sum of the single-code queries, one per listed code. */
  function SumSingles(table: seq<Record>, codes: seq<Code>, f: Record -> int): int
  {
    if codes == [] then 0 else SumBy(Matching(table, [codes[0]]), f) + SumSingles(table, codes[1..], f)
  }

  /** For distinct codes, the query of all of them sums to the sum of the single-code queries. */
  lemma {:induction false} SumOfSingles(table: seq<Record>, codes: seq<Code>, f: Record -> int)
    requires Distinct(codes)
    ensures SumBy(Matching(table, codes), f) == SumSingles(table, codes, f)
  {
    if codes == [] {
      MatchingNothing(table);
    } else {
      var z, rest := codes[0], codes[1..];
      assert Distinct(rest) by {
        forall i, j | 0 <= i < j < |rest| ensures rest[i] != rest[j] {
          assert rest[i] == codes[i + 1] && rest[j] == codes[j + 1];
        }
      }
      assert z !in rest by {
        forall j | 0 <= j < |rest| ensures rest[j] != z { assert rest[j] == codes[j + 1]; }
      }
      SumOfSingles(table, rest, f);
      MatchingAdditive(table, [z], rest, f);
      assert [z] + rest == codes;
    }
  }

  /* ---------------- Summary row ---------------- */

  function CellsUpTo(r: Record, w: nat): int
  {
    if w == 0 then 0 else CellsUpTo(r, w - 1) + Cell(r, w - 1)
  }

  lemma {:induction false} CellsUpToSum(r: Record, w: nat)
    requires w <= |r.counts|
    ensures CellsUpTo(r, w) == Sum(r.counts[..w])
  {
    if w > 0 {
      CellsUpToSum(r, w - 1);
      assert r.counts[..w][..w - 1] == r.counts[..w - 1];
    }
  }

  lemma {:induction false} SumByStep(rows: seq<Record>, w: nat)
    ensures SumBy(rows, r => CellsUpTo(r, w + 1)) == SumBy(rows, r => CellsUpTo(r, w)) + SumBy(rows, r => Cell(r, w))
  {
    if rows != [] {
      SumByStep(rows[1..], w);
    }
  }

  /** Summing the column totals equals summing the record totals (bands up to w). */
  lemma {:induction false} ColumnsTotal(rows: seq<Record>, w: nat)
    ensures Sum(Columns(rows, w)) == SumBy(rows, r => CellsUpTo(r, w))
  {
    if w == 0 {
      SumByZero(rows);
    } else {
      ColumnsTotal(rows, w - 1);
      SumByStep(rows, w - 1);
      var c := Columns(rows, w);
      assert c[..|c| - 1] == Columns(rows, w - 1);
    }
  }

  lemma {:induction false} SumByZero(rows: seq<Record>)
    ensures SumBy(rows, r => CellsUpTo(r, 0)) == 0
  {
    if rows != [] {
      SumByZero(rows[1..]);
    }
  }

  lemma {:induction false} SumByCellsIsTotal(rows: seq<Record>, w: nat)
    requires forall i :: 0 <= i < |rows| ==> |rows[i].counts| == w
    ensures SumBy(rows, r => CellsUpTo(r, w)) == SumBy(rows, RecordTotal)
  {
    if rows != [] {
      SumByCellsIsTotal(rows[1..], w);
      CellsUpToSum(rows[0], w);
      assert rows[0].counts[..w] == rows[0].counts;
    }
  }

  lemma {:induction false} MatchingConforms(table: seq<Record>, args: seq<Code>, w: nat)
    requires Conforms(table, w)
    ensures Conforms(Matching(table, args), w)
  {
    forall i | 0 <= i < |Matching(table, args)|
      ensures |Matching(table, args)[i].counts| == w
    {
      MatchingMembers(table, args, Matching(table, args)[i]);
    }
  }

  /**
   * From a reachable store, the results path succeeds; its 20 bands are the
   * band-wise sums over the stored records of the listed codes, and its
   * population is the formatted total of those records.
   */
  lemma StoreSummary(store: Store, zones: seq<Code>)
    requires store.online && Conforms(store.table, SummaryWidth)
    ensures var r := ScanSummary(AggregateRow(store, zones));
      && r.Success?
      && r.value.male + r.value.female == Columns(Matching(store.table, zones), SummaryWidth)
      && r.value.population == NumberWithCommas(SumBy(Matching(store.table, zones), RecordTotal))
  {
    var rows := Matching(store.table, zones);
    MatchingConforms(store.table, zones, SummaryWidth);
    ColumnsTotal(rows, SummaryWidth);
    SumByCellsIsTotal(rows, SummaryWidth);
    var v := Columns(rows, SummaryWidth);
    SumAppend(v[..10], v[10..]);
    assert v[..10] + v[10..] == v;
  }

  /* ---------------- Detail rows ---------------- */

  /**
   * From a reachable store, the download path succeeds with one record per
   * stored zone among the listed codes, in storage order, fields copied.
   */
  lemma StoreDetail(store: Store, zones: seq<Code>)
    requires store.online && Conforms(store.table, DetailWidth)
    ensures var m := Matching(store.table, zones);
      var r := DetailResult(SelectRows(store, zones));
      && r.Success?
      && |r.value| == |m|
      && forall i :: 0 <= i < |m| ==> r.value[i] == DownloadData(m[i].code, m[i].counts)
  {
    MatchingConforms(store.table, zones, DetailWidth);
  }

  /** The sum of the first band (p_0_4) over download records. */
  function P0Total(ds: seq<DownloadData>): int
  {
    if ds == [] then 0 else (if |ds[0].counts| > 0 then ds[0].counts[0] else 0) + P0Total(ds[1..])
  }

  lemma {:induction false} P0TotalOfRows(ds: seq<DownloadData>, rows: seq<Record>)
    requires |ds| == |rows|
    requires forall i :: 0 <= i < |rows| ==> ds[i] == DownloadData(rows[i].code, rows[i].counts)
    ensures P0Total(ds) == SumBy(rows, r => Cell(r, 0))
  {
    if rows != [] {
      P0TotalOfRows(ds[1..], rows[1..]);
    }
  }

  /* ---------------- The two stores agree ---------------- */

  /** p_0_4 ... p_90: the person bands that open each download row. */
  const PersonBands := 19

  /** The persons of one download row: the sum of its person bands. */
  function Persons(d: DownloadData): int
  {
    if |d.counts| >= PersonBands then Sum(d.counts[..PersonBands]) else Sum(d.counts)
  }

  /** The sum of the download rows' person counts. */
  function PersonsTotal(ds: seq<DownloadData>): int
  {
    if ds == [] then 0 else Persons(ds[0]) + PersonsTotal(ds[1..])
  }

  /** The persons of a detail record, as its download row reports them. */
  function RecordPersons(r: Record): int
  {
    Persons(DownloadData(r.code, r.counts))
  }

  /**
   * The data the two databases are built from agree: they hold the same
   * codes in the same order, and each summary record's total is the person
   * count of the detail record for the same code.
   */
  predicate Agree(summary: seq<Record>, detail: seq<Record>)
  {
    && |summary| == |detail|
    && forall i :: 0 <= i < |summary| ==>
      summary[i].code == detail[i].code && RecordTotal(summary[i]) == RecordPersons(detail[i])
  }

  lemma {:induction false} MatchingAgree(summary: seq<Record>, detail: seq<Record>, zones: seq<Code>)
    requires Agree(summary, detail)
    ensures SumBy(Matching(summary, zones), RecordTotal) == SumBy(Matching(detail, zones), RecordPersons)
  {
    if summary != [] {
      assert Agree(summary[1..], detail[1..]) by {
        forall i | 0 <= i < |summary[1..]|
          ensures summary[1..][i].code == detail[1..][i].code && RecordTotal(summary[1..][i]) == RecordPersons(detail[1..][i])
        {
          assert summary[1..][i] == summary[i + 1] && detail[1..][i] == detail[i + 1];
        }
      }
      MatchingAgree(summary[1..], detail[1..], zones);
      var ms, md := Matching(summary[1..], zones), Matching(detail[1..], zones);
      if summary[0].code in zones {
        assert ([summary[0]] + ms)[1..] == ms;
        assert ([detail[0]] + md)[1..] == md;
      } else {
        assert [] + ms == ms && [] + md == md;
      }
    }
  }

  lemma {:induction false} PersonsTotalOfRows(ds: seq<DownloadData>, rows: seq<Record>)
    requires |ds| == |rows|
    requires forall i :: 0 <= i < |rows| ==> ds[i] == DownloadData(rows[i].code, rows[i].counts)
    ensures PersonsTotal(ds) == SumBy(rows, RecordPersons)
  {
    if rows != [] {
      PersonsTotalOfRows(ds[1..], rows[1..]);
    }
  }

  /**
   * When the two stores agree, the results page's total for a list of codes
   * is the formatted sum of the person counts of the download rows for the
   * same codes: the two read paths cross-check.
   */
  lemma SummaryMatchesDetail(results: Store, download: Store, zones: seq<Code>)
    requires results.online && Conforms(results.table, SummaryWidth)
    requires download.online && Conforms(download.table, DetailWidth)
    requires Agree(results.table, download.table)
    ensures var s := ScanSummary(AggregateRow(results, zones));
      var d := DetailResult(SelectRows(download, zones));
      && s.Success? && d.Success?
      && s.value.population == NumberWithCommas(PersonsTotal(d.value))
  {
    StoreSummary(results, zones);
    StoreDetail(download, zones);
    MatchingAgree(results.table, download.table, zones);
    PersonsTotalOfRows(DetailResult(SelectRows(download, zones)).value, Matching(download.table, zones));
  }

  /* ---------------- The fixtures of the server tests ---------------- */

  /** Population totals the tests expect for ten zones queried one at a time. */
  const SingleTotals: seq<int> := [1863, 1927, 1608, 2456, 1375, 1690, 1534, 2341, 1531, 2430]
  /** p_0_4 counts the tests expect for the same ten zones. */
  const SingleP0: seq<int> := [49, 87, 78, 84, 99, 76, 103, 132, 84, 117]

  lemma {:induction false} SumSinglesIs(table: seq<Record>, codes: seq<Code>, f: Record -> int, expected: seq<int>)
    requires |codes| == |expected|
    requires forall i :: 0 <= i < |codes| ==> SumBy(Matching(table, [codes[i]]), f) == expected[i]
    ensures SumSingles(table, codes, f) == SumLeft(expected)
  {
    if codes != [] {
      SumSinglesIs(table, codes[1..], f, expected[1..]);
    }
  }

  function SumLeft(s: seq<int>): int
  {
    if s == [] then 0 else s[0] + SumLeft(s[1..])
  }

  /**
   * With one fixed store, if the ten single-zone queries give the tested
   * totals 1,863 ... 2,430, the ten-zone query gives 18,755.
   */
  lemma ResultsTotalsAdd(store: Store, codes: seq<Code>)
    requires store.online && Conforms(store.table, SummaryWidth)
    requires |codes| == 10 && Distinct(codes)
    requires forall i :: 0 <= i < 10 ==>
      ScanSummary(AggregateRow(store, [codes[i]])).Success? &&
      ScanSummary(AggregateRow(store, [codes[i]])).value.population == NumberWithCommas(SingleTotals[i])
    ensures ScanSummary(AggregateRow(store, codes)).Success?
    ensures ScanSummary(AggregateRow(store, codes)).value.population == "18,755"
  {
    var t := store.table;
    forall i | 0 <= i < 10 ensures SumBy(Matching(t, [codes[i]]), RecordTotal) == SingleTotals[i] {
      StoreSummary(store, [codes[i]]);
      NumberWithCommasInjective(SumBy(Matching(t, [codes[i]]), RecordTotal), SingleTotals[i]);
    }
    SumSinglesIs(t, codes, RecordTotal, SingleTotals);
    SumOfSingles(t, codes, RecordTotal);
    assert SumLeft(SingleTotals) == 18755;
    StoreSummary(store, codes);
    TestedFormats();
  }

  /**
   * With one fixed store, if the ten single-zone downloads have the tested
   * p_0_4 counts 49 ... 117, the ten-zone download's p_0_4 counts add up to 909.
   */
  lemma DownloadP0Add(store: Store, codes: seq<Code>)
    requires store.online && Conforms(store.table, DetailWidth)
    requires |codes| == 10 && Distinct(codes)
    requires forall i :: 0 <= i < 10 ==>
      DetailResult(SelectRows(store, [codes[i]])).Success? &&
      P0Total(DetailResult(SelectRows(store, [codes[i]])).value) == SingleP0[i]
    ensures DetailResult(SelectRows(store, codes)).Success?
    ensures P0Total(DetailResult(SelectRows(store, codes)).value) == 909
  {
    var t := store.table;
    forall i | 0 <= i < 10 ensures SumBy(Matching(t, [codes[i]]), r => Cell(r, 0)) == SingleP0[i] {
      StoreDetail(store, [codes[i]]);
      P0TotalOfRows(DetailResult(SelectRows(store, [codes[i]])).value, Matching(t, [codes[i]]));
    }
    SumSinglesIs(t, codes, r => Cell(r, 0), SingleP0);
    SumOfSingles(t, codes, r => Cell(r, 0));
    assert SumLeft(SingleP0) == 909;
    StoreDetail(store, codes);
    P0TotalOfRows(DetailResult(SelectRows(store, codes)).value, Matching(t, codes));
  }
}
